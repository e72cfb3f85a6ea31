/**
 * The few pieces of the Prometheus client library the exporter relies on:
 * metric descriptors, constant gauge samples, the naming rule for fully
 * qualified metric names, and the channels descriptors and samples are sent to.
 */
module Metrics {
  import opened Wrappers

  /** A metric descriptor: fully qualified name, help text, ordered variable label names. */
  datatype Desc = Desc(name: string, help: string, labels: seq<string>)

  /**
   * A gauge value. A ratio is kept as the float64 division the exporter performs,
   * numerator over denominator, because its denominator is not guarded.
   */
  datatype Value = Exact(x: real) | Quotient(num: real, den: real)

  /** The real number a value denotes; a quotient by zero is Inf or NaN in float64, outside the reals. */
  function RealOf(v: Value): (r: Option<real>)
    ensures v.Exact? ==> r == Some(v.x)
    ensures v.Quotient? ==> (r.Some? <==> v.den != 0.0)
    ensures v.Quotient? && r.Some? ==> r.value * v.den == v.num
  {
    match v
    case Exact(x) => Some(x)
    case Quotient(n, d) => if d == 0.0 then None else Some(n / d)
  }

  /** A constant gauge sample: descriptor, value and the label values in the descriptor's label order. */
  datatype Sample = Sample(desc: Desc, value: Value, labels: seq<string>)

  /** The label-count check MustNewConstMetric performs (it panics when this fails). */
  predicate WellFormed(s: Sample)
  {
    |s.labels| == |s.desc.labels|
  }

  /**
   * BuildFQName: the non-empty components among namespace, subsystem and name
   * joined with "_", or "" when the name is empty.
   */
  function BuildFQName(namespace: string, subsystem: string, name: string): (r: string)
    ensures name == "" ==> r == ""
    ensures name != "" && subsystem == "" ==> r == (if namespace == "" then name else namespace + "_" + name)
  {
    if name == "" then ""
    else if namespace != "" && subsystem != "" then namespace + "_" + subsystem + "_" + name
    else if namespace != "" then namespace + "_" + name
    else if subsystem != "" then subsystem + "_" + name
    else name
  }

  /** A channel to which the exporter only sends; `sent` is everything sent so far, in order. */
  class Channel<T> {
    var sent: seq<T>

    constructor ()
      ensures sent == []
    {
      sent := [];
    }

    method Send(x: T)
      modifies this
      ensures sent == old(sent) + [x]
    {
      sent := sent + [x];
    }
  }
}
