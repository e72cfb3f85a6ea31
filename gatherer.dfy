/**
 * The per-family gathering tasks (the gatherMetrics* functions): each fetches
 * one or two endpoints and sends zero or more samples. Every task is a method
 * that appends to the sample channel, specified by a function of the upstream
 * answers that gives the samples it appends.
 *
 * In the source these functions are methods of the exporter whose receiver is
 * only read for its scrape URI; here the URI is the parameter `base`.
 */
module Gatherer {
  import opened Wrappers
  import opened Json
  import opened Wallix
  import opened Metrics
  import opened Seqs
  import C = Catalogue

  /** The five target kinds, each gathered by its own task. */
  datatype TargetType =
    | SessionAccounts
    | SessionAccountMappings
    | SessionInteractiveLogins
    | SessionScenarioAccounts
    | PasswordRetrievalAccounts

  /** The target type string: `/targets/<type>` and the `type` label value. */
  function TypeLabel(t: TargetType): string
  {
    match t
    case SessionAccounts => "session_accounts"
    case SessionAccountMappings => "session_account_mappings"
    case SessionInteractiveLogins => "session_interactive_logins"
    case SessionScenarioAccounts => "session_scenario_accounts"
    case PasswordRetrievalAccounts => "password_retrieval_accounts"
  }

  // ------------------------------------------------------------ specification

  /** A count family: one sample valued at the list length, or none when the fetch failed. */
  function CountSamples(desc: Desc, labels: seq<string>, fetched: Result<seq<Object>, Error>): seq<Sample>
  {
    match fetched
    case Err(_) => []
    case Ok(xs) => [Sample(desc, Exact(|xs| as real), labels)]
  }

  function UsersSamples(client: Client, lib: Stdlib, base: string): seq<Sample>
  {
    CountSamples(C.Users, [], ListOutcome(client, lib, UsersCall(base)))
  }

  function GroupsSamples(client: Client, lib: Stdlib, base: string): seq<Sample>
  {
    CountSamples(C.Groups, [], ListOutcome(client, lib, GroupsCall(base)))
  }

  function DevicesSamples(client: Client, lib: Stdlib, base: string): seq<Sample>
  {
    CountSamples(C.Devices, [], ListOutcome(client, lib, DevicesCall(base)))
  }

  function TargetsSamples(t: TargetType, client: Client, lib: Stdlib, base: string): seq<Sample>
  {
    CountSamples(C.Targets, [TypeLabel(t)], ListOutcome(client, lib, TargetsCall(base, TypeLabel(t))))
  }

  /** Current and closed sessions: two independent fetches, one sample each at most. */
  function SessionsSamples(client: Client, lib: Stdlib, clock: Clock, base: string): seq<Sample>
  {
    CountSamples(C.Sessions, ["current"], ListOutcome(client, lib, CurrentSessionsCall(base)))
    + CountSamples(C.Sessions, ["closed"],
                   ListOutcome(client, lib, ClosedSessionsCall(base, clock, C.SessionsClosedMinutes)))
  }

  /** The encryption vocabulary of gatherMetricsEncryption. */
  const EncryptionMap: map<string, int> := map[
    "ready" := 1,
    "need_setup" := 0,
    "need_passphrase" := 2,
    "passphrase_not_used" := 2,
    "passphrase_defined" := 1,
    "[hidden]" := -1
  ]

  /** A Go map lookup: a string outside the vocabulary reads as the zero value. */
  function EncryptionCode(s: string): int
  {
    if s in EncryptionMap then EncryptionMap[s] else 0
  }

  /** The encryption samples for a decoded encryption object. */
  function EncryptionSamplesOf(info: Object): seq<Sample>
  {
    match (StringAt(info, "encryption"), StringAt(info, "security_level"))
    case (Some(status), Some(level)) =>
      [Sample(C.EncryptionStatus, Exact(EncryptionCode(status) as real), [status, level]),
       Sample(C.EncryptionSecurityLevel, Exact(EncryptionCode(level) as real), [level, status])]
    case _ => []
  }

  function EncryptionSamples(client: Client, lib: Stdlib, base: string): seq<Sample>
  {
    match ObjectOutcome(client, lib, EncryptionCall(base))
    case Err(_) => []
    case Ok(info) => EncryptionSamplesOf(info)
  }

  /** The 0/1 gauge of a flag. */
  function Gauge(b: bool): real
  {
    if b then 1.0 else 0.0
  }

  /** The license_is_expired samples: one from `is_expired`, one from the negation of `is_valid`. */
  function ExpiredSamples(info: Object): seq<Sample>
  {
    (match BoolAt(info, "is_expired")
     case Some(expired) => [Sample(C.LicenseIsExpired, Exact(Gauge(expired)), [])]
     case None => [])
    + (match BoolAt(info, "is_valid")
       case Some(valid) => [Sample(C.LicenseIsExpired, Exact(Gauge(!valid)), [])]
       case None => [])
  }

  /** A license counter, 0 when absent or not a number. */
  function NumberOrZero(info: Object, key: string): real
  {
    match NumberAt(info, key)
    case Some(x) => x
    case None => 0.0
  }

  /** One usage ratio: sent only when its maximum is a number. */
  function RatioSamples(info: Object, key: string, maxKey: string, desc: Desc): seq<Sample>
  {
    match NumberAt(info, maxKey)
    case Some(max) => [Sample(desc, Quotient(NumberOrZero(info, key), max), [])]
    case None => []
  }

  /** The license samples for a decoded license object, in the order they are sent. */
  function LicenseSamplesOf(info: Object): seq<Sample>
  {
    ExpiredSamples(info)
    + RatioSamples(info, "primary", "primary_max", C.LicensePrimaryPct)
    + RatioSamples(info, "secondary", "secondary_max", C.LicenseSecondaryPct)
    + RatioSamples(info, "named_user", "named_user_max", C.LicenseNamedUserPct)
    + RatioSamples(info, "resource", "resource_max", C.LicenseResourcePct)
    + RatioSamples(info, "waapm", "waapm_max", C.LicenseWaapmPct)
    + RatioSamples(info, "pm_target", "pm_target_max", C.LicensePmTargetPct)
    + RatioSamples(info, "sm_target", "sm_target_max", C.LicenseSmTargetPct)
  }

  function LicenseSamples(client: Client, lib: Stdlib, base: string): seq<Sample>
  {
    match ObjectOutcome(client, lib, LicenseCall(base))
    case Err(_) => []
    case Ok(info) => LicenseSamplesOf(info)
  }

  // ------------------------------------------------------------------- tasks

  method GatherUsers(ch: Channel<Sample>, client: Client, lib: Stdlib, base: string)
    modifies ch
    ensures ch.sent == old(ch.sent) + UsersSamples(client, lib, base)
  {
    var users := GetUsers(client, lib, base);
    if users.Ok? {
      ch.Send(Sample(C.Users, Exact(|users.value| as real), []));
    }
  }

  method GatherGroups(ch: Channel<Sample>, client: Client, lib: Stdlib, base: string)
    modifies ch
    ensures ch.sent == old(ch.sent) + GroupsSamples(client, lib, base)
  {
    var groups := GetGroups(client, lib, base);
    if groups.Ok? {
      ch.Send(Sample(C.Groups, Exact(|groups.value| as real), []));
    }
  }

  method GatherDevices(ch: Channel<Sample>, client: Client, lib: Stdlib, base: string)
    modifies ch
    ensures ch.sent == old(ch.sent) + DevicesSamples(client, lib, base)
  {
    var devices := GetDevices(client, lib, base);
    if devices.Ok? {
      ch.Send(Sample(C.Devices, Exact(|devices.value| as real), []));
    }
  }

  /** The body shared by the five target tasks. */
  method GatherTargets(ch: Channel<Sample>, t: TargetType, client: Client, lib: Stdlib, base: string)
    modifies ch
    ensures ch.sent == old(ch.sent) + TargetsSamples(t, client, lib, base)
  {
    var targetType := TypeLabel(t);
    var targets := GetTargets(client, lib, base, targetType);
    if targets.Ok? {
      ch.Send(Sample(C.Targets, Exact(|targets.value| as real), [targetType]));
    }
  }

  method GatherTargetsSessionAccounts(ch: Channel<Sample>, client: Client, lib: Stdlib, base: string)
    modifies ch
    ensures ch.sent == old(ch.sent) + TargetsSamples(SessionAccounts, client, lib, base)
  {
    GatherTargets(ch, SessionAccounts, client, lib, base);
  }

  method GatherTargetsSessionAccountMappings(ch: Channel<Sample>, client: Client, lib: Stdlib, base: string)
    modifies ch
    ensures ch.sent == old(ch.sent) + TargetsSamples(SessionAccountMappings, client, lib, base)
  {
    GatherTargets(ch, SessionAccountMappings, client, lib, base);
  }

  method GatherTargetsSessionInteractiveLogins(ch: Channel<Sample>, client: Client, lib: Stdlib, base: string)
    modifies ch
    ensures ch.sent == old(ch.sent) + TargetsSamples(SessionInteractiveLogins, client, lib, base)
  {
    GatherTargets(ch, SessionInteractiveLogins, client, lib, base);
  }

  method GatherTargetsSessionScenarioAccounts(ch: Channel<Sample>, client: Client, lib: Stdlib, base: string)
    modifies ch
    ensures ch.sent == old(ch.sent) + TargetsSamples(SessionScenarioAccounts, client, lib, base)
  {
    GatherTargets(ch, SessionScenarioAccounts, client, lib, base);
  }

  method GatherTargetsPasswordRetrievalAccounts(ch: Channel<Sample>, client: Client, lib: Stdlib, base: string)
    modifies ch
    ensures ch.sent == old(ch.sent) + TargetsSamples(PasswordRetrievalAccounts, client, lib, base)
  {
    GatherTargets(ch, PasswordRetrievalAccounts, client, lib, base);
  }

  method GatherEncryption(ch: Channel<Sample>, client: Client, lib: Stdlib, base: string)
    modifies ch
    ensures ch.sent == old(ch.sent) + EncryptionSamples(client, lib, base)
  {
    var info := GetEncryption(client, lib, base);
    if info.Ok? {
      var status := StringAt(info.value, "encryption");
      if status.Some? {
        var level := StringAt(info.value, "security_level");
        if level.Some? {
          ch.Send(Sample(C.EncryptionStatus, Exact(EncryptionCode(status.value) as real),
                         [status.value, level.value]));
          ch.Send(Sample(C.EncryptionSecurityLevel, Exact(EncryptionCode(level.value) as real),
                         [level.value, status.value]));
        }
      }
    }
  }

  /** One ratio block of gatherMetricsLicense. */
  method SendRatio(ch: Channel<Sample>, info: Object, key: string, maxKey: string, desc: Desc)
    modifies ch
    ensures ch.sent == old(ch.sent) + RatioSamples(info, key, maxKey, desc)
  {
    var used := NumberAt(info, key);
    var count := if used.Some? then used.value else 0.0;
    var max := NumberAt(info, maxKey);
    if max.Some? {
      ch.Send(Sample(desc, Quotient(count, max.value), []));
    }
  }

  method GatherLicense(ch: Channel<Sample>, client: Client, lib: Stdlib, base: string)
    modifies ch
    ensures ch.sent == old(ch.sent) + LicenseSamples(client, lib, base)
  {
    var fetched := GetLicense(client, lib, base);
    if fetched.Err? {
      return;
    }
    var info := fetched.value;
    var expired := BoolAt(info, "is_expired");
    if expired.Some? {
      var gauge := 0.0;
      if expired.value {
        gauge := 1.0;
      }
      ch.Send(Sample(C.LicenseIsExpired, Exact(gauge), []));
    }
    var valid := BoolAt(info, "is_valid");
    if valid.Some? {
      var gauge := 0.0;
      if !valid.value {
        gauge := 1.0;
      }
      ch.Send(Sample(C.LicenseIsExpired, Exact(gauge), []));
    }
    ghost var sent := ExpiredSamples(info);
    assert ch.sent == old(ch.sent) + sent;
    SendRatio(ch, info, "primary", "primary_max", C.LicensePrimaryPct);
    AppendAssoc(old(ch.sent), sent, RatioSamples(info, "primary", "primary_max", C.LicensePrimaryPct));
    sent := sent + RatioSamples(info, "primary", "primary_max", C.LicensePrimaryPct);
    SendRatio(ch, info, "secondary", "secondary_max", C.LicenseSecondaryPct);
    AppendAssoc(old(ch.sent), sent, RatioSamples(info, "secondary", "secondary_max", C.LicenseSecondaryPct));
    sent := sent + RatioSamples(info, "secondary", "secondary_max", C.LicenseSecondaryPct);
    SendRatio(ch, info, "named_user", "named_user_max", C.LicenseNamedUserPct);
    AppendAssoc(old(ch.sent), sent, RatioSamples(info, "named_user", "named_user_max", C.LicenseNamedUserPct));
    sent := sent + RatioSamples(info, "named_user", "named_user_max", C.LicenseNamedUserPct);
    SendRatio(ch, info, "resource", "resource_max", C.LicenseResourcePct);
    AppendAssoc(old(ch.sent), sent, RatioSamples(info, "resource", "resource_max", C.LicenseResourcePct));
    sent := sent + RatioSamples(info, "resource", "resource_max", C.LicenseResourcePct);
    SendRatio(ch, info, "waapm", "waapm_max", C.LicenseWaapmPct);
    AppendAssoc(old(ch.sent), sent, RatioSamples(info, "waapm", "waapm_max", C.LicenseWaapmPct));
    sent := sent + RatioSamples(info, "waapm", "waapm_max", C.LicenseWaapmPct);
    SendRatio(ch, info, "pm_target", "pm_target_max", C.LicensePmTargetPct);
    AppendAssoc(old(ch.sent), sent, RatioSamples(info, "pm_target", "pm_target_max", C.LicensePmTargetPct));
    sent := sent + RatioSamples(info, "pm_target", "pm_target_max", C.LicensePmTargetPct);
    SendRatio(ch, info, "sm_target", "sm_target_max", C.LicenseSmTargetPct);
    AppendAssoc(old(ch.sent), sent, RatioSamples(info, "sm_target", "sm_target_max", C.LicenseSmTargetPct));
    sent := sent + RatioSamples(info, "sm_target", "sm_target_max", C.LicenseSmTargetPct);
    assert sent == LicenseSamplesOf(info);
  }

  method GatherSessions(ch: Channel<Sample>, client: Client, lib: Stdlib, clock: Clock, base: string)
    modifies ch
    ensures ch.sent == old(ch.sent) + SessionsSamples(client, lib, clock, base)
  {
    var current := GetCurrentSessions(client, lib, base);
    if current.Ok? {
      ch.Send(Sample(C.Sessions, Exact(|current.value| as real), ["current"]));
    }
    var closed := GetClosedSessions(client, lib, clock, base, C.SessionsClosedMinutes);
    if closed.Ok? {
      ch.Send(Sample(C.Sessions, Exact(|closed.value| as real), ["closed"]));
    }
  }

  // ---------------------------------------------------------------- properties

  /**
   * A count family read off the wire: a sample is sent exactly when the URL is
   * accepted, the bastion answers 200 or 204 and the body decodes into a list of
   * objects (or null); its value is then the number of array elements.
   */
  lemma CountFromWire(desc: Desc, labels: seq<string>, client: Client, lib: Stdlib, c: Call)
    ensures var s := CountSamples(desc, labels, ListOutcome(client, lib, c));
            var res := client(GetRequest(c));
            && |s| <= 1
            && (s != [] <==>
                  && lib.urlOk(c.url)
                  && res.Reply? && (res.status == StatusOK || res.status == StatusNoContent)
                  && lib.decode(res.body).Some?
                  && AsObjectList(lib.decode(res.body).value).Some?)
            && (forall items :: s != [] && lib.decode(res.body) == Some(List(items)) ==>
                  s == [Sample(desc, Exact(|items| as real), labels)])
            && (s != [] && lib.decode(res.body) == Some(Null) ==> s == [Sample(desc, Exact(0.0), labels)])
  {
  }

  /** Users, groups and devices: nothing on a failed fetch, otherwise one unlabelled sample valued at the list length. */
  lemma CountFamilies(client: Client, lib: Stdlib, base: string)
    ensures var r := ListOutcome(client, lib, UsersCall(base));
            UsersSamples(client, lib, base) == if r.Ok? then [Sample(C.Users, Exact(|r.value| as real), [])] else []
    ensures var r := ListOutcome(client, lib, GroupsCall(base));
            GroupsSamples(client, lib, base) == if r.Ok? then [Sample(C.Groups, Exact(|r.value| as real), [])] else []
    ensures var r := ListOutcome(client, lib, DevicesCall(base));
            DevicesSamples(client, lib, base) == if r.Ok? then [Sample(C.Devices, Exact(|r.value| as real), [])] else []
  {
  }

  /** The five target type strings are pairwise distinct. */
  lemma TypeLabelsDistinct(t1: TargetType, t2: TargetType)
    requires t1 != t2
    ensures TypeLabel(t1) != TypeLabel(t2)
  {
  }

  /**
   * A target task sends at most one `targets` sample, labelled with its own type
   * string and valued at the length of the list fetched from `/targets/<type>`.
   */
  lemma TargetsFamily(t: TargetType, client: Client, lib: Stdlib, base: string)
    ensures var r := ListOutcome(client, lib, TargetsCall(base, TypeLabel(t)));
            TargetsSamples(t, client, lib, base) ==
              if r.Ok? then [Sample(C.Targets, Exact(|r.value| as real), [TypeLabel(t)])] else []
    ensures TargetsCall(base, TypeLabel(t)).url == base + "/targets/" + TypeLabel(t)
  {
  }

  /** The encryption vocabulary, and the zero value for every other string. */
  lemma EncryptionCodes(s: string)
    ensures EncryptionCode("ready") == 1
    ensures EncryptionCode("need_setup") == 0
    ensures EncryptionCode("need_passphrase") == 2
    ensures EncryptionCode("passphrase_not_used") == 2
    ensures EncryptionCode("passphrase_defined") == 1
    ensures EncryptionCode("[hidden]") == -1
    ensures s !in EncryptionMap ==> EncryptionCode(s) == 0
    ensures EncryptionMap.Keys ==
      {"ready", "need_setup", "need_passphrase", "passphrase_not_used", "passphrase_defined", "[hidden]"}
  {
  }

  /**
   * Encryption sends no sample or exactly two: both when `encryption` and
   * `security_level` are strings, the status sample labelled (status, level) and
   * the level sample labelled (level, status), each valued by the vocabulary.
   */
  lemma EncryptionFamily(info: Object)
    ensures var out := EncryptionSamplesOf(info);
            && (|out| == 0 || |out| == 2)
            && (|out| == 2 <==> StringAt(info, "encryption").Some? && StringAt(info, "security_level").Some?)
    ensures var out := EncryptionSamplesOf(info);
            |out| == 2 ==>
              var status := info["encryption"].s;
              var level := info["security_level"].s;
              && out[0] == Sample(C.EncryptionStatus, Exact(EncryptionCode(status) as real), [status, level])
              && out[1] == Sample(C.EncryptionSecurityLevel, Exact(EncryptionCode(level) as real), [level, status])
  {
  }

  /** A ready encryption with a defined passphrase reads 1 on both metrics. */
  lemma EncryptionReady()
    ensures var info := map["encryption" := Str("ready"), "security_level" := Str("passphrase_defined")];
            EncryptionSamplesOf(info) ==
              [Sample(C.EncryptionStatus, Exact(1.0), ["ready", "passphrase_defined"]),
               Sample(C.EncryptionSecurityLevel, Exact(1.0), ["passphrase_defined", "ready"])]
  {
  }

  /**
   * Both license flags feed license_is_expired: a boolean `is_expired` gives 1
   * when true, a boolean `is_valid` gives 1 when false; so zero, one or two samples.
   */
  lemma ExpiredFlags(info: Object)
    ensures var out := ExpiredSamples(info);
            && |out| == (if BoolAt(info, "is_expired").Some? then 1 else 0)
                        + (if BoolAt(info, "is_valid").Some? then 1 else 0)
            && (forall s :: s in out ==> s.desc == C.LicenseIsExpired && s.labels == [])
            && (BoolAt(info, "is_expired").Some? ==>
                  out[0].value == Exact(if info["is_expired"].b then 1.0 else 0.0))
            && (BoolAt(info, "is_valid").Some? ==>
                  out[|out| - 1].value == Exact(if info["is_valid"].b then 0.0 else 1.0))
  {
  }

  /**
   * A usage ratio is sent exactly when its maximum is a number; its value is the
   * counter over that maximum, the counter read as 0 when absent or not a number.
   */
  lemma RatioRule(info: Object, key: string, maxKey: string, desc: Desc)
    ensures var out := RatioSamples(info, key, maxKey, desc);
            && |out| <= 1
            && (out != [] <==> maxKey in info && info[maxKey].Number?)
            && (out != [] ==>
                  var used := if key in info && info[key].Number? then info[key].x else 0.0;
                  out[0] == Sample(desc, Quotient(used, info[maxKey].x), []))
  {
  }

  /** 50 primary licences used out of 200 read as the ratio 0.25; with no counter, 0. */
  lemma PrimaryRatioExample()
    ensures var out := LicenseSamplesOf(map["primary" := Number(50.0), "primary_max" := Number(200.0)]);
            |out| == 1 && out[0].desc == C.LicensePrimaryPct && RealOf(out[0].value) == Some(0.25)
    ensures var out := LicenseSamplesOf(map["primary_max" := Number(200.0)]);
            |out| == 1 && RealOf(out[0].value) == Some(0.0)
  {
  }

  /** The license task sends nothing when its fetch fails, and at most nine samples otherwise. */
  lemma LicenseFamily(client: Client, lib: Stdlib, base: string)
    ensures ObjectOutcome(client, lib, LicenseCall(base)).Err? ==> LicenseSamples(client, lib, base) == []
    ensures |LicenseSamples(client, lib, base)| <= 9
  {
    var r := ObjectOutcome(client, lib, LicenseCall(base));
    if r.Ok? {
      var info := r.value;
      ExpiredFlags(info);
    }
  }

  /** Every sample of `xs` is unlabelled and of one of the descriptors `ds`. */
  predicate UnlabelledOf(xs: seq<Sample>, ds: seq<Desc>)
  {
    forall s :: s in xs ==> s.desc in ds && s.labels == []
  }

  lemma UnlabelledOfAppend(xs: seq<Sample>, ys: seq<Sample>, ds: seq<Desc>)
    requires UnlabelledOf(xs, ds) && UnlabelledOf(ys, ds)
    ensures UnlabelledOf(xs + ys, ds)
  {
  }

  /** A ratio sample is unlabelled and of its own descriptor. */
  lemma RatioUnlabelled(info: Object, key: string, maxKey: string, desc: Desc, ds: seq<Desc>, k: nat)
    requires k < |ds| && ds[k] == desc
    ensures UnlabelledOf(RatioSamples(info, key, maxKey, desc), ds)
  {
  }

  /** Every license sample is unlabelled and of a license descriptor. */
  lemma LicenseDescriptors(info: Object)
    ensures UnlabelledOf(LicenseSamplesOf(info), C.LicenseDescs)
  {
    var ds := C.LicenseDescs;
    var sent := ExpiredSamples(info);
    assert UnlabelledOf(sent, ds) by {
      ExpiredFlags(info);
      assert ds[0] == C.LicenseIsExpired;
    }
    RatioUnlabelled(info, "primary", "primary_max", C.LicensePrimaryPct, ds, 1);
    UnlabelledOfAppend(sent, RatioSamples(info, "primary", "primary_max", C.LicensePrimaryPct), ds);
    sent := sent + RatioSamples(info, "primary", "primary_max", C.LicensePrimaryPct);
    RatioUnlabelled(info, "secondary", "secondary_max", C.LicenseSecondaryPct, ds, 2);
    UnlabelledOfAppend(sent, RatioSamples(info, "secondary", "secondary_max", C.LicenseSecondaryPct), ds);
    sent := sent + RatioSamples(info, "secondary", "secondary_max", C.LicenseSecondaryPct);
    RatioUnlabelled(info, "named_user", "named_user_max", C.LicenseNamedUserPct, ds, 3);
    UnlabelledOfAppend(sent, RatioSamples(info, "named_user", "named_user_max", C.LicenseNamedUserPct), ds);
    sent := sent + RatioSamples(info, "named_user", "named_user_max", C.LicenseNamedUserPct);
    RatioUnlabelled(info, "resource", "resource_max", C.LicenseResourcePct, ds, 4);
    UnlabelledOfAppend(sent, RatioSamples(info, "resource", "resource_max", C.LicenseResourcePct), ds);
    sent := sent + RatioSamples(info, "resource", "resource_max", C.LicenseResourcePct);
    RatioUnlabelled(info, "waapm", "waapm_max", C.LicenseWaapmPct, ds, 5);
    UnlabelledOfAppend(sent, RatioSamples(info, "waapm", "waapm_max", C.LicenseWaapmPct), ds);
    sent := sent + RatioSamples(info, "waapm", "waapm_max", C.LicenseWaapmPct);
    RatioUnlabelled(info, "pm_target", "pm_target_max", C.LicensePmTargetPct, ds, 6);
    UnlabelledOfAppend(sent, RatioSamples(info, "pm_target", "pm_target_max", C.LicensePmTargetPct), ds);
    sent := sent + RatioSamples(info, "pm_target", "pm_target_max", C.LicensePmTargetPct);
    RatioUnlabelled(info, "sm_target", "sm_target_max", C.LicenseSmTargetPct, ds, 7);
    UnlabelledOfAppend(sent, RatioSamples(info, "sm_target", "sm_target_max", C.LicenseSmTargetPct), ds);
    sent := sent + RatioSamples(info, "sm_target", "sm_target_max", C.LicenseSmTargetPct);
    assert sent == LicenseSamplesOf(info);
  }

  /** As written, the ratio computed from `pm_target` is published as license_sm_target_ratio. */
  lemma PmTargetPublishedAsSm(info: Object)
    requires NumberAt(info, "pm_target_max").Some?
    ensures exists s :: s in LicenseSamplesOf(info) && s.desc.name == "wallix_bastion_" + "license_sm_target_ratio"
              && s.value == Quotient(NumberOrZero(info, "pm_target"), info["pm_target_max"].x)
  {
    C.RatioNames();
    var s := Sample(C.LicensePmTargetPct, Quotient(NumberOrZero(info, "pm_target"), info["pm_target_max"].x), []);
    assert s in RatioSamples(info, "pm_target", "pm_target_max", C.LicensePmTargetPct);
  }

  /**
   * Current and closed sessions are independent: each sample is sent exactly when
   * its own fetch succeeds, labelled "current" or "closed".
   */
  lemma SessionsIndependent(client: Client, lib: Stdlib, clock: Clock, base: string)
    ensures var current := ListOutcome(client, lib, CurrentSessionsCall(base));
            var closed := ListOutcome(client, lib, ClosedSessionsCall(base, clock, C.SessionsClosedMinutes));
            var out := SessionsSamples(client, lib, clock, base);
            && |out| == (if current.Ok? then 1 else 0) + (if closed.Ok? then 1 else 0)
            && (current.Ok? ==> Sample(C.Sessions, Exact(|current.value| as real), ["current"]) in out)
            && (closed.Ok? ==> Sample(C.Sessions, Exact(|closed.value| as real), ["closed"]) in out)
            && (forall s :: s in out ==> s.desc == C.Sessions && (s.labels == ["current"] || s.labels == ["closed"]))
            && (forall s :: s in out && s.labels == ["current"] ==> current.Ok?)
            && (forall s :: s in out && s.labels == ["closed"] ==> closed.Ok?)
  {
  }
}
