/**
 * The exporter: one scrape builds an HTTP client, authenticates, sends the `up`
 * sample and, when authentication succeeded, runs the eleven gathering tasks.
 * The catalogue is announced by Describe.
 *
 * The tasks run concurrently in the source and only ever append to the shared
 * sample channel; here they run one after the other, and the lemmas state what
 * holds of the multiset of samples whatever the order.
 */
module Exporter {
  import opened Wrappers
  import opened Json
  import opened Wallix
  import opened Metrics
  import opened Gatherer
  import opened Seqs
  import C = Catalogue

  /** The exporter's configuration; how it is loaded is not part of this model. */
  datatype Config = Config(
    listenAddress: string,
    telemetryPath: string,
    scrapeUri: string,
    skipVerify: bool,
    timeout: int,
    wallixUsername: string,
    wallixPassword: string)

  /** The configuration an HTTP client is built from. */
  datatype HttpConfig = HttpConfig(
    timeout: int,
    username: string,
    password: string,
    headers: map<string, string>,
    skipVerify: bool,
    cookieManager: bool)

  /** Building a client from its configuration; it fails when no cookie jar can be made. */
  type Builder = HttpConfig -> Option<Client>

  /**
   * The client Collect asks for: the configured timeout and TLS policy, an
   * identifying User-Agent, a cookie jar, and no credentials injected into
   * every request (the session cookie from Authenticate is used instead).
   */
  function ClientConfig(cfg: Config): (h: HttpConfig)
    ensures h.timeout == cfg.timeout && h.skipVerify == cfg.skipVerify
    ensures h.headers == map["User-Agent" := "prometheus_exporter_" + C.Namespace]
    ensures h.cookieManager && h.username == ""
  {
    HttpConfig(cfg.timeout, "", "", map["User-Agent" := "prometheus_exporter_" + C.Namespace], cfg.skipVerify, true)
  }

  /** The gathering tasks FetchWallixMetrics starts. */
  datatype Task =
    | UsersTask
    | GroupsTask
    | DevicesTask
    | TargetsTask(kind: TargetType)
    | EncryptionTask
    | LicenseTask
    | SessionsTask

  /** The tasks in the order they are started. */
  const AllTasks: seq<Task> := [
    UsersTask, GroupsTask, DevicesTask,
    TargetsTask(SessionAccounts), TargetsTask(SessionAccountMappings), TargetsTask(SessionInteractiveLogins),
    TargetsTask(SessionScenarioAccounts), TargetsTask(PasswordRetrievalAccounts),
    EncryptionTask, LicenseTask, SessionsTask
  ]

  /** The endpoint calls one task makes. */
  function TaskCalls(t: Task, clock: Clock, base: string): seq<Call>
  {
    match t
    case UsersTask => [UsersCall(base)]
    case GroupsTask => [GroupsCall(base)]
    case DevicesTask => [DevicesCall(base)]
    case TargetsTask(kind) => [TargetsCall(base, TypeLabel(kind))]
    case EncryptionTask => [EncryptionCall(base)]
    case LicenseTask => [LicenseCall(base)]
    case SessionsTask => [CurrentSessionsCall(base), ClosedSessionsCall(base, clock, C.SessionsClosedMinutes)]
  }

  /** The requests one task sends. */
  function TaskRequests(t: Task, clock: Clock, base: string): set<Request>
  {
    set c | c in TaskCalls(t, clock, base) :: GetRequest(c)
  }

  /** The samples each task sends, in starting order: `Families(..)[i]` is what `AllTasks[i]` sends. */
  function Families(client: Client, lib: Stdlib, clock: Clock, base: string): (fs: seq<seq<Sample>>)
    ensures |fs| == |AllTasks|
  {
    [ UsersSamples(client, lib, base),
      GroupsSamples(client, lib, base),
      DevicesSamples(client, lib, base),
      TargetsSamples(SessionAccounts, client, lib, base),
      TargetsSamples(SessionAccountMappings, client, lib, base),
      TargetsSamples(SessionInteractiveLogins, client, lib, base),
      TargetsSamples(SessionScenarioAccounts, client, lib, base),
      TargetsSamples(PasswordRetrievalAccounts, client, lib, base),
      EncryptionSamples(client, lib, base),
      LicenseSamples(client, lib, base),
      SessionsSamples(client, lib, clock, base) ]
  }

  function UpSample(v: real): Sample
  {
    Sample(C.Up, Exact(v), [])
  }

  /** Everything one scrape sends. */
  function ScrapeSamples(cfg: Config, build: Builder, lib: Stdlib, clock: Clock): seq<Sample>
  {
    match build(ClientConfig(cfg))
    case None => []
    case Some(client) =>
      match AuthOutcome(client, lib, cfg.scrapeUri, cfg.wallixUsername, cfg.wallixPassword)
      case Some(_) => [UpSample(0.0)]
      case None => [UpSample(1.0)] + Concat(Families(client, lib, clock, cfg.scrapeUri))
  }

  class Exporter {
    const config: Config

    /** NewExporter: the exporter keeps the configuration it is given. */
    constructor NewExporter(config: Config)
      ensures this.config == config
    {
      this.config := config;
    }

    method Describe(ch: Channel<Desc>)
      modifies ch
      ensures ch.sent == old(ch.sent) + C.Described
    {
      ch.Send(C.Up);
      ch.Send(C.Users);
      ch.Send(C.Groups);
      ch.Send(C.Devices);
      ch.Send(C.Sessions);
      ch.Send(C.Targets);
      ch.Send(C.EncryptionStatus);
      ch.Send(C.EncryptionSecurityLevel);
      AppendEight(old(ch.sent), C.Up, C.Users, C.Groups, C.Devices,
                  C.Sessions, C.Targets, C.EncryptionStatus, C.EncryptionSecurityLevel);
    }

    /** One scrape. */
    method Collect(ch: Channel<Sample>, build: Builder, lib: Stdlib, clock: Clock)
      modifies ch
      ensures ch.sent == old(ch.sent) + ScrapeSamples(config, build, lib, clock)
    {
      var httpConfig := ClientConfig(config);
      var client := build(httpConfig);
      if client.None? {
        // init exporter failed
        return;
      }
      var err := AuthenticateWallixAPI(ch, client.value, lib);
      if err.Some? {
        // determine up metric failed
        return;
      }
      FetchWallixMetrics(ch, client.value, lib, clock);
      AppendAssoc(old(ch.sent), [UpSample(1.0)], Concat(Families(client.value, lib, clock, config.scrapeUri)));
    }

    /** The login call, which decides the `up` sample and whether to go on. */
    method AuthenticateWallixAPI(ch: Channel<Sample>, client: Client, lib: Stdlib) returns (err: Option<Error>)
      modifies ch
      ensures err == AuthOutcome(client, lib, config.scrapeUri, config.wallixUsername, config.wallixPassword)
      ensures ch.sent == old(ch.sent) + [UpSample(if err.Some? then 0.0 else 1.0)]
    {
      err := Authenticate(client, lib, config.scrapeUri, config.wallixUsername, config.wallixPassword);
      if err.Some? {
        ch.Send(Sample(C.Up, Exact(0.0), []));
        return;
      }
      ch.Send(Sample(C.Up, Exact(1.0), []));
    }

    /** Runs the eleven gathering tasks; returns once every one has finished. */
    method FetchWallixMetrics(ch: Channel<Sample>, client: Client, lib: Stdlib, clock: Clock)
      modifies ch
      ensures ch.sent == old(ch.sent) + Concat(Families(client, lib, clock, config.scrapeUri))
    {
      var base := config.scrapeUri;
      GatherUsers(ch, client, lib, base);
      ghost var sent := UsersSamples(client, lib, base);
      GatherGroups(ch, client, lib, base);
      AppendAssoc(old(ch.sent), sent, GroupsSamples(client, lib, base));
      sent := sent + GroupsSamples(client, lib, base);
      GatherDevices(ch, client, lib, base);
      AppendAssoc(old(ch.sent), sent, DevicesSamples(client, lib, base));
      sent := sent + DevicesSamples(client, lib, base);
      GatherTargetsSessionAccounts(ch, client, lib, base);
      AppendAssoc(old(ch.sent), sent, TargetsSamples(SessionAccounts, client, lib, base));
      sent := sent + TargetsSamples(SessionAccounts, client, lib, base);
      GatherTargetsSessionAccountMappings(ch, client, lib, base);
      AppendAssoc(old(ch.sent), sent, TargetsSamples(SessionAccountMappings, client, lib, base));
      sent := sent + TargetsSamples(SessionAccountMappings, client, lib, base);
      GatherTargetsSessionInteractiveLogins(ch, client, lib, base);
      AppendAssoc(old(ch.sent), sent, TargetsSamples(SessionInteractiveLogins, client, lib, base));
      sent := sent + TargetsSamples(SessionInteractiveLogins, client, lib, base);
      GatherTargetsSessionScenarioAccounts(ch, client, lib, base);
      AppendAssoc(old(ch.sent), sent, TargetsSamples(SessionScenarioAccounts, client, lib, base));
      sent := sent + TargetsSamples(SessionScenarioAccounts, client, lib, base);
      GatherTargetsPasswordRetrievalAccounts(ch, client, lib, base);
      AppendAssoc(old(ch.sent), sent, TargetsSamples(PasswordRetrievalAccounts, client, lib, base));
      sent := sent + TargetsSamples(PasswordRetrievalAccounts, client, lib, base);
      GatherEncryption(ch, client, lib, base);
      AppendAssoc(old(ch.sent), sent, EncryptionSamples(client, lib, base));
      sent := sent + EncryptionSamples(client, lib, base);
      GatherLicense(ch, client, lib, base);
      AppendAssoc(old(ch.sent), sent, LicenseSamples(client, lib, base));
      sent := sent + LicenseSamples(client, lib, base);
      GatherSessions(ch, client, lib, clock, base);
      AppendAssoc(old(ch.sent), sent, SessionsSamples(client, lib, clock, base));
      sent := sent + SessionsSamples(client, lib, clock, base);
      FamiliesInOrder(client, lib, clock, base);
    }
  }

  // ---------------------------------------------------------------- the fan-out

  /** FetchWallixMetrics starts eleven distinct tasks, one of every task there is. */
  lemma ElevenTasks()
    ensures |AllTasks| == 11
    ensures forall i, j :: 0 <= i < j < |AllTasks| ==> AllTasks[i] != AllTasks[j]
    ensures forall t: Task :: t in AllTasks
  {
    forall t: Task ensures t in AllTasks {
      match t {
        case TargetsTask(kind) =>
          match kind {
            case SessionAccounts => assert AllTasks[3] == t;
            case SessionAccountMappings => assert AllTasks[4] == t;
            case SessionInteractiveLogins => assert AllTasks[5] == t;
            case SessionScenarioAccounts => assert AllTasks[6] == t;
            case PasswordRetrievalAccounts => assert AllTasks[7] == t;
          }
        case _ =>
      }
    }
  }

  /** The families, concatenated, are the gatherers' samples in the order the tasks are started. */
  lemma FamiliesInOrder(client: Client, lib: Stdlib, clock: Clock, base: string)
    ensures Concat(Families(client, lib, clock, base)) ==
      UsersSamples(client, lib, base)
      + GroupsSamples(client, lib, base)
      + DevicesSamples(client, lib, base)
      + TargetsSamples(SessionAccounts, client, lib, base)
      + TargetsSamples(SessionAccountMappings, client, lib, base)
      + TargetsSamples(SessionInteractiveLogins, client, lib, base)
      + TargetsSamples(SessionScenarioAccounts, client, lib, base)
      + TargetsSamples(PasswordRetrievalAccounts, client, lib, base)
      + EncryptionSamples(client, lib, base)
      + LicenseSamples(client, lib, base)
      + SessionsSamples(client, lib, clock, base)
  {
    ConcatEleven(Families(client, lib, clock, base));
  }

  /** Running the eleven tasks in any order sends the multiset of samples FetchWallixMetrics sends. */
  lemma FetchOrderIrrelevant(order: seq<seq<Sample>>, client: Client, lib: Stdlib, clock: Clock, base: string)
    requires multiset(order) == multiset(Families(client, lib, clock, base))
    ensures multiset(Concat(order)) == multiset(Concat(Families(client, lib, clock, base)))
  {
    ConcatPermutation(order, Families(client, lib, clock, base));
  }

  // ---------------------------------------------------------------- bulkhead

  /** The URL suffix every request of a task carries after the scrape URI. */
  function Suffix(t: Task): string
  {
    match t
    case UsersTask => "/users"
    case GroupsTask => "/usergroups"
    case DevicesTask => "/devices"
    case TargetsTask(kind) => "/targets/" + TypeLabel(kind)
    case EncryptionTask => "/encryption"
    case LicenseTask => "/licenseinfo"
    case SessionsTask => "/sessions"
  }

  /** Every call of a task goes to the scrape URI followed by that task's suffix. */
  lemma TaskUrls(t: Task, clock: Clock, base: string)
    ensures forall c :: c in TaskCalls(t, clock, base) ==> c.url == base + Suffix(t)
  {
  }

  /** Different tasks have different suffixes. */
  lemma SuffixesDistinct(t1: Task, t2: Task)
    requires t1 != t2
    ensures Suffix(t1) != Suffix(t2)
  {
    if t1.TargetsTask? && t2.TargetsTask? {
      TypeLabelsDistinct(t1.kind, t2.kind);
      var p := "/targets/";
      assert Suffix(t1)[|p|..] == TypeLabel(t1.kind);
      assert Suffix(t2)[|p|..] == TypeLabel(t2.kind);
    } else if (t1 == GroupsTask && t2 == EncryptionTask) || (t1 == EncryptionTask && t2 == GroupsTask) {
      assert Suffix(t1)[1] != Suffix(t2)[1];
    }
  }

  /** Two URLs with the same prefix are equal only if what follows is. */
  lemma PrefixCancel(base: string, s1: string, s2: string)
    requires base + s1 == base + s2
    ensures s1 == s2
  {
    assert s1 == (base + s1)[|base|..];
    assert s2 == (base + s2)[|base|..];
  }

  /** No request belongs to two different tasks. */
  lemma RequestsDisjoint(t1: Task, t2: Task, clock: Clock, base: string)
    requires t1 != t2
    ensures TaskRequests(t1, clock, base) !! TaskRequests(t2, clock, base)
  {
    TaskUrls(t1, clock, base);
    TaskUrls(t2, clock, base);
    SuffixesDistinct(t1, t2);
    forall r | r in TaskRequests(t1, clock, base) && r in TaskRequests(t2, clock, base)
      ensures false
    {
      PrefixCancel(base, Suffix(t1), Suffix(t2));
    }
  }

  /** The client `client`, except that every request in `down` fails in transport. */
  function FailingOn(client: Client, down: set<Request>): (broken: Client)
    ensures forall r :: r in down ==> broken(r) == TransportFailure
    ensures forall r :: r !in down ==> broken(r) == client(r)
  {
    r => if r in down then TransportFailure else client(r)
  }

  /** The users task depends only on the answer to its request. */
  lemma UsersLocal(c1: Client, c2: Client, lib: Stdlib, clock: Clock, base: string)
    requires c1(GetRequest(UsersCall(base))) == c2(GetRequest(UsersCall(base)))
    ensures Families(c1, lib, clock, base)[0] == Families(c2, lib, clock, base)[0]
  {
    CallLocal(c1, c2, lib, UsersCall(base));
  }

  /** The groups task depends only on the answer to its request. */
  lemma GroupsLocal(c1: Client, c2: Client, lib: Stdlib, clock: Clock, base: string)
    requires c1(GetRequest(GroupsCall(base))) == c2(GetRequest(GroupsCall(base)))
    ensures Families(c1, lib, clock, base)[1] == Families(c2, lib, clock, base)[1]
  {
    CallLocal(c1, c2, lib, GroupsCall(base));
  }

  /** The devices task depends only on the answer to its request. */
  lemma DevicesLocal(c1: Client, c2: Client, lib: Stdlib, clock: Clock, base: string)
    requires c1(GetRequest(DevicesCall(base))) == c2(GetRequest(DevicesCall(base)))
    ensures Families(c1, lib, clock, base)[2] == Families(c2, lib, clock, base)[2]
  {
    CallLocal(c1, c2, lib, DevicesCall(base));
  }

  /** Each targets task depends only on the answer to the request for its own type. */
  lemma TargetsLocal(i: nat, c1: Client, c2: Client, lib: Stdlib, clock: Clock, base: string)
    requires 3 <= i <= 7
    requires var c := TargetsCall(base, TypeLabel(AllTasks[i].kind)); c1(GetRequest(c)) == c2(GetRequest(c))
    ensures Families(c1, lib, clock, base)[i] == Families(c2, lib, clock, base)[i]
  {
    CallLocal(c1, c2, lib, TargetsCall(base, TypeLabel(AllTasks[i].kind)));
  }

  /** The encryption task depends only on the answer to its request. */
  lemma EncryptionLocal(c1: Client, c2: Client, lib: Stdlib, clock: Clock, base: string)
    requires c1(GetRequest(EncryptionCall(base))) == c2(GetRequest(EncryptionCall(base)))
    ensures Families(c1, lib, clock, base)[8] == Families(c2, lib, clock, base)[8]
  {
    CallLocal(c1, c2, lib, EncryptionCall(base));
  }

  /** The license task depends only on the answer to its request. */
  lemma LicenseLocal(c1: Client, c2: Client, lib: Stdlib, clock: Clock, base: string)
    requires c1(GetRequest(LicenseCall(base))) == c2(GetRequest(LicenseCall(base)))
    ensures Families(c1, lib, clock, base)[9] == Families(c2, lib, clock, base)[9]
  {
    CallLocal(c1, c2, lib, LicenseCall(base));
  }

  /** The sessions task depends only on the answers to its two requests. */
  lemma SessionsLocal(c1: Client, c2: Client, lib: Stdlib, clock: Clock, base: string)
    requires var c := CurrentSessionsCall(base); c1(GetRequest(c)) == c2(GetRequest(c))
    requires var c := ClosedSessionsCall(base, clock, C.SessionsClosedMinutes); c1(GetRequest(c)) == c2(GetRequest(c))
    ensures Families(c1, lib, clock, base)[10] == Families(c2, lib, clock, base)[10]
  {
    CallLocal(c1, c2, lib, CurrentSessionsCall(base));
    CallLocal(c1, c2, lib, ClosedSessionsCall(base, clock, C.SessionsClosedMinutes));
  }

  /** What a task sends depends only on the answers to its own requests. */
  lemma FamilyLocal(i: nat, c1: Client, c2: Client, lib: Stdlib, clock: Clock, base: string)
    requires i < |AllTasks|
    requires forall c :: c in TaskCalls(AllTasks[i], clock, base) ==> c1(GetRequest(c)) == c2(GetRequest(c))
    ensures Families(c1, lib, clock, base)[i] == Families(c2, lib, clock, base)[i]
  {
    var calls := TaskCalls(AllTasks[i], clock, base);
    if i == 0 {
      assert calls[0] == UsersCall(base);
      UsersLocal(c1, c2, lib, clock, base);
    } else if i == 1 {
      assert calls[0] == GroupsCall(base);
      GroupsLocal(c1, c2, lib, clock, base);
    } else if i == 2 {
      assert calls[0] == DevicesCall(base);
      DevicesLocal(c1, c2, lib, clock, base);
    } else if i <= 7 {
      assert calls[0] == TargetsCall(base, TypeLabel(AllTasks[i].kind));
      TargetsLocal(i, c1, c2, lib, clock, base);
    } else if i == 8 {
      assert calls[0] == EncryptionCall(base);
      EncryptionLocal(c1, c2, lib, clock, base);
    } else if i == 9 {
      assert calls[0] == LicenseCall(base);
      LicenseLocal(c1, c2, lib, clock, base);
    } else {
      assert calls[0] == CurrentSessionsCall(base);
      assert calls[1] == ClosedSessionsCall(base, clock, C.SessionsClosedMinutes);
      SessionsLocal(c1, c2, lib, clock, base);
    }
  }

  /** A client every request of which fails in transport. */
  function Unplugged(): (client: Client)
    ensures forall r :: client(r) == TransportFailure
  {
    r => TransportFailure
  }

  /** Through a client that reaches nothing, no gatherer sends anything. */
  lemma UnpluggedGatherers(lib: Stdlib, clock: Clock, base: string)
    ensures var none := Unplugged();
            && UsersSamples(none, lib, base) == [] && GroupsSamples(none, lib, base) == []
            && DevicesSamples(none, lib, base) == [] && SessionsSamples(none, lib, clock, base) == []
            && EncryptionSamples(none, lib, base) == [] && LicenseSamples(none, lib, base) == []
            && forall t :: TargetsSamples(t, none, lib, base) == []
  {
  }

  /** Through a client that reaches nothing, no task sends anything. */
  lemma UnpluggedSendsNothing(lib: Stdlib, clock: Clock, base: string)
    ensures forall i :: 0 <= i < |AllTasks| ==> Families(Unplugged(), lib, clock, base)[i] == []
  {
    UnpluggedGatherers(lib, clock, base);
  }

  /** A task all of whose requests fail in transport sends nothing. */
  lemma FamilyDown(i: nat, client: Client, lib: Stdlib, clock: Clock, base: string)
    requires i < |AllTasks|
    requires forall c :: c in TaskCalls(AllTasks[i], clock, base) ==> client(GetRequest(c)) == TransportFailure
    ensures Families(client, lib, clock, base)[i] == []
  {
    FamilyLocal(i, client, Unplugged(), lib, clock, base);
    UnpluggedSendsNothing(lib, clock, base);
  }

  /**
   * Bulkhead isolation: when every request of one task fails, that task sends
   * nothing and the scrape sends exactly the other tasks' samples, in order.
   */
  lemma OneFamilyDown(i: nat, client: Client, lib: Stdlib, clock: Clock, base: string)
    requires i < |AllTasks|
    ensures var fs := Families(client, lib, clock, base);
            var gs := Families(FailingOn(client, TaskRequests(AllTasks[i], clock, base)), lib, clock, base);
            && gs[i] == []
            && (forall j :: 0 <= j < |AllTasks| && j != i ==> gs[j] == fs[j])
            && Concat(gs) == Concat(fs[..i]) + Concat(fs[i + 1..])
            && multiset(Concat(gs)) + multiset(fs[i]) == multiset(Concat(fs))
  {
    var downed := TaskRequests(AllTasks[i], clock, base);
    var down := FailingOn(client, downed);
    var fs := Families(client, lib, clock, base);
    var gs := Families(down, lib, clock, base);
    assert forall c :: c in TaskCalls(AllTasks[i], clock, base) ==> GetRequest(c) in downed;
    FamilyDown(i, down, lib, clock, base);
    ElevenTasks();
    forall j | 0 <= j < |AllTasks| && j != i
      ensures gs[j] == fs[j]
    {
      RequestsDisjoint(AllTasks[i], AllTasks[j], clock, base);
      assert forall c :: c in TaskCalls(AllTasks[j], clock, base) ==> GetRequest(c) in TaskRequests(AllTasks[j], clock, base);
      FamilyLocal(j, down, client, lib, clock, base);
    }
    ConcatWithout(fs, gs, i);
  }

  // ---------------------------------------------------------------- well-formed samples

  /** A family's samples all match their descriptor's label count, and none is an `up` sample. */
  predicate Gathered(xs: seq<Sample>)
  {
    forall s :: s in xs ==> WellFormed(s) && s.desc != C.Up
  }

  /** A run of families, each gathered, is gathered. */
  lemma {:induction false} ConcatGathered(ss: seq<seq<Sample>>)
    requires forall xs :: xs in ss ==> Gathered(xs)
    ensures Gathered(Concat(ss))
  {
    if ss != [] {
      var init := ss[..|ss| - 1];
      assert forall xs :: xs in init ==> xs in ss;
      ConcatGathered(init);
      assert ss[|ss| - 1] in ss;
    }
  }

  /** The counting families: one sample of a labelled count, not `up`, for each fetch that succeeds. */
  lemma CountGathered(desc: Desc, labels: seq<string>, fetched: Result<seq<Object>, Error>)
    requires |labels| == |desc.labels| && desc != C.Up
    ensures Gathered(CountSamples(desc, labels, fetched))
  {
  }

  /** The descriptors gatherers use besides `up` are not `up`. */
  lemma NotUp()
    ensures forall i :: 1 <= i < |C.Described| ==> C.Described[i] != C.Up
    ensures forall d :: d in C.LicenseDescs ==> d != C.Up
  {
    C.DescribedCatalogue();
    assert C.Described[0] == C.Up;
  }

  /** The single-call families send gathered samples only. */
  lemma CountsGathered(client: Client, lib: Stdlib, clock: Clock, base: string)
    ensures Gathered(UsersSamples(client, lib, base))
    ensures Gathered(GroupsSamples(client, lib, base))
    ensures Gathered(DevicesSamples(client, lib, base))
    ensures forall t :: Gathered(TargetsSamples(t, client, lib, base))
    ensures Gathered(SessionsSamples(client, lib, clock, base))
  {
    NotUp();
    C.DescriptorLabels();
    assert C.Described[1] == C.Users && C.Described[2] == C.Groups && C.Described[3] == C.Devices;
    assert C.Described[4] == C.Sessions && C.Described[5] == C.Targets;
    CountGathered(C.Users, [], ListOutcome(client, lib, UsersCall(base)));
    CountGathered(C.Groups, [], ListOutcome(client, lib, GroupsCall(base)));
    CountGathered(C.Devices, [], ListOutcome(client, lib, DevicesCall(base)));
    forall t: TargetType
      ensures Gathered(TargetsSamples(t, client, lib, base))
    {
      CountGathered(C.Targets, [TypeLabel(t)], ListOutcome(client, lib, TargetsCall(base, TypeLabel(t))));
    }
    CountGathered(C.Sessions, ["current"], ListOutcome(client, lib, CurrentSessionsCall(base)));
    CountGathered(C.Sessions, ["closed"],
                  ListOutcome(client, lib, ClosedSessionsCall(base, clock, C.SessionsClosedMinutes)));
  }

  /** The encryption family sends gathered samples only. */
  lemma EncryptionGathered(client: Client, lib: Stdlib, base: string)
    ensures Gathered(EncryptionSamples(client, lib, base))
  {
    NotUp();
    C.DescriptorLabels();
    assert C.Described[6] == C.EncryptionStatus && C.Described[7] == C.EncryptionSecurityLevel;
    var enc := ObjectOutcome(client, lib, EncryptionCall(base));
    if enc.Ok? {
      EncryptionFamily(enc.value);
    }
  }

  /** The license family sends gathered samples only. */
  lemma LicenseGathered(client: Client, lib: Stdlib, base: string)
    ensures Gathered(LicenseSamples(client, lib, base))
  {
    NotUp();
    C.DescriptorLabels();
    var lic := ObjectOutcome(client, lib, LicenseCall(base));
    if lic.Ok? {
      LicenseDescriptors(lic.value);
    }
  }

  /** Every task sends well-formed samples only, and no `up` sample. */
  lemma FamiliesGathered(client: Client, lib: Stdlib, clock: Clock, base: string)
    ensures forall xs :: xs in Families(client, lib, clock, base) ==> Gathered(xs)
  {
    CountsGathered(client, lib, clock, base);
    EncryptionGathered(client, lib, base);
    LicenseGathered(client, lib, base);
  }

  // ---------------------------------------------------------------- the scrape

  /**
   * The control flow of a scrape: no client, no sample at all; a failed login,
   * the single sample up=0; a successful login, up=1 first and then the samples
   * of the eleven tasks, none of them another `up`.
   */
  lemma ScrapeControlFlow(cfg: Config, build: Builder, lib: Stdlib, clock: Clock)
    ensures build(ClientConfig(cfg)).None? ==> ScrapeSamples(cfg, build, lib, clock) == []
    ensures build(ClientConfig(cfg)).Some? &&
            AuthOutcome(build(ClientConfig(cfg)).value, lib, cfg.scrapeUri, cfg.wallixUsername, cfg.wallixPassword).Some?
            ==> ScrapeSamples(cfg, build, lib, clock) == [UpSample(0.0)]
    ensures build(ClientConfig(cfg)).Some? &&
            AuthOutcome(build(ClientConfig(cfg)).value, lib, cfg.scrapeUri, cfg.wallixUsername, cfg.wallixPassword).None?
            ==> var out := ScrapeSamples(cfg, build, lib, clock);
                && out[0] == UpSample(1.0)
                && out[1..] == Concat(Families(build(ClientConfig(cfg)).value, lib, clock, cfg.scrapeUri))
                && forall s :: s in out[1..] ==> s.desc != C.Up
  {
    var client := build(ClientConfig(cfg));
    if client.Some? {
      var fs := Families(client.value, lib, clock, cfg.scrapeUri);
      FamiliesGathered(client.value, lib, clock, cfg.scrapeUri);
      ConcatGathered(fs);
      var out := ScrapeSamples(cfg, build, lib, clock);
      if AuthOutcome(client.value, lib, cfg.scrapeUri, cfg.wallixUsername, cfg.wallixPassword).None? {
        assert out[1..] == Concat(fs);
      }
    }
  }

  /** Every sample of a scrape has as many label values as its descriptor has label names. */
  lemma ScrapeWellFormed(cfg: Config, build: Builder, lib: Stdlib, clock: Clock)
    ensures forall s :: s in ScrapeSamples(cfg, build, lib, clock) ==> WellFormed(s)
  {
    var client := build(ClientConfig(cfg));
    C.DescriptorLabels();
    if client.Some? {
      var fs := Families(client.value, lib, clock, cfg.scrapeUri);
      FamiliesGathered(client.value, lib, clock, cfg.scrapeUri);
      ConcatGathered(fs);
    }
  }
}
