/**
 One cache, two modules: what the adapter knows natively and what the administrative service
 takes for the adapter's cache. A discovery fills both alike, so that a candidate the service
 passes to the adapter is never refused as obsolete.
 */
module DiscoveryCaches {
  import opened Basics
  import opened ServiceState
  import opened ServiceSteps
  import opened Administration
  import opened AdministrationRuns
  import opened Adapters

  /** A discovered device as the service sees it. */
  function CandidateOf(d: Discovered): Candidate {
    Candidate(d.id, d.name, d.identity)
  }

  function Offered(found: seq<Discovered>): (r: seq<Candidate>)
    ensures |r| == |found|
  {
    seq(|found|, i requires 0 <= i < |found| => CandidateOf(found[i]))
  }

  /** Both caches hold the devices of one discovery, all of them of the supported model. */
  ghost predicate Shares(natives: map<nat, nat>, known: Cache, found: seq<Discovered>) {
    && Knows(natives, found)
    && known == ById(Offered(found))
    && forall i :: 0 <= i < |found| ==> found[i].model == MODEL
  }

  lemma OfferedIds(natives: map<nat, nat>, found: seq<Discovered>)
    requires Knows(natives, found)
    ensures UniqueIds(Offered(found))
  {
    var list := Offered(found);
    forall i, j | 0 <= i < |list| && 0 <= j < |list| && list[i].id == list[j].id
      ensures list[i] == list[j]
    {
      assert found[i].id == found[j].id;
    }
  }

  /** The two caches know the same identifiers, and every known candidate is a discovered device. */
  lemma SameIdentifiers(natives: map<nat, nat>, known: Cache, found: seq<Discovered>)
    requires Shares(natives, known, found)
    ensures known.Keys == natives.Keys
    ensures forall id :: id in known ==> exists d :: d in found && CandidateOf(d) == known[id] && natives[id] == d.native
  {
    var list := Offered(found);
    ByIdHolds(list);
    forall id | id in natives ensures id in known {
      var i :| 0 <= i < |found| && found[i].id == id;
      assert list[i].id in ById(list);
    }
    forall id | id in known
      ensures id in natives && exists d :: d in found && CandidateOf(d) == known[id] && natives[id] == d.native
    {
      var i :| 0 <= i < |list| && list[i] == known[id];
      assert found[i] in found && CandidateOf(found[i]) == known[id];
    }
  }

  /** A scan of the service is a discovery of the adapter, and leaves the two caches shared. */
  method ScanWithAdapter(s: AdministrationService, a: BleakAdapter, t: TaskId, results: seq<Advertisement>, ids: seq<nat>)
    returns (found: seq<Discovered>)
    requires s.Valid() && Live(s.tasks, t) && s.tasks[t].pc.Scanning? && a.Valid()
    requires |ids| == |results| && Distinct(ids) && forall i :: 0 <= i < |ids| ==> ids[i] !in s.issued
    modifies s, a`natives
    ensures s.Valid() && a.Valid() && s.tasks == Moved(old(s.tasks), t, Found(Offered(found)))
    ensures Shares(a.natives, s.known, found)
  {
    hide AdministrationService.Valid, BleakAdapter.Valid, Knows, FoundIn, ById, Moved, NewIds;
    found := a.Discover(results, ids);
    NewlyIssued(s.issued, results, ids, a.namePrefix, a.natives);
    s.ScanReturns(t, Offered(found));
  }

  /** Identifiers are made afresh for each discovery, so the service has never seen them. */
  lemma NewlyIssued(issued: Cache, results: seq<Advertisement>, ids: seq<nat>, prefix: string, natives: map<nat, nat>)
    requires |ids| == |results| && Knows(natives, FoundIn(results, ids, prefix))
    requires forall i :: 0 <= i < |ids| ==> ids[i] !in issued
    ensures NewIds(issued, Offered(FoundIn(results, ids, prefix)))
  {
    OfferedIds(natives, FoundIn(results, ids, prefix));
    IdsOfFound(results, ids, prefix);
  }

  /** So is a discovery for an operation. */
  method ResolveWithAdapter(s: AdministrationService, a: BleakAdapter, t: TaskId, results: seq<Advertisement>, ids: seq<nat>)
    returns (found: seq<Discovered>)
    requires s.Valid() && Live(s.tasks, t) && s.tasks[t].pc.Resolving? && a.Valid()
    requires |ids| == |results| && Distinct(ids) && forall i :: 0 <= i < |ids| ==> ids[i] !in s.issued
    modifies s, a`natives
    ensures s.Valid() && a.Valid()
    ensures s.tasks == Moved(old(s.tasks), t, Resolved(old(s.tasks)[t].pc.w, Offered(found), old(s.tasks)[t].pc.again))
    ensures Shares(a.natives, s.known, found)
  {
    hide AdministrationService.Valid, BleakAdapter.Valid, Knows, FoundIn, ById, Moved, NewIds;
    found := a.Discover(results, ids);
    NewlyIssued(s.issued, results, ids, a.namePrefix, a.natives);
    s.DiscoveryReturns(t, Offered(found));
  }

  /** A chosen candidate is a device of the discovery that both caches hold. */
  lemma ChosenWasFound(s: AdministrationService, natives: map<nat, nat>, found: seq<Discovered>, t: TaskId)
    requires s.Valid() && Shares(natives, s.known, found) && t in s.tasks && s.tasks[t].pc.Chosen?
    ensures exists d :: d in found && CandidateOf(d) == s.tasks[t].pc.chosen
  {
    SameIdentifiers(natives, s.known, found);
    assert s.lock == Some(t);
    assert s.tasks[t].pc.chosen.id in s.known;
  }

  /** Whoever is chosen for a connection, obsolete or not in the service's eyes, the adapter does not refuse it. */
  method ConnectChosen(s: AdministrationService, a: BleakAdapter, t: TaskId, d: Discovered, succeeds: bool, clock: real,
                       ghost found: seq<Discovered>)
    returns (r: Result<bool, AdapterError>)
    requires s.Valid() && a.Valid() && Shares(a.natives, s.known, found)
    requires t in s.tasks && s.tasks[t].pc.Chosen? && d in found && CandidateOf(d) == s.tasks[t].pc.chosen
    modifies a
    ensures a.Valid() && a.natives == old(a.natives)
    ensures r != Err(Unsupported)
    ensures !old(a.IsConnected()) ==> r == if succeeds then Ok(true) else Err(ConnectFailed)
  {
    hide s.Valid, ById;
    r := a.Connect(d.id, d.model, succeeds, clock);
  }

  // ---------- Service and adapter together ----------

  /**
   One step of the service and its adapter. Whatever else either does, the adapter's cache is
   refilled only as the service's discoveries return, and a connection is tried only for the
   candidate that a task of the service has chosen.
   */
  datatype JointChoice =
    | Serve(choice: Choice)
    | ScanFinds(task: TaskId, results: seq<Advertisement>, ids: seq<nat>)
    | OperationFinds(task: TaskId, results: seq<Advertisement>, ids: seq<nat>)
    | TryConnect(task: TaskId, succeeds: bool, clock: real)
    | Release
    | DropLink(noticed: bool)

  /** What the adapter decides by itself, here by what it is made to find or to answer. */
  predicate LeftToAdapter(tasks: Tasks, c: Choice) {
    || Discovers(c)
    || (c.AdapterAnswers? && c.task in tasks && tasks[c.task].pc.Chosen?)
    || (c.AdapterRaises? && c.task in tasks && tasks[c.task].pc.Chosen?)
  }

  predicate FreshIds(issued: Cache, ids: seq<nat>) {
    Distinct(ids) && forall i :: 0 <= i < |ids| ==> ids[i] !in issued
  }

  /** Passes the chosen candidate to the adapter, and the answer to the service. */
  method ConnectAndGoOn(s: AdministrationService, a: BleakAdapter, t: TaskId, succeeds: bool, clock: real,
                        found: seq<Discovered>)
    returns (r: Result<bool, AdapterError>)
    requires s.Valid() && a.Valid() && Shares(a.natives, s.known, found)
    requires Live(s.tasks, t) && s.tasks[t].pc.Chosen?
    modifies s, a
    ensures s.Valid() && a.Valid() && Shares(a.natives, s.known, found)
    ensures r != Err(Unsupported)
    ensures r.Ok? ==> s.tasks == Moved(old(s.tasks), t, Onward(old(s.tasks)[t].pc))
    ensures r.Err? ==> t in s.tasks && s.tasks[t].pc in {Asleep, Ended}
  {
    hide AdministrationService.Valid, BleakAdapter.Valid, Shares, OpsMove, WithStatus, OpOf, Failing, Retrying, CandidateOf;
    ChosenWasFound(s, a.natives, found, t);
    var d :| d in found && CandidateOf(d) == s.tasks[t].pc.chosen;
    r := ConnectChosen(s, a, t, d, succeeds, clock, found);
    if r.Ok? {
      s.GoesOn(t);
    } else {
      s.StepRaises(t);
    }
  }

  /** A step keeps the caches shared; there is an answer of the adapter exactly if a connection was tried. */
  method TakeJointly(s: AdministrationService, a: BleakAdapter, c: JointChoice, found: seq<Discovered>)
    returns (last: seq<Discovered>, answer: Option<Result<bool, AdapterError>>)
    requires s.Valid() && a.Valid() && Shares(a.natives, s.known, found)
    modifies s, a
    ensures s.Valid() && a.Valid() && Shares(a.natives, s.known, last)
    ensures answer != Some(Err(Unsupported))
    ensures answer.Some? <==> c.TryConnect? && old(Live(s.tasks, c.task) && s.tasks[c.task].pc.Chosen?)
  {
    hide AdministrationService.Valid, Shares, LeftToAdapter;
    last, answer := found, None;
    match c
    case Serve(choice) =>
      if !LeftToAdapter(s.tasks, choice) {
        OthersDiscoverNothing(s.tasks, choice);
        Take(s, choice);
      }
    case ScanFinds(t, results, ids) =>
      if Live(s.tasks, t) && s.tasks[t].pc.Scanning? && |ids| == |results| && FreshIds(s.issued, ids) {
        last := ScanWithAdapter(s, a, t, results, ids);
      }
    case OperationFinds(t, results, ids) =>
      if Live(s.tasks, t) && s.tasks[t].pc.Resolving? && |ids| == |results| && FreshIds(s.issued, ids) {
        last := ResolveWithAdapter(s, a, t, results, ids);
      }
    case TryConnect(t, succeeds, clock) =>
      if Live(s.tasks, t) && s.tasks[t].pc.Chosen? {
        var r := ConnectAndGoOn(s, a, t, succeeds, clock, found);
        answer := Some(r);
      }
    case Release => a.Disconnect();
    case DropLink(noticed) => a.LinkLost(noticed);
  }

  lemma OthersDiscoverNothing(tasks: Tasks, c: Choice)
    requires !LeftToAdapter(tasks, c)
    ensures !Discovers(c)
  {
  }

  /** A run of service and adapter keeps the caches shared, and no connection is ever refused. */
  method RunJointly(s: AdministrationService, a: BleakAdapter, choices: seq<JointChoice>, found: seq<Discovered>)
    returns (last: seq<Discovered>, answers: seq<Option<Result<bool, AdapterError>>>)
    requires s.Valid() && a.Valid() && Shares(a.natives, s.known, found)
    modifies s, a
    ensures s.Valid() && a.Valid() && Shares(a.natives, s.known, last)
    ensures |answers| == |choices| && Some(Err(Unsupported)) !in answers
  {
    hide *;
    last, answers := found, [];
    for i := 0 to |choices|
      invariant s.Valid() && a.Valid() && Shares(a.natives, s.known, last)
      invariant |answers| == i && Some(Err(Unsupported)) !in answers
    {
      var answer;
      last, answer := TakeJointly(s, a, choices[i], last);
      answers := answers + [answer];
    }
  }

  /**
   From their making on and through any choices whatever, service and adapter hold the devices
   of one discovery, and the adapter never refuses what the service has it connect to.
   */
  method NothingRefused(rows: map<DeviceId, Row>, issued: Cache, left: map<OpId, Op>, nextTask: TaskId, nextOp: OpId,
                        order: seq<DeviceId>, namePrefix: string, batteryInterval: real, choices: seq<JointChoice>)
    returns (s: AdministrationService, a: BleakAdapter, last: seq<Discovered>,
             answers: seq<Option<Result<bool, AdapterError>>>)
    requires RegistryOk(rows, issued, false) && Within(issued, issued) && IdsOk(map[], left, nextTask, nextOp)
    requires batteryInterval > 0.0 && forall d :: d in order ==> d in rows
    ensures fresh(s) && fresh(a) && s.Valid() && a.Valid()
    ensures Shares(a.natives, s.known, last)
    ensures |answers| == |choices| && Some(Err(Unsupported)) !in answers
  {
    hide AdministrationService.Valid, RegistryOk, IdsOk, Within, FirstWanted, Interrupted;
    s := new AdministrationService(rows, issued, left, nextTask, nextOp);
    a := new BleakAdapter(namePrefix, batteryInterval);
    s.Start(order);
    last, answers := RunJointly(s, a, choices, []);
  }
}
