/** Arbitrary runs of the administrative service, and what holds at every point of them. */
module AdministrationRuns {
  import opened Basics
  import opened ServiceState
  import opened ServiceSteps
  import opened Administration

  /** One step of a run; adapter and scheduler choose freely, and what is not enabled is skipped. */
  datatype Choice =
    | RequestOperation(device: DeviceId, action: Action)
    | RequestScan(listed: set<OpId>)
    | RequestRegister(candidate: nat, device: DeviceId, auto: bool)
    | RequestSelect(device: DeviceId, candidate: nat)
    | RequestAuto(device: DeviceId, auto: bool)
    | TakeLock(task: TaskId)
    | BeginScan(task: TaskId)
    | EndScan(task: TaskId, list: seq<Candidate>)
    | RaiseScan(task: TaskId)
    | PublishFound(task: TaskId)
    | BeginOperation(task: TaskId, linkUp: bool)
    | SeeRecoveryEnd(task: TaskId, linkUp: bool)
    | SeePollEnd(task: TaskId)
    | AdapterAnswers(task: TaskId)
    | AdapterFinds(task: TaskId, list: seq<Candidate>)
    | AdapterRaises(task: TaskId)
    | AdapterReads(task: TaskId)
    | AdapterDisconnects(task: TaskId)
    | BeginRecovery(task: TaskId)
    | WakeRecovery(task: TaskId)
    | TurnPoll(task: TaskId)
    | EndRead(task: TaskId, handsOver: bool)
    | RaisePoll(task: TaskId)
    | Interrupt(task: TaskId)
    | CloseOn

  /** The choices in which a discovery of the adapter returns. */
  predicate Discovers(c: Choice) {
    c.EndScan? || c.AdapterFinds?
  }

  /** The task a choice is about. */
  function TaskOf(c: Choice): Option<TaskId> {
    match c
    case RequestOperation(_, _) => None
    case RequestScan(_) => None
    case RequestRegister(_, _, _) => None
    case RequestSelect(_, _) => None
    case RequestAuto(_, _) => None
    case CloseOn => None
    case _ => Some(c.task)
  }

  /** The task of a choice is where that choice can happen. */
  predicate Offered(tasks: Tasks, lock: Option<TaskId>, issued: Cache, c: Choice)
    requires TaskOf(c).Some? && c.task in tasks
  {
    var task := tasks[c.task];
    match c
    case TakeLock(_) =>
      && lock == None
      && (task.pc.WantsScan? || task.pc.WantsRead? || task.pc.WantsRelease? || task.pc.WantsDisconnect? || task.pc.WantsConnect?)
    case BeginScan(_) => (task.role.UserScan? && task.pc.Fresh?) || (task.role.Background? && task.pc == Asleep)
    case EndScan(_, list) => task.pc.Scanning? && NewIds(issued, list)
    case RaiseScan(_) => task.pc.Scanning?
    case PublishFound(_) => task.pc.Found? || task.pc.Resolved?
    case BeginOperation(_, _) => task.role.UserOp? && task.pc.Fresh?
    case SeeRecoveryEnd(_, _) => task.pc.AwaitsRecovery? && !Active(tasks, task.pc.other)
    case SeePollEnd(_) => task.pc.AwaitsPoll? && !Active(tasks, task.pc.other)
    case AdapterAnswers(_) => task.pc.Releasing? || task.pc.Rescuing? || task.pc.Chosen?
    case AdapterFinds(_, list) => task.pc.Resolving? && NewIds(issued, list)
    case AdapterRaises(_) => CanFail(task.pc) && !task.pc.Resolved?
    case AdapterReads(_) => task.pc.Reading?
    case AdapterDisconnects(_) => task.pc.Disconnecting?
    case BeginRecovery(_) => task.role.Recovery? && task.pc.Fresh?
    case WakeRecovery(_) => task.role.Recovery? && task.pc == Asleep
    case TurnPoll(_) => task.role.Poll? && (task.pc.Fresh? || task.pc == Asleep)
    case EndRead(_, _) => task.role.Poll? && task.pc.PollReading?
    case RaisePoll(_) => task.role.Poll? && (task.pc.Fresh? || task.pc == Asleep || task.pc.PollReading?)
    case Interrupt(_) => task.cancelled && CanUnwind(tasks, c.task)
  }

  /** A choice that can happen: a cancelled task only publishes what it holds, or ends. */
  predicate Enabled(tasks: Tasks, lock: Option<TaskId>, issued: Cache, c: Choice) {
    && TaskOf(c).Some? && Active(tasks, c.task) && Offered(tasks, lock, issued, c)
    && (tasks[c.task].cancelled ==> c.PublishFound? || c.Interrupt?)
  }

  /** The task of the choice has gone on. */
  predicate TookStep(before: Tasks, after: Tasks, c: Choice) {
    TaskOf(c).Some? && c.task in before ==> c.task in after && after[c.task].pc != before[c.task].pc
  }

  /** Requests from outside. */
  method TakeRequest(s: AdministrationService, c: Choice)
    requires s.Valid()
    modifies s
    ensures s.Valid() && OpsMove(old(s.ops), s.ops)
    ensures Discovers(c) || s.known == old(s.known)
  {
    hide LockOk, TasksOk, RegistryOk, CachesOk, TablesOk, OpsOk, StraysOk, IdsOk, OpsMove, NewIds, CanUnwind, CanFail;
    OpsStay(s.ops);
    match c
    case RequestOperation(d, action) =>
      OpsGrow(s.ops, s.nextOp, Op(LinkKind(action), Some(d), Queued, true, s.nextTask));
      var r := s.StartConnectionOperation(d, action);
    case RequestScan(listed) =>
      OpsGrow(s.ops, s.nextOp, Op(ScanKind, None, Queued, true, s.nextTask));
      var r := s.StartScan(listed * s.ops.Keys);
    case RequestRegister(id, d, auto) =>
      var r := s.Register(id, d, auto);
    case RequestSelect(d, id) =>
      var r := s.SelectIdentity(d, id);
    case RequestAuto(d, auto) =>
      var r := s.SetAutomaticReconnection(d, auto);
    case _ =>
  }

  /** Steps of scans, and taking the lock. */
  method TakeScan(s: AdministrationService, c: Choice)
    requires s.Valid()
    modifies s
    ensures s.Valid() && OpsMove(old(s.ops), s.ops)
    ensures old(Enabled(s.tasks, s.lock, s.issued, c))
            && (c.TakeLock? || c.BeginScan? || c.EndScan? || c.RaiseScan? || c.PublishFound?) ==>
              TookStep(old(s.tasks), s.tasks, c)
    ensures Discovers(c) || s.known == old(s.known)
  {
    hide AdministrationService.Valid, OpsMove, NewIds, WithStatus, OpOf, Retrying, IsFirstWith, NoneWith, ById;
    OpsStay(s.ops);
    match c
    case TakeLock(t) =>
      if Live(s.tasks, t) && s.lock == None
         && (s.tasks[t].pc.WantsScan? || s.tasks[t].pc.WantsRead? || s.tasks[t].pc.WantsRelease?
             || s.tasks[t].pc.WantsDisconnect? || s.tasks[t].pc.WantsConnect?) {
        s.Acquire(t);
      }
    case BeginScan(t) =>
      if Live(s.tasks, t) && ((s.tasks[t].role.UserScan? && s.tasks[t].pc.Fresh?)
                              || (s.tasks[t].role.Background? && s.tasks[t].pc == Asleep)) {
        s.ScanBegins(t);
      }
    case EndScan(t, list) =>
      if Live(s.tasks, t) && s.tasks[t].pc.Scanning? && NewIds(s.issued, list) {
        s.ScanReturns(t, list);
      }
    case RaiseScan(t) =>
      if Live(s.tasks, t) && s.tasks[t].pc.Scanning? {
        s.ScanRaises(t);
      }
    case PublishFound(t) =>
      if Active(s.tasks, t) && s.tasks[t].pc.Found? {
        s.ScanPublishes(t);
      } else if Active(s.tasks, t) && s.tasks[t].pc.Resolved? {
        s.ResolutionPublishes(t);
      }
    case _ =>
  }

  /** Steps of connection operations. */
  method TakeOperation(s: AdministrationService, c: Choice)
    requires s.Valid()
    modifies s
    ensures s.Valid() && OpsMove(old(s.ops), s.ops)
    ensures old(Enabled(s.tasks, s.lock, s.issued, c))
            && (c.BeginOperation? || c.SeeRecoveryEnd? || c.SeePollEnd? || c.AdapterAnswers? || c.AdapterFinds?) ==>
              TookStep(old(s.tasks), s.tasks, c)
    ensures Discovers(c) || s.known == old(s.known)
  {
    hide AdministrationService.Valid, OpsMove, NewIds, CanUnwind, CanFail, WithStatus, OpOf, Retrying;
    OpsStay(s.ops);
    match c
    case BeginOperation(t, linkUp) =>
      if Live(s.tasks, t) && s.tasks[t].role.UserOp? && s.tasks[t].pc.Fresh? {
        s.OperationBegins(t, linkUp);
      }
    case SeeRecoveryEnd(t, linkUp) =>
      if Live(s.tasks, t) && s.tasks[t].pc.AwaitsRecovery? && !Active(s.tasks, s.tasks[t].pc.other) {
        s.RecoveryStopped(t, linkUp);
      }
    case SeePollEnd(t) =>
      if Live(s.tasks, t) && s.tasks[t].pc.AwaitsPoll? && !Active(s.tasks, s.tasks[t].pc.other) {
        s.PollingStopped(t);
      }
    case AdapterAnswers(t) =>
      if Live(s.tasks, t) && (s.tasks[t].pc.Releasing? || s.tasks[t].pc.Rescuing? || s.tasks[t].pc.Chosen?) {
        s.GoesOn(t);
      }
    case AdapterFinds(t, list) =>
      if Live(s.tasks, t) && s.tasks[t].pc.Resolving? && NewIds(s.issued, list) {
        s.DiscoveryReturns(t, list);
      }
    case _ =>
  }

  /** Ends of connection operations; a disconnect finishes whoever owns the adapter by then. */
  method TakeEnding(s: AdministrationService, c: Choice)
    requires s.Valid()
    modifies s
    ensures s.Valid() && OpsMove(old(s.ops), s.ops)
    ensures old(Enabled(s.tasks, s.lock, s.issued, c)) && (c.AdapterRaises? || c.AdapterReads? || c.AdapterDisconnects?) ==>
              TookStep(old(s.tasks), s.tasks, c)
    ensures Discovers(c) || s.known == old(s.known)
  {
    hide AdministrationService.Valid, OpsMove, NewIds, CanUnwind, WithStatus, OpOf, WantsRecovery, Overlaps;
    OpsStay(s.ops);
    match c
    case AdapterRaises(t) =>
      if Live(s.tasks, t) && CanFail(s.tasks[t].pc) && !s.tasks[t].pc.Resolved? {
        s.StepRaises(t);
      }
    case AdapterReads(t) =>
      if Live(s.tasks, t) && s.tasks[t].pc.Reading? {
        s.FirstRead(t);
      }
    case AdapterDisconnects(t) =>
      if Live(s.tasks, t) && s.tasks[t].pc.Disconnecting? {
        s.DisconnectDone(t);
      }
    case _ =>
  }

  /** Steps of recovery. */
  method TakeRecovery(s: AdministrationService, c: Choice)
    requires s.Valid()
    modifies s
    ensures s.Valid() && OpsMove(old(s.ops), s.ops)
    ensures old(Enabled(s.tasks, s.lock, s.issued, c)) && (c.BeginRecovery? || c.WakeRecovery?) ==>
              TookStep(old(s.tasks), s.tasks, c)
    ensures Discovers(c) || s.known == old(s.known)
  {
    hide AdministrationService.Valid, OpsMove, NewIds, CanFail;
    hide WithStatus, OpOf, StatusAfter, RecoveryWork, WantsRecovery, Without, Unwound;
    OpsStay(s.ops);
    match c
    case BeginRecovery(t) =>
      if Live(s.tasks, t) && s.tasks[t].role.Recovery? && s.tasks[t].pc.Fresh? {
        s.RecoveryBegins(t);
      }
    case WakeRecovery(t) =>
      if Live(s.tasks, t) && s.tasks[t].role.Recovery? && s.tasks[t].pc == Asleep {
        s.RecoveryWakes(t);
      }
    case _ =>
  }

  /** Steps of polling and cancelled tasks. */
  method TakeBackground(s: AdministrationService, c: Choice)
    requires s.Valid()
    modifies s
    ensures s.Valid() && OpsMove(old(s.ops), s.ops)
    ensures old(Enabled(s.tasks, s.lock, s.issued, c)) && (c.TurnPoll? || c.EndRead? || c.RaisePoll? || c.Interrupt?) ==>
              TookStep(old(s.tasks), s.tasks, c)
    ensures Discovers(c) || s.known == old(s.known)
  {
    hide AdministrationService.Valid, OpsMove, NewIds, CanFail;
    hide WithStatus, OpOf, StatusAfter, RecoveryWork, WantsRecovery, Without, Unwound;
    OpsStay(s.ops);
    match c
    case TurnPoll(t) =>
      if Live(s.tasks, t) && s.tasks[t].role.Poll? && (s.tasks[t].pc.Fresh? || s.tasks[t].pc == Asleep) {
        s.PollTurns(t);
      }
    case EndRead(t, handsOver) =>
      if Live(s.tasks, t) && s.tasks[t].role.Poll? && s.tasks[t].pc.PollReading? {
        s.PollReads(t, handsOver);
      }
    case RaisePoll(t) =>
      if Live(s.tasks, t) && s.tasks[t].role.Poll?
         && (s.tasks[t].pc.Fresh? || s.tasks[t].pc == Asleep || s.tasks[t].pc.PollReading?) {
        s.HandOver(t);
      }
    case Interrupt(t) =>
      if Active(s.tasks, t) && s.tasks[t].cancelled && !s.tasks[t].pc.Found? && !s.tasks[t].pc.Resolved?
         && (s.tasks[t].pc.AwaitsRecovery? || s.tasks[t].pc.AwaitsPoll? ==> !Active(s.tasks, s.tasks[t].pc.other)) {
        s.Unwind(t);
      }
    case _ =>
  }

  /** The next stage of closing, once what the current one waits for has ended. */
  method TakeClosing(s: AdministrationService)
    requires s.Valid()
    modifies s
    ensures s.Valid() && OpsMove(old(s.ops), s.ops)
    ensures old(s.closer.Open? || (s.closer.Closing? && 1 <= s.closer.stage <= 4 && AllEnded(s.tasks, s.closer.waiting))) ==>
              StageOf(s.closer) == old(StageOf(s.closer)) + 1
    ensures s.known == old(s.known)
  {
    hide LockOk, TasksOk, RegistryOk, CachesOk, TablesOk, OpsOk, StraysOk, IdsOk, OpsMove;
    OpsStay(s.ops);
    if s.closer.Open? {
      s.BeginClose();
    } else if s.closer.Closing? && AllEnded(s.tasks, s.closer.waiting) {
      match s.closer.stage
      case 1 => s.CloseUserTasks();
      case 2 => s.CloseRecoveries();
      case 3 => s.ClosePolls();
      case 4 => s.FinishClose();
      case _ =>
    }
  }

  method Take(s: AdministrationService, c: Choice)
    requires s.Valid()
    modifies s
    ensures s.Valid() && OpsMove(old(s.ops), s.ops)
    ensures old(Enabled(s.tasks, s.lock, s.issued, c)) ==> TookStep(old(s.tasks), s.tasks, c)
    ensures Discovers(c) || s.known == old(s.known)
  {
    hide AdministrationService.Valid, OpsMove, Offered, TookStep, Active;
    match c
    case RequestOperation(_, _) => TakeRequest(s, c);
    case RequestScan(_) => TakeRequest(s, c);
    case RequestRegister(_, _, _) => TakeRequest(s, c);
    case RequestSelect(_, _) => TakeRequest(s, c);
    case RequestAuto(_, _) => TakeRequest(s, c);
    case TakeLock(_) => TakeScan(s, c);
    case BeginScan(_) => TakeScan(s, c);
    case EndScan(_, _) => TakeScan(s, c);
    case RaiseScan(_) => TakeScan(s, c);
    case PublishFound(_) => TakeScan(s, c);
    case BeginOperation(_, _) => TakeOperation(s, c);
    case SeeRecoveryEnd(_, _) => TakeOperation(s, c);
    case SeePollEnd(_) => TakeOperation(s, c);
    case AdapterAnswers(_) => TakeOperation(s, c);
    case AdapterFinds(_, _) => TakeOperation(s, c);
    case AdapterRaises(_) => TakeEnding(s, c);
    case AdapterReads(_) => TakeEnding(s, c);
    case AdapterDisconnects(_) => TakeEnding(s, c);
    case CloseOn => TakeClosing(s);
    case BeginRecovery(_) => TakeRecovery(s, c);
    case WakeRecovery(_) => TakeRecovery(s, c);
    case _ => TakeBackground(s, c);
  }

  /** An operation keeps its kind, device and runner, and once it has succeeded or failed it stays so. */
  lemma OpsMoveForward(before: map<OpId, Op>, after: map<OpId, Op>)
    requires OpsMove(before, after)
    ensures forall o :: o in before ==>
              && o in after && after[o].kind == before[o].kind && after[o].device == before[o].device
              && after[o].byUser == before[o].byUser && after[o].runner == before[o].runner
              && (before[o].status == Succeeded || before[o].status == Failed ==> after[o].status == before[o].status)
              && (after[o].status == Queued ==> before[o].status == Queued)
  {
    forall o | o in before
      ensures && o in after && after[o].kind == before[o].kind && after[o].device == before[o].device
              && after[o].byUser == before[o].byUser && after[o].runner == before[o].runner
    {
      assert after[o].(status := before[o].status) == before[o];
    }
  }

  /** A run of the service: whatever is chosen, everything that holds stays, and operations only move forward. */
  method Run(s: AdministrationService, choices: seq<Choice>)
    requires s.Valid()
    modifies s
    ensures s.Valid() && OpsMove(old(s.ops), s.ops)
  {
    hide *;
    OpsStay(s.ops);
    for i := 0 to |choices|
      invariant s.Valid() && OpsMove(old(s.ops), s.ops)
    {
      ghost var before := s.ops;
      Take(s, choices[i]);
      OpsMoveOn(old(s.ops), before, s.ops);
    }
  }

  // ---------- What holds at every point of every run ----------

  /** Whenever the lock is free, every candidate the service caches is known to the adapter. */
  lemma FreeLockMeansAgreement(s: AdministrationService)
    requires s.Valid() && s.lock == None
    ensures forall id :: id in s.candidates ==> id in s.known && s.known[id] == s.candidates[id]
  {
  }

  /** Only one task at a time is under the lock. */
  lemma OneHolder(s: AdministrationService, t: TaskId, u: TaskId)
    requires s.Valid() && t in s.tasks && u in s.tasks && Holds(s.tasks[t].pc) && Holds(s.tasks[u].pc)
    ensures t == u && s.lock == Some(t)
  {
  }

  /**
   A candidate passed to the adapter's `connect` is never an obsolete one. Unless ownership
   was raced away it belongs to the registered identity of its device, to no other
   registration, and to the owner of the adapter.
   */
  lemma ChosenIsRegistered(s: AdministrationService, t: TaskId)
    requires s.Valid() && t in s.tasks && s.tasks[t].pc.Chosen?
    ensures var w := s.tasks[t].pc.w;
            var c := s.tasks[t].pc.chosen;
            c.id in s.known && s.known[c.id] == c
            && w.device in s.rows
            && (!s.raced ==>
                  && c.identity == s.rows[w.device].identity
                  && (c.identity.Some? ==> forall d :: d in s.rows && s.rows[d].identity == c.identity ==> d == w.device)
                  && s.owner == Some(w.device))
  {
    assert TaskOk(t, s.tasks[t], s.Surroundings());
    assert s.lock == Some(t);
  }

  /** A device has at most one pending user operation. */
  lemma OnePendingPerDevice(s: AdministrationService, o: OpId, p: OpId)
    requires s.Valid() && o in s.ops && p in s.ops && Pending(s.ops[o].status) && Pending(s.ops[p].status)
    requires s.ops[o].byUser && s.ops[p].byUser && s.ops[o].device.Some? && s.ops[o].device == s.ops[p].device
    ensures o == p
  {
  }

  /** While the service is open every pending operation is being executed by a task of its own. */
  lemma PendingIsExecuted(s: AdministrationService, o: OpId)
    requires s.Valid() && s.closer.Open? && o in s.ops && Pending(s.ops[o].status)
    ensures var t := s.ops[o].runner;
            Active(s.tasks, t) && OpOf(s.tasks[t]) == Some(o)
            && (s.tasks[t].pc.Fresh? <==> s.ops[o].status == Queued)
  {
    var t := s.ops[o].runner;
    assert TaskOk(t, s.tasks[t], s.Surroundings());
  }

  /** A device is recovered by at most one live task and polled by at most one, both for the owner unless raced. */
  lemma OneRecoveryOnePoll(s: AdministrationService, t: TaskId, u: TaskId)
    requires s.Valid() && Live(s.tasks, t) && Live(s.tasks, u) && s.tasks[t].role == s.tasks[u].role
    requires s.tasks[t].role.Recovery? || s.tasks[t].role.Poll?
    ensures t == u && (!s.raced ==> s.owner == DeviceOf(s.tasks[t].role))
  {
    assert TaskOk(t, s.tasks[t], s.Surroundings());
  }

  /** While an explicit disconnect is under the lock, nothing else works for its device. */
  lemma DisconnectIsAlone(s: AdministrationService, t: TaskId, u: TaskId)
    requires s.Valid() && Live(s.tasks, t) && s.tasks[t].pc.Disconnecting? && u != t
    requires Live(s.tasks, u) && DeviceOf(s.tasks[u].role).Some?
    ensures DeviceOf(s.tasks[u].role) != Some(s.tasks[t].pc.w.device)
  {
    hide LockOk, CachesOk, RegistryOk, StraysOk, IdsOk, OpsOk, OwnedOk, ExecutesOk, StageOk;
    TaskFacts(s.tasks, s.Surroundings(), t);
    if s.tasks[u].role.UserOp? && s.tasks[u].role.device == s.tasks[t].pc.w.device {
      OneUserTask(s.tasks, s.Surroundings(), s.active, t, u);
    }
  }

  /** After closing no operation is pending, nothing but cancelled polling is left, and nothing is live. */
  lemma ClosedIsQuiet(s: AdministrationService)
    requires s.Valid() && s.closer.Closed?
    ensures forall o :: o in s.ops ==> !Pending(s.ops[o].status)
    ensures forall t :: Active(s.tasks, t) ==> s.tasks[t].role.Poll? && s.tasks[t].cancelled
    ensures forall t :: !Live(s.tasks, t)
  {
    forall t | Active(s.tasks, t) ensures s.tasks[t].role.Poll? && s.tasks[t].cancelled {
      assert TaskOk(t, s.tasks[t], s.Surroundings());
    }
  }

  // ---------- A race for ownership ----------

  /** A pending operation that is to connect device `d`, executed by a live task. */
  predicate Connecting(tasks: Tasks, ops: map<OpId, Op>, o: OpId, d: DeviceId) {
    && o in ops && Pending(ops[o].status) && ops[o].kind == LinkKind(Connect) && ops[o].device == Some(d)
    && Live(tasks, ops[o].runner) && tasks[ops[o].runner].role == UserOp(o, d, Connect)
  }

  /** A first request is accepted: its task is about to begin, and nothing else is going on. */
  method AcceptDisconnect(rows: map<DeviceId, Row>, issued: Cache, a: DeviceId)
    returns (s: AdministrationService, t: TaskId, o: OpId)
    requires RegistryOk(rows, issued, false) && Within(issued, issued) && a in rows
    ensures fresh(s) && s.Valid() && s.rows.Keys == rows.Keys && s.closer.Open? && s.active == map[a := o]
    ensures t in s.tasks && s.tasks[t] == Task(UserOp(o, a, Disconnect), Fresh(false), false) && o in s.ops
    ensures s.owner == None && s.lock == None && s.recoveries == map[] && s.polls == map[]
  {
    hide RegistryOk, Within, AdministrationService.Valid;
    s := new AdministrationService(rows, issued, map[], 0, 0);
    assert s.closer.Open? && s.owner == None && s.lock == None && s.recoveries == map[] && s.polls == map[]
           && s.active == map[];
    hide AdministrationService.Valid, AdministrationService.NotStarted, RegistryOk, Within, IdsOk;
    o := s.nextOp;
    t := s.nextTask;
    var r := s.StartConnectionOperation(a, Disconnect);
  }

  /** A disconnect with nothing to stop reaches the adapter; nobody owns it. */
  method DisconnectGetsLock(s: AdministrationService, a: DeviceId, t: TaskId, o: OpId)
    requires s.Valid() && t in s.tasks && s.tasks[t] == Task(UserOp(o, a, Disconnect), Fresh(false), false)
    requires s.owner == None && s.lock == None && s.recoveries == map[] && s.polls == map[]
    modifies s
    ensures s.Valid() && Live(s.tasks, t) && s.tasks[t].pc.Disconnecting? && s.tasks[t].pc.w.device == a
    ensures s.rows.Keys == old(s.rows).Keys && s.closer == old(s.closer) && s.owner == None
    ensures s.active == old(s.active) && OpOf(s.tasks[t]) == Some(o) && s.ops.Keys == old(s.ops).Keys
  {
    hide AdministrationService.Valid, Executing, OpsMove;
    s.OperationBegins(t, false);
    s.Acquire(t);
  }

  /** While `a` is being disconnected, a connect of `b` is accepted and makes `b` the owner. */
  method ConnectDuringDisconnect(s: AdministrationService, a: DeviceId, b: DeviceId, t: TaskId) returns (o: OpId)
    requires s.Valid() && Live(s.tasks, t) && s.tasks[t].pc.Disconnecting?
    requires s.closer.Open? && s.owner == None && b in s.rows && a != b && s.active.Keys == {a}
    modifies s
    ensures s.Valid() && t in s.tasks && s.tasks[t] == old(s.tasks)[t] && s.closer.Open?
    ensures s.owner == Some(b) && s.rows.Keys == old(s.rows).Keys && Connecting(s.tasks, s.ops, o, b)
    ensures s.active == old(s.active)[b := o] && s.raced == old(s.raced)
    ensures s.ops == old(s.ops)[o := s.ops[o]] && o !in old(s.ops)
  {
    hide AdministrationService.Valid, OpsMove, RegistryOk;
    o := s.nextOp;
    var r := s.StartConnectionOperation(b, Connect);
  }

  /** The disconnect of `a` ends: `b` loses the adapter while its own operation goes on. */
  method DisconnectEndsLate(s: AdministrationService, a: DeviceId, b: DeviceId, t: TaskId, o: OpId, done: OpId)
    requires s.Valid() && Live(s.tasks, t) && s.tasks[t].pc.Disconnecting? && s.tasks[t].pc.w.device == a
    requires s.owner == Some(b) && a != b && Connecting(s.tasks, s.ops, o, b) && OpOf(s.tasks[t]) == Some(done) && o != done
    modifies s
    ensures s.Valid() && s.raced && s.owner == None && Connecting(s.tasks, s.ops, o, b)
    ensures s.closer == old(s.closer) && s.active == old(s.active) && s.rows.Keys == old(s.rows).Keys
    ensures s.ops == WithStatus(old(s.ops), Some(done), Succeeded)
  {
    hide AdministrationService.Valid, OpsMove, RegistryOk;
    s.DisconnectDone(t);
  }

  /** The pending operation of `a` is done, so another is accepted while nobody owns the adapter. */
  method ConnectUnowned(s: AdministrationService, a: DeviceId, b: DeviceId, first: OpId) returns (o: OpId)
    requires s.Valid() && s.owner == None && s.closer.Open? && a in s.rows && !s.Busy(a)
    requires Connecting(s.tasks, s.ops, first, b)
    modifies s
    ensures s.Valid() && s.owner == Some(a) && s.raced == old(s.raced)
    ensures Connecting(s.tasks, s.ops, first, b) && Connecting(s.tasks, s.ops, o, a)
  {
    hide AdministrationService.Valid, OpsMove, RegistryOk;
    o := s.nextOp;
    var r := s.StartConnectionOperation(a, Connect);
  }

  lemma DoneIsNotBusy(s: AdministrationService, a: DeviceId, o: OpId)
    requires s.Valid() && a in s.active && s.active[a] == o && o in s.ops && s.ops[o].status == Succeeded
    ensures !s.Busy(a)
  {
    hide AdministrationService.Valid;
  }

  /**
   The owner check of a disconnect is made before it waits for the adapter. A disconnect of `a`
   finds no owner; while it is under the lock a connect of `b` makes `b` the owner; the end of
   the disconnect clears that again, and a connect of `a` is accepted besides the one of `b`.
   */
  method OwnershipRace(rows: map<DeviceId, Row>, issued: Cache, a: DeviceId, b: DeviceId)
    returns (s: AdministrationService, first: OpId, second: OpId)
    requires RegistryOk(rows, issued, false) && Within(issued, issued) && a in rows && b in rows && a != b
    ensures fresh(s) && s.Valid() && s.raced && s.owner == Some(a)
    ensures Connecting(s.tasks, s.ops, first, b) && Connecting(s.tasks, s.ops, second, a)
  {
    hide AdministrationService.Valid, OpsMove, RegistryOk, Connecting, AdministrationService.Busy;
    var t, o;
    s, t, o := AcceptDisconnect(rows, issued, a);
    DisconnectGetsLock(s, a, t, o);
    first := ConnectDuringDisconnect(s, a, b, t);
    DisconnectEndsLate(s, a, b, t, first, o);
    DoneIsNotBusy(s, a, o);
    second := ConnectUnowned(s, a, b, first);
  }

  // ---------- The promises, for every run ----------

  /** Caches agree while the lock is free, and whoever connects uses a current and, unless raced, registered candidate. */
  ghost predicate ConnectsOnlyRegistered(s: AdministrationService)
    reads s
  {
    && (s.lock == None ==> forall id :: id in s.candidates ==> id in s.known && s.known[id] == s.candidates[id])
    && (forall t :: t in s.tasks && s.tasks[t].pc.Chosen? ==>
          && s.tasks[t].pc.chosen.id in s.known && s.known[s.tasks[t].pc.chosen.id] == s.tasks[t].pc.chosen
          && s.tasks[t].pc.w.device in s.rows
          && (!s.raced ==> s.tasks[t].pc.chosen.identity == s.rows[s.tasks[t].pc.w.device].identity))
    && (forall d, e :: d in s.rows && e in s.rows && d != e && s.rows[d].identity.Some? ==>
          s.rows[d].identity != s.rows[e].identity)
  }

  /** Two pending user operations of one device. */
  predicate PendingFor(ops: map<OpId, Op>, o: OpId, p: OpId) {
    && o in ops && Pending(ops[o].status) && ops[o].byUser
    && p in ops && Pending(ops[p].status) && ops[p].byUser
    && ops[o].device.Some? && ops[o].device == ops[p].device
  }

  /** One pending user operation a device; while open none is left without a task, once closed none is left. */
  ghost predicate SettlesOperations(s: AdministrationService)
    reads s
  {
    && (forall o, p :: PendingFor(s.ops, o, p) ==> o == p)
    && (s.closer.Open? ==> forall o :: o in s.ops && Pending(s.ops[o].status) ==> Active(s.tasks, s.ops[o].runner))
    && (s.closer.Closed? ==> forall o :: o in s.ops ==> !Pending(s.ops[o].status))
    && (s.closer.Closed? ==> forall t :: !Live(s.tasks, t))
  }

  lemma PromisesHold(s: AdministrationService)
    requires s.Valid()
    ensures ConnectsOnlyRegistered(s) && SettlesOperations(s)
  {
    forall t | t in s.tasks && s.tasks[t].pc.Chosen?
      ensures && s.tasks[t].pc.chosen.id in s.known && s.known[s.tasks[t].pc.chosen.id] == s.tasks[t].pc.chosen
              && s.tasks[t].pc.w.device in s.rows
              && (!s.raced ==> s.tasks[t].pc.chosen.identity == s.rows[s.tasks[t].pc.w.device].identity)
    {
      ChosenIsRegistered(s, t);
    }
    if s.closer.Closed? {
      ClosedIsQuiet(s);
    }
  }

  /** An interrupted operation never changes again. */
  lemma LeftStays(left: map<OpId, Op>, ops: map<OpId, Op>)
    requires OpsMove(Interrupted(left), ops)
    ensures forall o :: o in left ==> o in ops && ops[o] == Interrupted(left)[o]
  {
    forall o | o in left ensures o in ops && ops[o] == Interrupted(left)[o] {
      assert o in Interrupted(left);
    }
  }

  /**
   From any registrations and whatever an earlier process left pending, through the start and
   any choices whatever, the promises are kept, and what was left stays as the start settled it.
   */
  method ServiceRun(rows: map<DeviceId, Row>, issued: Cache, left: map<OpId, Op>, nextTask: TaskId, nextOp: OpId,
                    order: seq<DeviceId>, choices: seq<Choice>)
    returns (s: AdministrationService)
    requires RegistryOk(rows, issued, false) && Within(issued, issued) && IdsOk(map[], left, nextTask, nextOp)
    requires forall d :: d in order ==> d in rows
    ensures fresh(s) && s.Valid()
    ensures ConnectsOnlyRegistered(s) && SettlesOperations(s)
    ensures forall o :: o in left ==> o in s.ops && s.ops[o] == Interrupted(left)[o]
  {
    hide AdministrationService.Valid, AdministrationService.NotStarted, RegistryOk, IdsOk, Within, FirstWanted, OpsMove;
    hide ConnectsOnlyRegistered, SettlesOperations, Interrupted;
    s := new AdministrationService(rows, issued, left, nextTask, nextOp);
    s.Start(order);
    Run(s, choices);
    PromisesHold(s);
    LeftStays(left, s.ops);
  }
}
