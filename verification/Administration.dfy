/**
 The administrative service: scans, connection operations, recovery and polling as tasks
 that take one step at a time, in any order, over one Bluetooth lock and two caches.
 The methods hide the parts of `Valid` and leave the reasoning about each part to the lemmas
 of ServiceSteps.dfy.
 */
module Administration {
  import opened Basics
  import opened ServiceState
  import opened ServiceSteps

  datatype ServiceError =
    | NotFound
    | Stopping
    | InProgress
    | OwnedByAnother
    | NoLongerAvailable
    | AlreadyRegistered
    | StillOwner

  class AdministrationService {
    var tasks: Tasks
    var lock: Option<TaskId>
    var rows: map<DeviceId, Row>
    var ops: map<OpId, Op>
    var active: map<DeviceId, OpId>
    var candidates: Cache
    var owner: Option<DeviceId>
    var connected: Option<DeviceId>
    var recoveries: Table
    var polls: Table
    var closer: Closer
    var nextTask: TaskId
    var nextOp: OpId

    /** The adapter's cache, and every candidate that a discovery ever returned. */
    var known: Cache
    var issued: Cache

    /** Whether a disconnect ever ended while another device owned the adapter. */
    ghost var raced: bool

    ghost function Surroundings(): Env
      reads this
    {
      Env(rows, issued, owner, raced, recoveries, polls, ops, closer)
    }

    ghost predicate Valid()
      reads this
    {
      && LockOk(tasks, lock)
      && CachesOk(Held(tasks, lock), known, issued, candidates)
      && RegistryOk(rows, issued, raced)
      && TasksOk(tasks, Surroundings())
      && TablesOk(tasks, recoveries, polls)
      && OpsOk(tasks, ops, active, closer)
      && StraysOk(tasks, ops, active, closer)
      && IdsOk(tasks, ops, nextTask, nextOp)
    }

    /** As made, before its start: registrations, and operations of earlier processes, which may be pending. */
    ghost predicate NotStarted()
      reads this
    {
      && tasks == map[] && lock == None && recoveries == map[] && polls == map[] && active == map[]
      && candidates == map[] && known == map[] && owner == None && closer == Open && !raced
      && Within(issued, issued) && RegistryOk(rows, issued, raced) && IdsOk(tasks, ops, nextTask, nextOp)
    }

    constructor (rows: map<DeviceId, Row>, issued: Cache, left: map<OpId, Op>, nextTask: TaskId, nextOp: OpId)
      requires RegistryOk(rows, issued, false) && Within(issued, issued) && IdsOk(map[], left, nextTask, nextOp)
      ensures NotStarted()
      ensures this.rows == rows && this.issued == issued && ops == left
      ensures (forall o :: o in left ==> !Pending(left[o].status)) ==> Valid()
    {
      tasks, lock, this.rows, ops, active := map[], None, rows, left, map[];
      candidates, owner, connected := map[], None, None;
      recoveries, polls, closer, this.nextTask, this.nextOp := map[], map[], Open, nextTask, nextOp;
      known, this.issued, raced := map[], issued, false;
    }

    // ---------- Single changes ----------

    /** A task reaches its next place, and takes or gives up the lock as that place says. */
    method GoTo(t: TaskId, pc: Pc)
      requires t in tasks
      modifies `tasks, `lock
      ensures tasks == Moved(old(tasks), t, pc) && lock == LockAfter(old(lock), t, pc)
    {
      tasks := tasks[t := tasks[t].(pc := pc)];
      if Holds(pc) {
        lock := Some(t);
      } else if lock == Some(t) {
        lock := None;
      }
    }

    method Settle(o: Option<OpId>, status: Status)
      modifies `ops
      ensures ops == WithStatus(old(ops), o, status)
    {
      if o.Some? && o.value in ops {
        ops := ops[o.value := ops[o.value].(status := status)];
      }
    }

    method Cancel(t: TaskId)
      requires t in tasks
      modifies `tasks
      ensures tasks == WithCancelled(old(tasks), t)
    {
      tasks := tasks[t := tasks[t].(cancelled := true)];
    }

    method CancelAll(group: set<TaskId>)
      modifies `tasks
      ensures tasks == AllCancelled(old(tasks), group)
    {
      tasks := map t | t in tasks :: if t in group then tasks[t].(cancelled := true) else tasks[t];
    }

    /** The done callbacks take an ended task out of the tables. */
    method RunCallbacks(t: TaskId, pc: Pc)
      modifies `recoveries, `polls
      ensures recoveries == TableAfter(old(recoveries), t, pc) && polls == TableAfter(old(polls), t, pc)
    {
      if pc == Ended {
        recoveries := map d | d in recoveries && recoveries[d] != t :: recoveries[d];
        polls := map d | d in polls && polls[d] != t :: polls[d];
      }
    }

    /** Whatever is pending has failed. */
    method InterruptAll()
      modifies `ops
      ensures ops == Interrupted(old(ops))
    {
      ops := map o | o in ops :: if Pending(ops[o].status) then ops[o].(status := Failed) else ops[o];
    }

    // ---------- Building blocks: each keeps everything that holds ----------

    /**
     Moves a task on to its next suspension; the operation it executes is running from then on.
     The adapter's cache may be replaced on the way.
     */
    method Proceed(t: TaskId, pc: Pc, cache: Cache)
      requires Valid() && CanMove(tasks, lock, candidates, Surroundings(), t, pc, cache)
      modifies `tasks, `lock, `ops, `known
      ensures Valid()
      ensures tasks == Moved(old(tasks), t, pc)
      ensures lock == LockAfter(old(lock), t, pc)
      ensures ops == WithStatus(old(ops), OpOf(old(tasks)[t]), Running)
      ensures known == cache
    {
      hide LockOk, CachesOk, RegistryOk, TasksOk, TaskOk, TablesOk, OpsOk, StraysOk, IdsOk;
      hide PlaceOk, DisconnectOk, ExecutesOk, Moved, WithStatus, OpOf, Held, HeldAfter;
      ghost var e := Surroundings();
      ProceedKeepsTasks(tasks, e, t, pc);
      MoveKeepsLock(tasks, lock, t, pc);
      MoveKeepsTables(tasks, recoveries, polls, t, pc);
      MoveKeepsStrays(tasks, ops, active, closer, t, pc);
      StatusKeepsStrays(Moved(tasks, t, pc), ops, active, closer, OpOf(tasks[t]), Running);
      StartKeepsOps(tasks, ops, active, closer, t, pc);
      MoveKeepsIds(tasks, ops, nextTask, nextOp, t, pc, OpOf(tasks[t]), Running);
      Settle(OpOf(tasks[t]), Running);
      GoTo(t, pc);
      known := cache;
      assert Surroundings() == e.(ops := ops);
    }

    /** Ends a task, or lets it sleep again, and settles the operation it was executing. */
    method Conclude(t: TaskId, pc: Pc, status: Option<Status>)
      requires Valid() && CanConclude(tasks, lock, known, candidates, Surroundings(), t, pc, status)
      modifies `tasks, `lock, `ops, `recoveries, `polls
      ensures Valid()
      ensures tasks == Moved(old(tasks), t, pc)
      ensures lock == LockAfter(old(lock), t, pc)
      ensures ops == StatusAfter(old(ops), OpOf(old(tasks)[t]), status)
      ensures recoveries == TableAfter(old(recoveries), t, pc)
      ensures polls == TableAfter(old(polls), t, pc)
    {
      hide LockOk, CachesOk, RegistryOk, TasksOk, TablesOk, OpsOk, StraysOk, IdsOk, CanConclude;
      hide Moved, TableAfter, OpOf, Held, LockAfter, WithStatus;
      ghost var e := Surroundings();
      ConcludeKeeps(tasks, lock, known, candidates, e, active, nextTask, nextOp, t, pc, status);
      RunCallbacks(t, pc);
      if status.Some? {
        Settle(OpOf(tasks[t]), status.value);
      }
      assert ops == StatusAfter(old(ops), OpOf(tasks[t]), status);
      hide StatusAfter;
      GoTo(t, pc);
      assert Surroundings() == e.(ops := ops, recoveries := recoveries, polls := polls);
    }

    method CancelPoll(d: DeviceId) returns (p: TaskId)
      requires Valid() && d in polls
      modifies `tasks, `polls
      ensures Valid()
      ensures p == old(polls)[d] && p in old(tasks) && old(tasks)[p].role == Poll(d)
      ensures tasks == WithCancelled(old(tasks), p)
      ensures polls == Without(old(polls), d)
    {
      hide LockOk, CachesOk, RegistryOk, TasksOk, TaskOk, TablesOk, OpsOk, StraysOk, IdsOk, WithCancelled, Held;
      ghost var e := Surroundings();
      p := polls[d];
      CancelPollKeepsTasks(tasks, e, d);
      CancelKeepsLock(tasks, lock, p);
      CancelKeepsOps(tasks, ops, active, closer, p);
      CancelKeepsStrays(tasks, ops, active, closer, p);
      CancelKeepsIds(tasks, ops, nextTask, nextOp, p);
      Cancel(p);
      polls := polls - {d};
      assert Surroundings() == e.(polls := polls);
    }

    /** The recovery goes out of its table, is cancelled and awaited. */
    method CancelAndAwait(t: TaskId, w: Work, u: TaskId)
      requires t in tasks && u in tasks
      modifies `tasks, `lock, `ops, `recoveries
      ensures tasks == Moved(WithCancelled(old(tasks), u), t, AwaitsRecovery(w, u))
      ensures lock == LockAfter(old(lock), t, AwaitsRecovery(w, u))
      ensures ops == WithStatus(old(ops), OpOf(old(tasks)[t]), Running)
      ensures recoveries == Without(old(recoveries), w.device)
    {
      Settle(OpOf(tasks[t]), Running);
      Cancel(u);
      GoTo(t, AwaitsRecovery(w, u));
      recoveries := recoveries - {w.device};
    }

    static lemma LeavesLock(lock: Option<TaskId>, t: TaskId, pc: Pc)
      requires lock != Some(t) && !Holds(pc)
      ensures LockAfter(lock, t, pc) == lock
    {
    }

    /** A user task cancels the recovery of its device and waits for it to end. */
    method StopRecovery(t: TaskId, w: Work)
      requires Valid() && Live(tasks, t) && tasks[t].pc.Fresh? && tasks[t].role.UserOp?
      requires w.device == tasks[t].role.device && w.device in recoveries && !w.recovering
      requires RoleFits(tasks[t].role, w) && WorkOk(w, rows, issued, raced)
      modifies `tasks, `lock, `ops, `recoveries
      ensures Valid()
      ensures recoveries == Without(old(recoveries), w.device) && lock == old(lock)
      ensures tasks == Moved(WithCancelled(old(tasks), old(recoveries)[w.device]), t,
                             AwaitsRecovery(w, old(recoveries)[w.device]))
      ensures ops == WithStatus(old(ops), OpOf(old(tasks)[t]), Running)
    {
      hide LockOk, CachesOk, RegistryOk, TasksOk, TaskOk, TablesOk, OpsOk, StraysOk, IdsOk;
      hide ExecutesOk, RoleFits, WorkOk, WithStatus, OpOf, Held, Moved, Without;
      ghost var e := Surroundings();
      var u := recoveries[w.device];
      StopKeepsTasks(tasks, e, t, w);
      StopKeepsLock(tasks, lock, t, u, AwaitsRecovery(w, u));
      StopKeepsRest(tasks, e, active, nextTask, nextOp, t, w, u);
      NotHolding(tasks, lock, t);
      LeavesLock(lock, t, AwaitsRecovery(w, u));
      hide LockAfter;
      CancelAndAwait(t, w, u);
      assert Surroundings() == e.(recoveries := recoveries, ops := ops);
    }

    method StartPoll(d: DeviceId)
      requires Valid() && d !in polls && d in rows && (raced || owner == Some(d))
      requires CalmFor(tasks, recoveries, d) && StageOf(closer) < 4
      modifies `tasks, `polls, `nextTask
      ensures Valid()
      ensures tasks == old(tasks)[old(nextTask) := Task(Poll(d), Fresh(false), false)]
      ensures polls == old(polls)[d := old(nextTask)] && old(nextTask) !in old(tasks)
    {
      var task := Task(Poll(d), Fresh(false), false);
      hide LockOk, CachesOk, RegistryOk, TasksOk, TaskOk, TablesOk, OpsOk, StraysOk, IdsOk;
      SpawnKeepsIds(tasks, ops, nextTask, nextOp, task);
      SpawnKeepsLock(tasks, lock, nextTask, task);
      SpawnPollKeepsTables(tasks, recoveries, polls, nextTask, d);
      SpawnPollKeepsTasks(tasks, Surroundings(), nextTask, d);
      SpawnKeepsOps(tasks, ops, active, closer, nextTask, task);
      SpawnKeepsStrays(tasks, ops, active, closer, nextTask, task);
      polls := polls[d := nextTask];
      tasks := tasks[nextTask := task];
      nextTask := nextTask + 1;
    }

    method StartRecovery(d: DeviceId, immediate: bool)
      requires Valid() && d !in recoveries && d in rows && (raced || owner == Some(d))
      requires CalmFor(tasks, polls, d) && closer.Open?
      modifies `tasks, `recoveries, `nextTask
      ensures Valid()
      ensures tasks == old(tasks)[old(nextTask) := Task(Recovery(d), Fresh(immediate), false)]
      ensures recoveries == old(recoveries)[d := old(nextTask)] && old(nextTask) !in old(tasks)
    {
      var task := Task(Recovery(d), Fresh(immediate), false);
      hide LockOk, CachesOk, RegistryOk, TasksOk, TaskOk, TablesOk, OpsOk, StraysOk, IdsOk;
      SpawnKeepsIds(tasks, ops, nextTask, nextOp, task);
      SpawnKeepsLock(tasks, lock, nextTask, task);
      SpawnRecoveryKeepsTables(tasks, recoveries, polls, nextTask, d, immediate);
      SpawnRecoveryKeepsTasks(tasks, Surroundings(), nextTask, d, immediate);
      SpawnKeepsOps(tasks, ops, active, closer, nextTask, task);
      SpawnKeepsStrays(tasks, ops, active, closer, nextTask, task);
      recoveries := recoveries[d := nextTask];
      tasks := tasks[nextTask := task];
      nextTask := nextTask + 1;
    }

    /** Updates a device row without touching its identity. */
    method UpdateRow(d: DeviceId, row: Row)
      requires Valid() && d in rows && row.identity == rows[d].identity
      requires row.discovery in issued && (raced || issued[row.discovery].identity == row.identity)
      requires row.desired && !rows[d].desired ==> CalmFor(tasks, recoveries, d)
      modifies `rows
      ensures Valid()
      ensures rows == old(rows)[d := row]
    {
      hide LockOk, CachesOk, RegistryOk, TasksOk, TablesOk, OpsOk, StraysOk, IdsOk, CalmFor;
      DesireKeepsTasks(tasks, Surroundings(), d, row);
      RowKeepsRegistry(rows, issued, raced, d, row);
      rows := rows[d := row];
    }

    method SetDesired(d: DeviceId, desired: bool)
      requires Valid() && d in rows
      requires desired ==> CalmFor(tasks, recoveries, d)
      modifies `rows
      ensures Valid()
      ensures rows == old(rows)[d := old(rows)[d].(desired := desired)]
    {
      RegisteredRow(rows, issued, raced, d);
      hide LockOk, CachesOk, RegistryOk, TasksOk, TablesOk, OpsOk, StraysOk, IdsOk, CalmFor;
      UpdateRow(d, rows[d].(desired := desired));
    }

    /** Lets a device own the adapter. */
    method TakeOwnership(d: DeviceId)
      requires Valid() && (owner == None || owner == Some(d))
      modifies `owner
      ensures Valid() && owner == Some(d)
    {
      OwnerKeepsTasks(tasks, Surroundings(), d);
      hide LockOk, CachesOk, RegistryOk, TasksOk, TablesOk, OpsOk, StraysOk, IdsOk;
      owner := Some(d);
    }

    /** Records what a discovery found, before either cache is refilled. */
    method Issue(list: seq<Candidate>)
      requires Valid() && NewIds(issued, list)
      modifies `issued
      ensures Valid() && issued == old(issued) + ById(list)
      ensures Within(ById(list), issued)
    {
      hide LockOk, CachesOk, RegistryOk, TasksOk, TablesOk, OpsOk, StraysOk, IdsOk, Held, ById;
      IssueKeepsCaches(Held(tasks, lock), known, issued, candidates, list);
      IssueKeepsTasks(tasks, Surroundings(), issued + ById(list));
      issued := issued + ById(list);
    }

    /** A user task may be started: nothing is pending for its device, and who connects owns the adapter. */
    ghost predicate CanStart(role: Role, op: Op)
      reads this
    {
      && closer.Open? && IsUser(role)
      && op == Op(op.kind, op.device, Queued, true, nextTask) && OpMatches(role, op)
      && OpOf(Task(role, Fresh(false), false)) == Some(nextOp)
      && (role.UserOp? ==> role.device in rows && NotPending(ops, active, role.device))
      && (role.UserOp? && role.action != Disconnect ==> owner == Some(role.device))
      && (role.UserOp? && role.action == Disconnect ==> !rows[role.device].desired)
    }

    /** Adds a user task with a queued operation of its own. */
    method StartUserTask(role: Role, op: Op)
      requires Valid() && CanStart(role, op)
      modifies `tasks, `ops, `active, `nextTask, `nextOp
      ensures Valid()
      ensures tasks == old(tasks)[old(nextTask) := Task(role, Fresh(false), false)] && old(nextTask) !in old(tasks)
      ensures ops == old(ops)[old(nextOp) := op] && old(nextOp) !in old(ops)
      ensures active == if role.UserOp? then old(active)[role.device := old(nextOp)] else old(active)
    {
      hide LockOk, CachesOk, RegistryOk, TasksOk, TablesOk, OpsOk, StraysOk, IdsOk, Held, AdministrationService.CanStart;
      var task := Task(role, Fresh(false), false);
      ghost var e := Surroundings();
      UserTaskFits(this, role, op);
      active := if role.UserOp? then active[role.device := nextOp] else active;
      ops := ops[nextOp := op];
      tasks := tasks[nextTask := task];
      nextTask, nextOp := nextTask + 1, nextOp + 1;
      assert Surroundings() == e.(ops := ops);
    }

    /** A recovery task begins an operation of its own. */
    method StartRecoveryOperation(t: TaskId, pc: Pc)
      requires Valid() && Live(tasks, t) && tasks[t].role.Recovery? && WorkOf(tasks[t].pc).None?
      requires WorkOf(pc).Some? && WorkOf(pc).value.op == nextOp && !Holds(pc)
      requires PlaceOk(tasks[t].(pc := pc), rows, issued, raced)
      modifies `tasks, `ops, `nextOp
      ensures Valid()
      ensures tasks == Moved(old(tasks), t, pc)
      ensures ops == old(ops)[old(nextOp) := RecoveryOp(t, old(tasks)[t].role.recovered)] && old(nextOp) !in old(ops)
    {
      ghost var e := Surroundings();
      hide LockOk, CachesOk, RegistryOk, TasksOk, TaskOk, TablesOk, OpsOk, StraysOk, IdsOk, PlaceOk, WorkOf;
      RecoverKeepsRest(tasks, e, active, nextTask, nextOp, t, pc);
      NotHolding(tasks, lock, t);
      MoveKeepsLock(tasks, lock, t, pc);
      ops := ops[nextOp := Op(LinkKind(Reconnect), Some(tasks[t].role.recovered), Running, false, t)];
      tasks := tasks[t := tasks[t].(pc := pc)];
      nextOp := nextOp + 1;
      assert Surroundings() == e.(ops := ops);
    }

    /** A finished disconnect gives up the adapter, whoever owns it by then. */
    method ReleaseOwnership(t: TaskId)
      requires Valid() && Live(tasks, t) && tasks[t].pc.Disconnecting?
      modifies `owner, `raced
      ensures Valid() && owner == None
      ensures raced == (old(raced) || Overlaps(old(owner), tasks[t].pc.w.device))
    {
      hide LockOk, CachesOk, RegistryOk, TasksOk, TablesOk, OpsOk, StraysOk, IdsOk;
      ghost var e := Surroundings();
      ReleaseKeepsTasks(tasks, e, active, t);
      raced := raced || (owner.Some? && owner.value != tasks[t].pc.w.device);
      owner := None;
      assert Surroundings() == e.(owner := owner, raced := raced);
    }

    /** Cancels a group of tasks and enters the next stage of closing. */
    method EnterStage(group: set<TaskId>, fewerRecoveries: Table, fewerPolls: Table)
      requires Valid() && StageOf(closer) < 4
      requires Shrunk(fewerRecoveries, recoveries) && Shrunk(fewerPolls, polls)
      requires forall d :: d in recoveries ==> (d in fewerRecoveries <==> recoveries[d] !in group)
      requires forall d :: d in polls ==> (d in fewerPolls <==> polls[d] !in group)
      requires StageOf(closer) < 2 ==> forall t :: t in group && t in tasks ==> !tasks[t].role.Recovery?
      requires forall t :: t in tasks ==>
                 StageOk(t, AllCancelled(tasks, group)[t], Closing(StageOf(closer) + 1, group))
      modifies `tasks, `recoveries, `polls, `closer
      ensures Valid()
      ensures closer == Closing(StageOf(old(closer)) + 1, group)
      ensures tasks == AllCancelled(old(tasks), group) && recoveries == fewerRecoveries && polls == fewerPolls
    {
      hide LockOk, CachesOk, RegistryOk, TasksOk, TablesOk, OpsOk, StraysOk, IdsOk, StageOk, Held, AllCancelled;
      ghost var e := Surroundings();
      var next := Closing(StageOf(closer) + 1, group);
      ghost var f := e.(recoveries := fewerRecoveries, polls := fewerPolls, closer := next);
      AllCancelledKeepsLock(tasks, lock, group);
      AllCancelledKeepsTables(tasks, recoveries, polls, group, fewerRecoveries, fewerPolls);
      AllCancelledKeepsTasks(tasks, e, group, f);
      AllCancelledKeepsOps(tasks, ops, active, closer, group, next);
      AllCancelledKeepsStrays(tasks, ops, active, closer, group, next);
      AllCancelledKeepsIds(tasks, ops, nextTask, nextOp, group);
      CancelAll(group);
      recoveries, polls, closer := fewerRecoveries, fewerPolls, next;
      assert Surroundings() == f;
    }

    // ---------- Requests ----------

    /** A second request of the same kind gets the pending operation back; any other is refused unchanged. */
    method StartConnectionOperation(d: DeviceId, action: Action) returns (r: Result<OpId, ServiceError>)
      requires Valid()
      modifies `tasks, `ops, `active, `rows, `owner, `nextTask, `nextOp
      ensures Valid()
      ensures d !in old(rows) ==> r == Err(NotFound)
      ensures d in old(rows) && !closer.Open? ==> r == Err(Stopping)
      ensures d in old(rows) && closer.Open? && old(Busy(d)) ==>
                r == if old(ops[active[d]].kind == LinkKind(action)) then Ok(old(active)[d]) else Err(InProgress)
      ensures d in old(rows) && closer.Open? && !old(Busy(d)) ==>
                r == if action != Disconnect && old(owner) != None && old(owner) != Some(d) then Err(OwnedByAnother)
                     else Ok(old(nextOp))
      ensures r == Ok(old(nextOp)) && !old(Busy(d)) ==>
                ops == old(ops)[old(nextOp) := Op(LinkKind(action), Some(d), Queued, true, old(nextTask))]
                && tasks == old(tasks)[old(nextTask) := Task(UserOp(old(nextOp), d, action), Fresh(false), false)]
                && active == old(active)[d := old(nextOp)] && old(nextOp) !in old(ops) && old(nextTask) !in old(tasks)
                && rows == old(rows)[d := old(rows)[d].(desired := action != Disconnect)]
                && owner == if action == Disconnect then old(owner) else Some(d)
      ensures r.Err? || old(Busy(d)) ==>
                ops == old(ops) && tasks == old(tasks) && active == old(active) && rows == old(rows) && owner == old(owner)
    {
      hide LockOk, CachesOk, RegistryOk, TasksOk, TablesOk, OpsOk, StraysOk, IdsOk;
      ActiveIsKnown(tasks, ops, active, closer, d);
      if d !in rows {
        return Err(NotFound);
      }
      if !closer.Open? {
        return Err(Stopping);
      }
      if Busy(d) {
        return if ops[active[d]].kind == LinkKind(action) then Ok(active[d]) else Err(InProgress);
      }
      if action != Disconnect && owner != None && owner != Some(d) {
        return Err(OwnedByAnother);
      }
      r := Ok(nextOp);
      AcceptOperation(d, action);
    }

    /** Records the wish, takes the adapter if it is to be used, and starts the task of the operation. */
    method AcceptOperation(d: DeviceId, action: Action)
      requires Valid() && d in rows && closer.Open? && !Busy(d)
      requires action != Disconnect ==> owner == None || owner == Some(d)
      modifies `tasks, `ops, `active, `rows, `owner, `nextTask, `nextOp
      ensures Valid()
      ensures ops == old(ops)[old(nextOp) := Op(LinkKind(action), Some(d), Queued, true, old(nextTask))]
      ensures tasks == old(tasks)[old(nextTask) := Task(UserOp(old(nextOp), d, action), Fresh(false), false)]
      ensures active == old(active)[d := old(nextOp)] && old(nextOp) !in old(ops) && old(nextTask) !in old(tasks)
      ensures rows == old(rows)[d := old(rows)[d].(desired := action != Disconnect)]
      ensures owner == if action == Disconnect then old(owner) else Some(d)
    {
      hide LockOk, CachesOk, RegistryOk, TasksOk, TablesOk, OpsOk, StraysOk, IdsOk, CalmFor;
      ActiveIsKnown(tasks, ops, active, closer, d);
      NoUserTask(tasks, Surroundings(), active, d);
      if action != Disconnect {
        TakeOwnership(d);
      }
      SetDesired(d, action != Disconnect);
      StartUserTask(UserOp(nextOp, d, action), Op(LinkKind(action), Some(d), Queued, true, nextTask));
    }

    /** The active operation of the device is still pending. */
    predicate Busy(d: DeviceId)
      requires Valid()
      reads this
    {
      d in active && Pending(ops[active[d]].status)
    }

    /** A pending scan among the listed operations is returned instead of starting another. */
    method StartScan(listed: set<OpId>) returns (r: Result<OpId, ServiceError>)
      requires Valid() && listed <= ops.Keys
      modifies `tasks, `ops, `active, `nextTask, `nextOp
      ensures Valid() && active == old(active)
      ensures !closer.Open? ==> r == Err(Stopping)
      ensures closer.Open? && (exists o :: o in listed && PendingScan(old(ops), o)) ==>
                r.Ok? && r.value in listed && PendingScan(old(ops), r.value) && ops == old(ops) && tasks == old(tasks)
      ensures closer.Open? && (forall o :: o in listed ==> !PendingScan(old(ops), o)) ==>
                r == Ok(old(nextOp)) && old(nextOp) !in old(ops)
                && ops == old(ops)[old(nextOp) := Op(ScanKind, None, Queued, true, old(nextTask))]
                && tasks == old(tasks)[old(nextTask) := Task(UserScan(old(nextOp)), Fresh(false), false)]
      ensures r.Err? ==> ops == old(ops) && tasks == old(tasks)
    {
      if !closer.Open? {
        return Err(Stopping);
      }
      var left := listed;
      while left != {}
        invariant left <= listed
        invariant forall o :: o in listed - left ==> !PendingScan(ops, o)
        decreases |left|
      {
        var o :| o in left;
        if ops[o].kind == ScanKind && (ops[o].status == Queued || ops[o].status == Running) {
          return Ok(o);
        }
        left := left - {o};
      }
      assert forall o :: o in listed ==> o in listed - left;
      r := Ok(nextOp);
      StartUserTask(UserScan(nextOp), Op(ScanKind, None, Queued, true, nextTask));
    }

    /** Registers a candidate that is still cached, unless its identity or device is registered. */
    method Register(id: nat, device: DeviceId, auto: bool) returns (r: Result<Row, ServiceError>)
      requires Valid()
      modifies `rows
      ensures Valid()
      ensures id !in candidates ==> r == Err(NoLongerAvailable)
      ensures id in candidates ==>
                (r == Err(AlreadyRegistered) <==>
                 device in old(rows)
                 || (candidates[id].identity.Some?
                     && exists d :: d in old(rows) && old(rows)[d].identity == candidates[id].identity))
      ensures r.Ok? ==> r.value == Row(id, candidates[id].identity, false, auto) && rows == old(rows)[device := r.value]
      ensures r.Err? ==> rows == old(rows)
    {
      hide LockOk, TasksOk, RegistryOk, CachesOk, TablesOk, OpsOk, StraysOk, IdsOk;
      if id !in candidates {
        return Err(NoLongerAvailable);
      }
      var identity := candidates[id].identity;
      if identity.Some? && (exists d :: d in rows && rows[d].identity == identity) {
        return Err(AlreadyRegistered);
      }
      if device in rows {
        return Err(AlreadyRegistered);
      }
      var row := Row(id, identity, false, auto);
      RegistryGrows(Held(tasks, lock), known, rows, issued, raced, candidates, device, row);
      RegisterKeepsTasks(tasks, Surroundings(), device, row);
      rows := rows[device := row];
      r := Ok(row);
    }

    /** Selects another cached candidate for a device that does not own the adapter. */
    method SelectIdentity(d: DeviceId, id: nat) returns (r: Result<Row, ServiceError>)
      requires Valid()
      modifies `rows
      ensures Valid()
      ensures owner == Some(d) ==> r == Err(StillOwner)
      ensures owner != Some(d) && id !in candidates ==> r == Err(NoLongerAvailable)
      ensures owner != Some(d) && id in candidates ==>
                (r == Err(AlreadyRegistered) <==>
                 candidates[id].identity.Some?
                 && exists e :: e in old(rows) && e != d && old(rows)[e].identity == candidates[id].identity)
      ensures r.Ok? ==> d in old(rows)
                        && r.value == old(rows)[d].(discovery := id, identity := candidates[id].identity)
                        && rows == old(rows)[d := r.value]
      ensures r.Err? ==> rows == old(rows)
    {
      hide LockOk, TasksOk, RegistryOk, CachesOk, TablesOk, OpsOk, StraysOk, IdsOk;
      if owner == Some(d) {
        return Err(StillOwner);
      }
      if id !in candidates {
        return Err(NoLongerAvailable);
      }
      var identity := candidates[id].identity;
      if identity.Some? && (exists e :: e in rows && e != d && rows[e].identity == identity) {
        return Err(AlreadyRegistered);
      }
      if d !in rows {
        return Err(NotFound);
      }
      var row := rows[d].(discovery := id, identity := identity);
      RegistryGrows(Held(tasks, lock), known, rows, issued, raced, candidates, d, row);
      SelectKeepsTasks(tasks, Surroundings(), d, row);
      rows := rows[d := row];
      r := Ok(row);
    }

    method SetAutomaticReconnection(d: DeviceId, auto: bool) returns (r: Result<Row, ServiceError>)
      requires Valid()
      modifies `rows
      ensures Valid()
      ensures r == if d in old(rows) then Ok(old(rows)[d].(auto := auto)) else Err(NotFound)
      ensures rows == if d in old(rows) then old(rows)[d := old(rows)[d].(auto := auto)] else old(rows)
    {
      if d !in rows {
        return Err(NotFound);
      }
      UpdateRow(d, rows[d].(auto := auto));
      r := Ok(rows[d]);
    }

    // ---------- The lock ----------

    /** Takes the free lock and goes on to what the task wanted it for. */
    method Acquire(t: TaskId)
      requires Valid() && Live(tasks, t) && lock == None
      requires tasks[t].pc.WantsScan? || tasks[t].pc.WantsRead? || tasks[t].pc.WantsRelease?
               || tasks[t].pc.WantsDisconnect? || tasks[t].pc.WantsConnect?
      modifies `tasks, `lock, `ops, `known
      ensures Valid() && OpsMove(old(ops), ops)
      ensures lock == Some(t) && known == old(known)
      ensures tasks == Moved(old(tasks), t, WithLock(old(tasks)[t].pc, candidates))
      ensures ops == WithStatus(old(ops), OpOf(old(tasks)[t]), Running)
    {
      hide LockOk, TasksOk, RegistryOk, CachesOk, TablesOk, OpsOk, StraysOk, IdsOk, OpsMove, CanMove;
      hide Moved, WithStatus, OpOf, Holds;
      var pc :=
        match tasks[t].pc
        case WantsScan => Scanning
        case WantsRead => PollReading
        case WantsRelease(w) => Releasing(w)
        case WantsDisconnect(w) => Disconnecting(w)
        case WantsConnect(w) =>
          // A reconnect of a known identity never trusts a candidate found before it.
          if (w.action == Reconnect && w.row.identity.Some?) || w.row.discovery !in candidates then Resolving(w, false)
          else Chosen(w, candidates[w.row.discovery]);
      assert pc == WithLock(tasks[t].pc, candidates);
      hide WithLock;
      AcquireCanMove(tasks, lock, known, candidates, Surroundings(), t);
      ExecutingMovesOps(tasks, Surroundings(), t, Running);
      Proceed(t, pc, known);
    }

    // ---------- Scans ----------

    /** A user scan begins, or the background scan has slept. */
    method ScanBegins(t: TaskId)
      requires Valid() && Live(tasks, t)
      requires (tasks[t].role.UserScan? && tasks[t].pc.Fresh?) || (tasks[t].role.Background? && tasks[t].pc == Asleep)
      modifies `tasks, `lock, `ops, `known
      ensures Valid() && OpsMove(old(ops), ops)
      ensures tasks == Moved(old(tasks), t, WantsScan) && lock == old(lock) && known == old(known)
      ensures ops == WithStatus(old(ops), OpOf(old(tasks)[t]), Running)
    {
      hide LockOk, TasksOk, RegistryOk, CachesOk, TablesOk, OpsOk, StraysOk, IdsOk, OpsMove, CanMove;
      NotHolding(tasks, lock, t);
      WaitingCanMove(tasks, lock, known, candidates, Surroundings(), t, WantsScan);
      ExecutingMovesOps(tasks, Surroundings(), t, Running);
      Proceed(t, WantsScan, known);
    }

    /** The adapter returns from a scan with its own cache refilled; the lock is still held. */
    method ScanReturns(t: TaskId, list: seq<Candidate>)
      requires Valid() && Live(tasks, t) && tasks[t].pc.Scanning? && NewIds(issued, list)
      modifies `tasks, `lock, `ops, `known, `issued
      ensures Valid() && OpsMove(old(ops), ops)
      ensures tasks == Moved(old(tasks), t, Found(list)) && lock == Some(t) && known == ById(list)
      ensures ops == WithStatus(old(ops), OpOf(old(tasks)[t]), Running)
    {
      Issue(list);
      FoundCanMove(tasks, lock, known, candidates, Surroundings(), t, Found(list));
      ExecutingMovesOps(tasks, Surroundings(), t, Running);
      hide LockOk, TasksOk, RegistryOk, CachesOk, TablesOk, OpsOk, StraysOk, IdsOk, OpsMove, CanMove, CanConclude;
      Proceed(t, Found(list), ById(list));
    }

    /** The background scan sleeps again unless the service is closing. */
    method ScannedPlace(role: Role) returns (pc: Pc)
      ensures pc == AfterScan(role, closer)
    {
      pc := if role.Background? && closer.Open? then Asleep else Ended;
    }

    /** The service replaces its cache as the scan ends; the background scan goes back to sleep. */
    method ScanPublishes(t: TaskId)
      requires Valid() && Active(tasks, t) && tasks[t].pc.Found?
      modifies `tasks, `lock, `ops, `recoveries, `polls, `candidates
      ensures Valid() && OpsMove(old(ops), ops)
      ensures candidates == ById(old(tasks)[t].pc.list) == known && lock == None
      ensures tasks == Moved(old(tasks), t, AfterScan(old(tasks)[t].role, closer))
      ensures ops == WithStatus(old(ops), OpOf(old(tasks)[t]), Succeeded)
      ensures recoveries == old(recoveries) && polls == old(polls)
    {
      hide LockOk, TasksOk, RegistryOk, CachesOk, TablesOk, OpsOk, StraysOk, IdsOk;
      hide OpsMove, CanMove, CanConclude, Executing;
      Publish(t);
      ScanCanConclude(tasks, lock, known, candidates, Surroundings(), t, Succeeded);
      ExecutingMovesOps(tasks, Surroundings(), t, Succeeded);
      NotInTables(tasks, recoveries, polls, t);
      var pc := ScannedPlace(tasks[t].role);
      Conclude(t, pc, Some(Succeeded));
    }

    /** The holder of the lock replaces the service's cache by what the adapter returned. */
    method Publish(t: TaskId)
      requires Valid() && Active(tasks, t) && Midway(tasks[t].pc)
      modifies `candidates
      ensures Valid() && candidates == ById(tasks[t].pc.list) == known && lock == Some(t)
    {
      hide LockOk, TasksOk, RegistryOk, CachesOk, TablesOk, OpsOk, StraysOk, IdsOk, Held, ById;
      PublishKeepsCaches(tasks, lock, known, issued, candidates, t);
      candidates := ById(tasks[t].pc.list);
    }

    /** A scan that raised changes neither cache. */
    method ScanRaises(t: TaskId)
      requires Valid() && Live(tasks, t) && tasks[t].pc.Scanning?
      modifies `tasks, `lock, `ops, `recoveries, `polls
      ensures Valid() && OpsMove(old(ops), ops)
      ensures lock == None
      ensures tasks == Moved(old(tasks), t, AfterScan(old(tasks)[t].role, closer))
      ensures ops == WithStatus(old(ops), OpOf(old(tasks)[t]), Failed)
      ensures recoveries == old(recoveries) && polls == old(polls)
    {
      hide LockOk, TasksOk, RegistryOk, CachesOk, TablesOk, OpsOk, StraysOk, IdsOk, OpsMove, CanConclude;
      hide Moved, WithStatus, OpOf, Discarded, AfterScan, Holds;
      ScanCanConclude(tasks, lock, known, candidates, Surroundings(), t, Failed);
      ExecutingMovesOps(tasks, Surroundings(), t, Failed);
      NotInTables(tasks, recoveries, polls, t);
      var pc := ScannedPlace(tasks[t].role);
      Conclude(t, pc, Some(Failed));
    }

    // ---------- Connection operations ----------

    /** First step of a user operation: it runs, and stops a recovery of its device if there is one. */
    method OperationBegins(t: TaskId, linkUp: bool)
      requires Valid() && Live(tasks, t) && tasks[t].role.UserOp? && tasks[t].pc.Fresh?
      modifies `tasks, `lock, `ops, `known, `recoveries, `polls, `rows
      ensures Valid() && OpsMove(old(ops), ops) && lock == old(lock) && known == old(known)
      ensures tasks.Keys == old(tasks).Keys && tasks[t] == old(tasks)[t].(pc := tasks[t].pc)
      ensures rows.Keys == old(rows).Keys
      ensures ops == WithStatus(old(ops), OpOf(old(tasks)[t]), if tasks[t].pc == Ended then Succeeded else Running)
      ensures var d := old(tasks)[t].role.device;
              d in old(rows)
              && (d in old(recoveries) ==>
                    tasks[t].pc == AwaitsRecovery(NewWork(old(tasks)[t].role, old(rows)), old(recoveries)[d])
                    && old(recoveries)[d] in tasks && tasks[old(recoveries)[d]].cancelled && d !in recoveries)
              && (d !in old(recoveries) ==>
                    tasks[t].pc == AfterRecovery(NewWork(old(tasks)[t].role, old(rows)), old(polls), connected, owner, linkUp))
    {
      hide LockOk, TasksOk, RegistryOk, CachesOk, TablesOk, OpsOk, StraysOk, IdsOk;
      hide OpsMove, CanMove, CanConclude, Executing;
      BeginsExecuting(tasks, Surroundings(), t);
      var role := tasks[t].role;
      var w := Work(role.started, role.device, role.action, rows[role.device], false);
      if w.device in recoveries {
        ExecutingMovesOps(tasks, Surroundings(), t, Running);
        StoppedRecovery(tasks, Surroundings(), t, w.device, AwaitsRecovery(w, recoveries[w.device]));
        ExecutesIts(tasks, Surroundings(), t, w);
        hide Moved, WithCancelled, Without;
        StopRecovery(t, w);
      } else {
        Dispatch(t, w, linkUp);
      }
    }

    /** The awaited recovery has ended. */
    method RecoveryStopped(t: TaskId, linkUp: bool)
      requires Valid() && Live(tasks, t) && tasks[t].pc.AwaitsRecovery? && !Active(tasks, tasks[t].pc.other)
      modifies `tasks, `lock, `ops, `known, `recoveries, `polls, `rows
      ensures Valid() && OpsMove(old(ops), ops) && lock == old(lock) && known == old(known)
      ensures tasks.Keys == old(tasks).Keys
      ensures tasks[t].pc == AfterRecovery(old(tasks)[t].pc.w, old(polls), connected, owner, linkUp)
      ensures ops == WithStatus(old(ops), OpOf(old(tasks)[t]), if tasks[t].pc == Ended then Succeeded else Running)
    {
      StillExecuting(tasks, Surroundings(), t);
      hide LockOk, TasksOk, RegistryOk, CachesOk, TablesOk, OpsOk, StraysOk, IdsOk;
      hide OpsMove, CanMove, CanConclude, Executing;
      Dispatch(t, tasks[t].pc.w, linkUp);
    }

    /** Continues an operation once no recovery of its device is left. */
    method Dispatch(t: TaskId, w: Work, linkUp: bool)
      requires Valid() && Executing(tasks, Surroundings(), t, w) && t in tasks && tasks[t].role.UserOp?
      requires w.action == Disconnect ==> w.device !in recoveries
      modifies `tasks, `lock, `ops, `known, `recoveries, `polls, `rows
      ensures Valid() && OpsMove(old(ops), ops) && lock == old(lock) && known == old(known) && recoveries == old(recoveries)
      ensures tasks.Keys == old(tasks).Keys && rows.Keys == old(rows).Keys
      ensures tasks[t] == old(tasks)[t].(pc := AfterRecovery(w, old(polls), connected, owner, linkUp))
      ensures ops == WithStatus(old(ops), OpOf(old(tasks)[t]), if tasks[t].pc == Ended then Succeeded else Running)
      ensures w.action != Connect && w.device in old(polls) ==>
                polls == Without(old(polls), w.device)
                && old(polls)[w.device] in tasks && tasks[old(polls)[w.device]].cancelled
    {
      hide AdministrationService.Valid, OpsMove, CanMove, CanConclude, Executing;
      if w.action == Connect {
        if connected == Some(w.device) && linkUp {
          FinishEarly(t, w);
        } else {
          GoesToConnect(this, t, w);
          Proceed(t, WantsConnect(w), known);
        }
      } else if w.device in polls {
        StopPolling(t, w);
      } else {
        PollingGone(t, w);
      }
    }

    /** Nothing has to be done for the operation. */
    method FinishEarly(t: TaskId, w: Work)
      requires Valid() && Executing(tasks, Surroundings(), t, w) && t in tasks && tasks[t].role.UserOp?
      modifies `tasks, `lock, `ops, `recoveries, `polls
      ensures Valid() && OpsMove(old(ops), ops) && lock == old(lock)
      ensures recoveries == old(recoveries) && polls == old(polls)
      ensures tasks == Moved(old(tasks), t, Ended)
      ensures ops == WithStatus(old(ops), OpOf(old(tasks)[t]), Succeeded)
    {
      hide LockOk, TasksOk, RegistryOk, CachesOk, TablesOk, OpsOk, StraysOk, IdsOk, OpsMove, CanConclude;
      ExecutingCanEnd(tasks, lock, known, candidates, Surroundings(), t, w);
      ExecutingMovesOps(tasks, Surroundings(), t, Succeeded);
      NotInTables(tasks, recoveries, polls, t);
      Conclude(t, Ended, Some(Succeeded));
    }

    /** Cancels the polling of the operation's device and waits for it to end. */
    method StopPolling(t: TaskId, w: Work)
      requires Valid() && Executing(tasks, Surroundings(), t, w) && w.action != Connect && w.device in polls
      requires w.action == Disconnect ==> w.device !in recoveries
      modifies `tasks, `lock, `ops, `known, `polls
      ensures Valid() && OpsMove(old(ops), ops) && lock == old(lock) && known == old(known)
      ensures t in old(tasks) && old(polls)[w.device] in old(tasks)
      ensures tasks == Moved(WithCancelled(old(tasks), old(polls)[w.device]), t, AwaitsPoll(w, old(polls)[w.device]))
      ensures tasks[t] == old(tasks)[t].(pc := AwaitsPoll(w, old(polls)[w.device]))
      ensures tasks[old(polls)[w.device]].cancelled
      ensures ops == WithStatus(old(ops), OpOf(old(tasks)[t]), Running)
      ensures polls == Without(old(polls), w.device)
    {
      hide LockOk, TasksOk, RegistryOk, CachesOk, TablesOk, OpsOk, StraysOk, IdsOk;
      hide OpsMove, CanMove, CanConclude, Executing;
      CancelKeepsExecuting(tasks, Surroundings(), t, w);
      ghost var e := Surroundings();
      hide WithCancelled, Without;
      var p := CancelPoll(w.device);
      assert Surroundings() == e.(polls := polls);
      ExecutingCanMove(tasks, lock, known, candidates, Surroundings(), t, w, AwaitsPoll(w, p));
      ExecutingMovesOps(tasks, Surroundings(), t, Running);
      Proceed(t, AwaitsPoll(w, p), known);
    }

    /** The awaited polling task has ended. */
    method PollingStopped(t: TaskId)
      requires Valid() && Live(tasks, t) && tasks[t].pc.AwaitsPoll? && !Active(tasks, tasks[t].pc.other)
      modifies `tasks, `lock, `ops, `known, `recoveries, `polls, `rows
      ensures Valid() && OpsMove(old(ops), ops) && lock == old(lock) && known == old(known)
      ensures recoveries == old(recoveries) && polls == old(polls)
      ensures tasks == Moved(old(tasks), t, AfterPolling(old(tasks)[t].pc.w, owner))
      ensures ops == WithStatus(old(ops), OpOf(old(tasks)[t]), if tasks[t].pc == Ended then Succeeded else Running)
    {
      assert old(tasks)[t].pc.w.action != Connect by {
        assert TaskOk(t, tasks[t], Surroundings());
      }
      StillExecuting(tasks, Surroundings(), t);
      hide LockOk, TasksOk, RegistryOk, CachesOk, TablesOk, OpsOk, StraysOk, IdsOk, OpsMove, Executing;
      PollingGone(t, tasks[t].pc.w);
    }

    /** A reconnect releases the link first; a disconnect has nothing to do for a device that does not own the adapter. */
    method UnpolledPlace(w: Work) returns (pc: Pc)
      ensures pc == AfterPolling(w, owner)
    {
      pc := if w.action == Reconnect then WantsRelease(w)
            else if owner.None? || owner.value == w.device then WantsDisconnect(w)
            else Ended;
    }

    /** Continues a disconnect or reconnect once no polling of its device is left. */
    method PollingGone(t: TaskId, w: Work)
      requires Valid() && Executing(tasks, Surroundings(), t, w) && w.action != Connect
      requires w.action == Disconnect ==> t in tasks && tasks[t].role.UserOp?
      requires w.action == Disconnect ==> w.device !in recoveries && w.device !in polls
      modifies `tasks, `lock, `ops, `known, `recoveries, `polls, `rows
      ensures Valid() && OpsMove(old(ops), ops) && lock == old(lock) && known == old(known) && t in old(tasks)
      ensures recoveries == old(recoveries) && polls == old(polls)
      ensures tasks == Moved(old(tasks), t, AfterPolling(w, owner))
      ensures ops == WithStatus(old(ops), OpOf(old(tasks)[t]), if tasks[t].pc == Ended then Succeeded else Running)
      ensures AfterPolling(w, owner) == Ended ==>
                w.device in old(rows) && rows == old(rows)[w.device := old(rows)[w.device].(desired := false)]
      ensures AfterPolling(w, owner) != Ended ==> rows == old(rows)
    {
      hide LockOk, TasksOk, RegistryOk, CachesOk, TablesOk, OpsOk, StraysOk, IdsOk;
      hide OpsMove, CanMove, CanConclude, Executing;
      var pc := UnpolledPlace(w);
      if pc == Ended {
        DesireKeepsExecuting(tasks, Surroundings(), t, w);
        ghost var e := Surroundings();
        SetDesired(w.device, false);
        assert Surroundings() == e.(rows := rows);
        FinishEarly(t, w);
      } else {
        ExecutingCanMove(tasks, lock, known, candidates, Surroundings(), t, w, pc);
        ExecutingMovesOps(tasks, Surroundings(), t, Running);
        DesireKeepsExecuting(tasks, Surroundings(), t, w);
        Proceed(t, pc, known);
      }
    }

    /** The adapter released the link, the rescue of the link succeeded, or the link came up. */
    method GoesOn(t: TaskId)
      requires Valid() && Live(tasks, t) && (tasks[t].pc.Releasing? || tasks[t].pc.Rescuing? || tasks[t].pc.Chosen?)
      modifies `tasks, `lock, `ops, `known
      ensures Valid() && OpsMove(old(ops), ops)
      ensures tasks == Moved(old(tasks), t, Onward(old(tasks)[t].pc)) && known == old(known)
      ensures lock == if old(tasks)[t].pc.Releasing? then None else Some(t)
      ensures ops == WithStatus(old(ops), OpOf(old(tasks)[t]), Running)
    {
      hide LockOk, TasksOk, RegistryOk, CachesOk, TablesOk, OpsOk, StraysOk, IdsOk;
      hide OpsMove, CanMove, CanConclude, Executing;
      var pc :=
        match tasks[t].pc
        case Releasing(w) => WantsConnect(w)
        case Rescuing(w) => Resolving(w, true)
        case Chosen(w, c) => Reading(w, c);
      HoldingCanMove(tasks, lock, known, candidates, Surroundings(), t);
      ExecutingMovesOps(tasks, Surroundings(), t, Running);
      Proceed(t, pc, known);
    }

    /** A discovery for an operation returns with the adapter's cache refilled. */
    method DiscoveryReturns(t: TaskId, list: seq<Candidate>)
      requires Valid() && Live(tasks, t) && tasks[t].pc.Resolving? && NewIds(issued, list)
      modifies `tasks, `lock, `ops, `known, `issued
      ensures Valid() && OpsMove(old(ops), ops)
      ensures tasks == Moved(old(tasks), t, Resolved(old(tasks)[t].pc.w, list, old(tasks)[t].pc.again))
      ensures lock == Some(t) && known == ById(list)
    {
      hide LockOk, TasksOk, RegistryOk, CachesOk, TablesOk, OpsOk, StraysOk, IdsOk;
      hide OpsMove, CanMove, CanConclude, Executing;
      Issue(list);
      var pc := Resolved(tasks[t].pc.w, list, tasks[t].pc.again);
      FoundCanMove(tasks, lock, known, candidates, Surroundings(), t, pc);
      ExecutingMovesOps(tasks, Surroundings(), t, Running);
      Proceed(t, pc, ById(list));
    }

    /**
     The service replaces its cache and looks for the registered identity in what was found:
     it connects to that, or tries once to rescue the link, or fails.
     */
    method ResolutionPublishes(t: TaskId)
      requires Valid() && Active(tasks, t) && tasks[t].pc.Resolved?
      modifies `tasks, `lock, `ops, `known, `recoveries, `polls, `candidates, `rows, `nextTask
      ensures Valid() && OpsMove(old(ops), ops)
      ensures candidates == ById(old(tasks)[t].pc.list) == known == old(known) && t in tasks
      ensures tasks[t].pc.Chosen? || tasks[t].pc.Rescuing? || tasks[t].pc == Asleep || tasks[t].pc == Ended
      ensures var w := old(tasks)[t].pc.w;
              var list := old(tasks)[t].pc.list;
              w.device in old(rows)
              && (forall i :: 0 <= i < |list| && IsFirstWith(list, i, w.row.identity) ==>
                    tasks[t].pc == Chosen(w, list[i])
                    && rows == old(rows)[w.device := old(rows)[w.device].(discovery := list[i].id)])
              && (NoneWith(list, w.row.identity) && w.row.identity.Some? && !old(tasks)[t].pc.again ==>
                    tasks[t].pc == Rescuing(w) && rows == old(rows))
              && (NoneWith(list, w.row.identity) && !(w.row.identity.Some? && !old(tasks)[t].pc.again) ==>
                    rows == old(rows) && ops == WithStatus(old(ops), OpOf(old(tasks)[t]), Failed)
                    && tasks[t].pc == if Retrying(old(tasks)[t].role, closer, rows) then Asleep else Ended)
    {
      hide AdministrationService.Valid, OpsMove, CanMove, CanConclude, Executing;
      hide Match, WithStatus, OpOf, IsFirstWith, NoneWith;
      var w := tasks[t].pc.w;
      var again := tasks[t].pc.again;
      var c := LookUp(w, tasks[t].pc.list);
      Publish(t);
      MatchMoves(this, t);
      if c.Some? {
        ghost var e := Surroundings();
        var row := rows[w.device].(discovery := c.value.id);
        UpdateRow(w.device, row);
        assert Surroundings() == e.(rows := rows);
        Proceed(t, Chosen(w, c.value), known);
      } else if w.row.identity.Some? && !again {
        Proceed(t, Rescuing(w), known);
      } else {
        Fail(t);
      }
    }

    /** Goes through what was found for the first candidate with the registered identity. */
    static method LookUp(w: Work, list: seq<Candidate>) returns (c: Option<Candidate>)
      ensures c == Match(w, list)
      ensures forall i :: 0 <= i < |list| && IsFirstWith(list, i, w.row.identity) ==> c == Some(list[i])
      ensures c.None? <==> NoneWith(list, w.row.identity)
    {
      if w.row.identity.None? {
        return None;
      }
      FirstWithExactly(list, w.row.identity.value);
      for i := 0 to |list|
        invariant forall j :: 0 <= j < i ==> list[j].identity != w.row.identity
      {
        if list[i].identity == w.row.identity {
          assert IsFirstWith(list, i, w.row.identity);
          return Some(list[i]);
        }
      }
      return None;
    }

    /** An operation fails; a user operation that wanted a connection leaves the rest to recovery. */
    method Fail(t: TaskId)
      requires Valid() && Active(tasks, t) && CanFail(tasks[t].pc) && (tasks[t].pc.Resolved? ==> candidates == known)
      modifies `tasks, `lock, `ops, `recoveries, `polls, `nextTask
      ensures Valid() && OpsMove(old(ops), ops)
      ensures lock == None && polls == old(polls)
      ensures ops == WithStatus(old(ops), OpOf(old(tasks)[t]), Failed)
      ensures Failing(old(tasks)[t].role, closer, rows, old(recoveries)) ==>
                tasks == Moved(old(tasks), t, Ended)
                         [old(nextTask) := Task(Recovery(old(tasks)[t].role.device), Fresh(false), false)]
                && recoveries == old(recoveries)[old(tasks)[t].role.device := old(nextTask)]
                && old(nextTask) !in old(tasks)
      ensures !Failing(old(tasks)[t].role, closer, rows, old(recoveries)) ==>
                tasks == Moved(old(tasks), t, if Retrying(old(tasks)[t].role, closer, rows) then Asleep else Ended)
    {
      hide AdministrationService.Valid, OpsMove, CanMove, CanConclude, Executing, WithStatus, OpOf;
      if tasks[t].role.UserOp? {
        FailUser(t);
      } else {
        FailsAsRecovery(this, t);
        var role := tasks[t].role;
        var again := role.Recovery? && role.recovered in rows && closer.Open?
                     && rows[role.recovered].desired && rows[role.recovered].auto;
        Conclude(t, if again then Asleep else Ended, Some(Failed));
      }
    }

    method FailUser(t: TaskId)
      requires Valid() && Active(tasks, t) && CanFail(tasks[t].pc) && (tasks[t].pc.Resolved? ==> candidates == known)
      requires tasks[t].role.UserOp?
      modifies `tasks, `lock, `ops, `recoveries, `polls, `nextTask
      ensures Valid() && OpsMove(old(ops), ops)
      ensures lock == None && polls == old(polls)
      ensures ops == WithStatus(old(ops), OpOf(old(tasks)[t]), Failed)
      ensures Failing(old(tasks)[t].role, closer, rows, old(recoveries)) ==>
                tasks == Moved(old(tasks), t, Ended)
                         [old(nextTask) := Task(Recovery(old(tasks)[t].role.device), Fresh(false), false)]
                && recoveries == old(recoveries)[old(tasks)[t].role.device := old(nextTask)]
                && old(nextTask) !in old(tasks)
      ensures !Failing(old(tasks)[t].role, closer, rows, old(recoveries)) ==>
                tasks == Moved(old(tasks), t, Ended) && recoveries == old(recoveries)
    {
      hide AdministrationService.Valid, OpsMove, CanMove, CanConclude, Executing;
      hide CalmFor, WithStatus, OpOf;
      var d := tasks[t].role.device;
      var connecting := tasks[t].role.action != Disconnect;
      FailsAsUser(this, t);
      hide Discarded;
      Conclude(t, Ended, Some(Failed));
      if connecting {
        ScheduleRecovery(d);
      }
    }

    /** Starts a recovery if one is wanted and allowed and there is none yet. */
    method ScheduleRecovery(d: DeviceId)
      requires Valid() && d in rows && (raced || owner == Some(d))
      requires rows[d].desired ==> CalmFor(tasks, polls, d)
      modifies `tasks, `recoveries, `nextTask
      ensures Valid()
      ensures WantsRecovery(old(closer), rows[d], d, old(recoveries)) ==>
                tasks == old(tasks)[old(nextTask) := Task(Recovery(d), Fresh(false), false)]
                && recoveries == old(recoveries)[d := old(nextTask)] && old(nextTask) !in old(tasks)
      ensures !WantsRecovery(old(closer), rows[d], d, old(recoveries)) ==>
                tasks == old(tasks) && recoveries == old(recoveries)
    {
      if closer.Open? && rows[d].auto && rows[d].desired && d !in recoveries {
        hide LockOk, CachesOk, RegistryOk, TasksOk, TablesOk, OpsOk, StraysOk, IdsOk, CalmFor;
        StartRecovery(d, false);
      }
    }

    /** A step of the adapter raised while an operation was under the lock. */
    method StepRaises(t: TaskId)
      requires Valid() && Live(tasks, t) && CanFail(tasks[t].pc) && !tasks[t].pc.Resolved?
      modifies `tasks, `lock, `ops, `recoveries, `polls, `nextTask
      ensures Valid() && OpsMove(old(ops), ops)
      ensures lock == None && polls == old(polls)
      ensures ops == WithStatus(old(ops), OpOf(old(tasks)[t]), Failed)
      ensures Failing(old(tasks)[t].role, closer, rows, old(recoveries)) ==>
                tasks == Moved(old(tasks), t, Ended)
                         [old(nextTask) := Task(Recovery(old(tasks)[t].role.device), Fresh(false), false)]
                && recoveries == old(recoveries)[old(tasks)[t].role.device := old(nextTask)]
                && old(nextTask) !in old(tasks)
      ensures !Failing(old(tasks)[t].role, closer, rows, old(recoveries)) ==>
                tasks == Moved(old(tasks), t, if Retrying(old(tasks)[t].role, closer, rows) then Asleep else Ended)
    {
      Fail(t);
    }

    /** The first read of a new connection succeeded: the device is polled and the operation done. */
    method FirstRead(t: TaskId)
      requires Valid() && Live(tasks, t) && tasks[t].pc.Reading?
      modifies `tasks, `lock, `ops, `recoveries, `polls, `rows, `connected, `nextTask
      ensures Valid() && OpsMove(old(ops), ops)
      ensures lock == None && t in tasks && tasks[t].pc == Ended
      ensures ops == WithStatus(old(ops), OpOf(old(tasks)[t]), Succeeded)
      ensures var d := old(tasks)[t].pc.w.device;
              d in old(rows) && connected == Some(d) && (raced || owner == Some(d))
              && rows == old(rows)[d := old(rows)[d].(desired := true)]
              && d in polls && polls[d] !in old(tasks)
              && polls[d] in tasks && tasks[polls[d]] == Task(Poll(d), Fresh(false), false)
              && (d in old(polls) ==> old(polls)[d] in tasks && tasks[old(polls)[d]].cancelled)
    {
      hide AdministrationService.Valid, OpsMove, CanMove, CanConclude, Executing;
      hide CalmFor, WithStatus, OpOf;
      var d := tasks[t].pc.w.device;
      CameUp(this, t);
      Conclude(t, Ended, Some(Succeeded));
      BeginPolling(d);
    }

    /** The device is the connected one, is polled and is wanted. */
    method BeginPolling(d: DeviceId)
      requires Valid() && d in rows && (raced || owner == Some(d)) && CalmFor(tasks, recoveries, d) && StageOf(closer) < 4
      modifies `tasks, `polls, `rows, `connected, `nextTask
      ensures Valid() && connected == Some(d)
      ensures rows == old(rows)[d := old(rows)[d].(desired := true)]
      ensures d in polls && polls[d] !in old(tasks) && polls[d] in tasks
      ensures tasks[polls[d]] == Task(Poll(d), Fresh(false), false)
      ensures forall u :: u in old(tasks) ==> u in tasks && tasks[u].pc == old(tasks)[u].pc
      ensures d in old(polls) ==> old(polls)[d] in tasks && tasks[old(polls)[d]].cancelled
    {
      hide LockOk, TasksOk, RegistryOk, CachesOk, TablesOk, OpsOk, StraysOk, IdsOk, CalmFor;
      connected := Some(d);
      StartPolling(d);
      SetDesired(d, true);
    }

    /** Polls a device afresh, cancelling what polled it before. */
    method StartPolling(d: DeviceId)
      requires Valid() && d in rows && (raced || owner == Some(d)) && CalmFor(tasks, recoveries, d) && StageOf(closer) < 4
      modifies `tasks, `polls, `nextTask
      ensures Valid() && CalmFor(tasks, recoveries, d)
      ensures d in polls && polls[d] !in old(tasks) && polls[d] in tasks
      ensures tasks[polls[d]] == Task(Poll(d), Fresh(false), false)
      ensures forall u :: u in old(tasks) ==> u in tasks && tasks[u].role == old(tasks)[u].role && tasks[u].pc == old(tasks)[u].pc
      ensures d in old(polls) ==> old(polls)[d] in tasks && tasks[old(polls)[d]].cancelled
    {
      hide LockOk, TasksOk, RegistryOk, CachesOk, TablesOk, OpsOk, StraysOk, IdsOk;
      hide OpsMove, CanMove, CanConclude, Executing;
      hide CalmFor;
      if d in polls {
        ghost var before := tasks;
        var p := CancelPoll(d);
        PollKeepsCalm(before, recoveries, d, p, tasks[p]);
        NotIn(old(polls), d);
      }
      PollKeepsCalm(tasks, recoveries, d, nextTask, Task(Poll(d), Fresh(false), false));
      StartPoll(d);
    }

    /**
     The adapter has disconnected: the candidate, the connection and the ownership are given
     up, the ownership even if another device has come by it since.
     */
    method DisconnectDone(t: TaskId)
      requires Valid() && Live(tasks, t) && tasks[t].pc.Disconnecting?
      modifies `tasks, `lock, `ops, `recoveries, `polls, `rows, `candidates, `connected, `owner, `raced
      ensures Valid() && OpsMove(old(ops), ops)
      ensures lock == None && tasks == Moved(old(tasks), t, Ended)
      ensures ops == WithStatus(old(ops), OpOf(old(tasks)[t]), Succeeded)
      ensures recoveries == old(recoveries) && polls == old(polls)
      ensures var w := old(tasks)[t].pc.w;
              w.device in old(rows) && candidates == old(candidates) - {w.row.discovery}
              && connected == None && owner == None && raced == (old(raced) || Overlaps(old(owner), w.device))
              && rows == old(rows)[w.device := old(rows)[w.device].(desired := false)]
    {
      hide LockOk, TasksOk, RegistryOk, CachesOk, TablesOk, OpsOk, StraysOk, IdsOk;
      hide OpsMove, CanMove, CanConclude, Executing;
      GiveUp(t);
      DisconnectsForUser(tasks, Surroundings(), t);
      FailureCanConclude(tasks, lock, known, candidates, Surroundings(), t, Ended);
      ExecutingMovesOps(tasks, Surroundings(), t, Succeeded);
      NotInTables(tasks, recoveries, polls, t);
      Conclude(t, Ended, Some(Succeeded));
    }

    /** What is given up before the lock is. */
    method GiveUp(t: TaskId)
      requires Valid() && Live(tasks, t) && tasks[t].pc.Disconnecting?
      modifies `rows, `candidates, `connected, `owner, `raced
      ensures Valid()
      ensures var w := tasks[t].pc.w;
              w.device in old(rows) && candidates == old(candidates) - {w.row.discovery}
              && connected == None && owner == None && raced == (old(raced) || Overlaps(old(owner), w.device))
              && rows == old(rows)[w.device := old(rows)[w.device].(desired := false)]
    {
      hide LockOk, TasksOk, RegistryOk, CachesOk, TablesOk, OpsOk, StraysOk, IdsOk, CanConclude;
      var w := tasks[t].pc.w;
      PopKeepsCaches(Held(tasks, lock), known, issued, candidates, w.row.discovery);
      candidates := candidates - {w.row.discovery};
      connected := None;
      FailureCanConclude(tasks, lock, known, candidates, Surroundings(), t, Ended);
      ReleaseOwnership(t);
      SetDesired(w.device, false);
    }

    // ---------- Recovery ----------

    /** A recovery begins: it ends when no longer wanted, and else sleeps or goes on at once. */
    method RecoveryBegins(t: TaskId)
      requires Valid() && Live(tasks, t) && tasks[t].role.Recovery? && tasks[t].pc.Fresh?
      modifies `tasks, `lock, `ops, `recoveries, `polls, `nextOp
      ensures Valid() && OpsMove(old(ops), ops) && lock == old(lock) && t in tasks
      ensures var d := old(tasks)[t].role.recovered;
              d in rows
              && (!(closer.Open? && rows[d].desired && rows[d].auto) ==> tasks[t].pc == Ended && ops == old(ops))
              && (closer.Open? && rows[d].desired && rows[d].auto && !old(tasks)[t].pc.immediate ==>
                    tasks[t].pc == Asleep && ops == old(ops))
              && (closer.Open? && rows[d].desired && rows[d].auto && old(tasks)[t].pc.immediate ==>
                    ops == old(ops)[old(nextOp) := RecoveryOp(t, d)] && old(nextOp) !in old(ops)
                    && tasks[t].pc == AfterWaking(RecoveryWork(old(nextOp), d, rows), old(polls)))
    {
      hide AdministrationService.Valid, OpsMove, CanMove, CanConclude;
      Sleeps(this, t);
      OpsStay(ops);
      var d := tasks[t].role.recovered;
      if !(closer.Open? && rows[d].desired && rows[d].auto) {
        Conclude(t, Ended, None);
      } else if !tasks[t].pc.immediate {
        Conclude(t, Asleep, None);
      } else {
        Reconnects(t);
      }
    }

    /** A recovery that has slept makes an operation without asking again whether it is wanted. */
    method RecoveryWakes(t: TaskId)
      requires Valid() && Live(tasks, t) && tasks[t].role.Recovery? && tasks[t].pc == Asleep
      modifies `tasks, `ops, `polls, `nextOp
      ensures Valid() && OpsMove(old(ops), ops) && t in tasks
      ensures var d := old(tasks)[t].role.recovered;
              d in rows && ops == old(ops)[old(nextOp) := RecoveryOp(t, d)] && old(nextOp) !in old(ops)
              && tasks[t].pc == AfterWaking(RecoveryWork(old(nextOp), d, rows), old(polls))
    {
      hide AdministrationService.Valid, OpsMove, CanMove, CanConclude;
      Sleeps(this, t);
      Reconnects(t);
    }

    /** A recovery's own operation stops the polling of its device, if there is any, and reconnects. */
    method Reconnects(t: TaskId)
      requires Valid() && Live(tasks, t) && tasks[t].role.Recovery? && WorkOf(tasks[t].pc).None?
      requires tasks[t].role.recovered in rows
      modifies `tasks, `ops, `polls, `nextOp
      ensures Valid() && OpsMove(old(ops), ops) && t in tasks
      ensures var d := old(tasks)[t].role.recovered;
              ops == old(ops)[old(nextOp) := RecoveryOp(t, d)] && old(nextOp) !in old(ops)
              && tasks[t].pc == AfterWaking(RecoveryWork(old(nextOp), d, rows), old(polls))
              && polls == Without(old(polls), d)
              && (d in old(polls) ==> old(polls)[d] in tasks && tasks[old(polls)[d]].cancelled)
    {
      hide LockOk, TasksOk, RegistryOk, CachesOk, TablesOk, OpsOk, StraysOk, IdsOk;
      hide OpsMove, CanMove, CanConclude, Executing;
      var d := tasks[t].role.recovered;
      var w := Work(nextOp, d, Reconnect, rows[d], true);
      var pc := if d in polls then AwaitsPoll(w, polls[d]) else WantsRelease(w);
      RecoveryPlaceOk(tasks[t], Surroundings(), nextOp, d, pc);
      if d in polls {
        var p := CancelPoll(d);
      }
      OpsGrow(ops, nextOp, RecoveryOp(t, d));
      hide PlaceOk;
      StartRecoveryOperation(t, pc);
    }

    // ---------- Polling ----------

    /** A polling task begins or has slept: it goes on only while its device is the connected one. */
    method PollTurns(t: TaskId)
      requires Valid() && Live(tasks, t) && tasks[t].role.Poll? && (tasks[t].pc.Fresh? || tasks[t].pc == Asleep)
      modifies `tasks, `lock, `ops, `known, `recoveries, `polls
      ensures Valid() && OpsMove(old(ops), ops) && lock == old(lock) && known == old(known)
      ensures tasks == Moved(old(tasks), t, if connected != Some(old(tasks)[t].role.polled) then Ended
                                            else if old(tasks)[t].pc.Fresh? then Asleep else WantsRead)
      ensures ops == old(ops)
    {
      hide AdministrationService.Valid, OpsMove, CanMove, CanConclude;
      Sleeps(this, t);
      OpsStay(ops);
      if connected != Some(tasks[t].role.polled) {
        Conclude(t, Ended, None);
      } else if tasks[t].pc.Fresh? {
        Conclude(t, Asleep, None);
      } else {
        Proceed(t, WantsRead, known);
      }
    }

    /** A read of the polling task is over: it polls on, ends, or hands over to recovery. */
    method PollReads(t: TaskId, handsOver: bool)
      requires Valid() && Live(tasks, t) && tasks[t].role.Poll? && tasks[t].pc.PollReading?
      modifies `tasks, `lock, `ops, `recoveries, `polls, `nextTask
      ensures Valid() && OpsMove(old(ops), ops) && lock == None && ops == old(ops) && t in tasks
      ensures handsOver ==>
                var d := old(tasks)[t].role.polled;
                d in rows && tasks[t].pc == Ended && polls == Without(old(polls), d)
                && (WantsRecovery(closer, rows[d], d, old(recoveries)) ==>
                      recoveries == old(recoveries)[d := old(nextTask)]
                      && tasks == Moved(old(tasks), t, Ended)[old(nextTask) := Task(Recovery(d), Fresh(false), false)])
                && (!WantsRecovery(closer, rows[d], d, old(recoveries)) ==>
                      recoveries == old(recoveries) && tasks == Moved(old(tasks), t, Ended))
      ensures !handsOver ==>
                tasks == Moved(old(tasks), t, if connected == Some(old(tasks)[t].role.polled) then Asleep else Ended)
                && recoveries == old(recoveries)
    {
      hide AdministrationService.Valid, OpsMove, CanMove, CanConclude;
      Sleeps(this, t);
      OpsStay(ops);
      if handsOver {
        HandOver(t);
      } else {
        Conclude(t, if connected == Some(tasks[t].role.polled) then Asleep else Ended, None);
      }
    }

    /**
     The polling task ends and leaves its device to recovery, unless that is not wanted or
     already there: after a read that calls for it, or wherever it runs into an error that it
     does not handle, through its done callback.
     */
    method HandOver(t: TaskId)
      requires Valid() && Live(tasks, t) && tasks[t].role.Poll?
      requires tasks[t].pc.Fresh? || tasks[t].pc == Asleep || tasks[t].pc.PollReading?
      modifies `tasks, `lock, `ops, `recoveries, `polls, `nextTask
      ensures Valid() && OpsMove(old(ops), ops) && ops == old(ops) && t in old(tasks)
      ensures lock == if old(tasks)[t].pc.PollReading? then None else old(lock)
      ensures var d := old(tasks)[t].role.polled;
              d in rows && t in tasks && tasks[t].pc == Ended && polls == Without(old(polls), d)
              && (WantsRecovery(closer, rows[d], d, old(recoveries)) ==>
                    recoveries == old(recoveries)[d := old(nextTask)]
                    && tasks == Moved(old(tasks), t, Ended)[old(nextTask) := Task(Recovery(d), Fresh(false), false)])
              && (!WantsRecovery(closer, rows[d], d, old(recoveries)) ==>
                    recoveries == old(recoveries) && tasks == Moved(old(tasks), t, Ended))
    {
      hide AdministrationService.Valid, OpsMove, CanMove, CanConclude;
      hide CalmFor, Without, Discarded;
      Sleeps(this, t);
      OpsStay(ops);
      Polled(this, t);
      var d := tasks[t].role.polled;
      Conclude(t, Ended, None);
      ScheduleRecovery(d);
    }

    // ---------- Cancelled tasks ----------

    /** A cancelled task raises at its next step: it ends, and its operation is settled as interrupted. */
    method Unwind(t: TaskId)
      requires Valid() && CanUnwind(tasks, t)
      modifies `tasks, `lock, `ops, `recoveries, `polls
      ensures Valid() && OpsMove(old(ops), ops)
      ensures tasks == Moved(old(tasks), t, Ended) && lock != Some(t)
      ensures ops == StatusAfter(old(ops), OpOf(old(tasks)[t]), Unwound(old(tasks)[t]))
    {
      hide LockOk, TasksOk, RegistryOk, CachesOk, TablesOk, OpsOk, StraysOk, IdsOk;
      hide OpsMove, CanMove, CanConclude, Executing;
      UnwindCanConclude(tasks, lock, known, candidates, Surroundings(), t);
      OpsStay(ops);
      ExecutingMovesOps(tasks, Surroundings(), t, Failed);
      var begun := OpOf(tasks[t]).Some? && !tasks[t].pc.Fresh?;
      Conclude(t, Ended, if begun then Some(Failed) else None);
    }

    // ---------- Starting and closing ----------

    /**
     Interrupts what an earlier process left pending, starts the background scan and recovers the
     first wanted device that may own the adapter.
     */
    method Start(order: seq<DeviceId>)
      requires NotStarted() && forall d :: d in order ==> d in rows
      modifies `tasks, `nextTask, `owner, `recoveries, `ops
      ensures Valid()
      ensures ops == Interrupted(old(ops))
      ensures owner == FirstWanted(order, rows)
      ensures recoveries.Keys == if owner.Some? then {owner.value} else {}
      ensures forall d :: d in recoveries ==>
                recoveries[d] in tasks && tasks[recoveries[d]] == Task(Recovery(d), Fresh(true), false)
    {
      hide AdministrationService.Valid, AdministrationService.NotStarted, Interrupted, FirstWanted;
      NothingStarted();
      InterruptLeft();
      StartBackground();
      RecoverFirst(order);
    }

    lemma NothingStarted()
      requires NotStarted()
      ensures closer.Open? && owner == None && recoveries == map[] && active == map[]
    {
    }

    /** Goes through the registered devices and recovers the first one that is wanted. */
    method RecoverFirst(order: seq<DeviceId>)
      requires Valid() && closer.Open? && owner == None && recoveries == map[] && active == map[]
      requires forall d :: d in order ==> d in rows
      modifies `tasks, `nextTask, `owner, `recoveries
      ensures Valid()
      ensures owner == FirstWanted(order, rows)
      ensures recoveries.Keys == if owner.Some? then {owner.value} else {}
      ensures forall d :: d in recoveries ==>
                recoveries[d] in tasks && tasks[recoveries[d]] == Task(Recovery(d), Fresh(true), false)
    {
      hide LockOk, TasksOk, RegistryOk, CachesOk, TablesOk, OpsOk, StraysOk, IdsOk;
      for i := 0 to |order|
        invariant Valid() && closer.Open? && active == map[]
        invariant owner == FirstWanted(order[..i], rows)
        invariant recoveries.Keys == if owner.Some? then {owner.value} else {}
        invariant forall d :: d in recoveries ==>
                    recoveries[d] in tasks && tasks[recoveries[d]] == Task(Recovery(d), Fresh(true), false)
      {
        var d := order[i];
        assert order[..i + 1][..i] == order[..i];
        if rows[d].desired && rows[d].auto && owner == None {
          RecoverAtStart(d);
        }
      }
      assert order[..|order|] == order;
    }

    /** What an earlier process left pending has failed; nothing executes it. */
    method InterruptLeft()
      requires NotStarted()
      modifies `ops
      ensures NotStarted() && Valid() && ops == Interrupted(old(ops))
    {
      InterruptAll();
    }

    method RecoverAtStart(d: DeviceId)
      requires Valid() && closer.Open? && owner == None && d in rows && d !in recoveries && active == map[]
      modifies `tasks, `nextTask, `owner, `recoveries
      ensures Valid() && owner == Some(d)
      ensures recoveries == old(recoveries)[d := old(nextTask)]
      ensures tasks == old(tasks)[old(nextTask) := Task(Recovery(d), Fresh(true), false)]
    {
      NoUserTask(tasks, Surroundings(), active, d);
      hide LockOk, TasksOk, RegistryOk, CachesOk, TablesOk, OpsOk, StraysOk, IdsOk, CalmFor;
      TakeOwnership(d);
      StartRecovery(d, true);
    }

    method StartBackground()
      requires Valid() && closer.Open?
      modifies `tasks, `nextTask
      ensures Valid()
      ensures tasks == old(tasks)[old(nextTask) := Task(Background, Asleep, false)] && old(nextTask) !in old(tasks)
    {
      var task := Task(Background, Asleep, false);
      hide LockOk, CachesOk, RegistryOk, TasksOk, TaskOk, TablesOk, OpsOk, StraysOk, IdsOk;
      SpawnKeepsIds(tasks, ops, nextTask, nextOp, task);
      SpawnKeepsLock(tasks, lock, nextTask, task);
      SpawnUserKeepsTables(tasks, recoveries, polls, nextTask, task);
      SpawnBackgroundKeepsTasks(tasks, Surroundings(), nextTask);
      SpawnKeepsOps(tasks, ops, active, closer, nextTask, task);
      SpawnKeepsStrays(tasks, ops, active, closer, nextTask, task);
      tasks := tasks[nextTask := task];
      nextTask := nextTask + 1;
    }

    /** Closing begins: nothing more is accepted, and the background scan is cancelled. */
    method BeginClose()
      requires Valid() && closer.Open?
      modifies `tasks, `recoveries, `polls, `closer
      ensures Valid() && closer == Closing(1, BackgroundTasks(old(tasks)))
      ensures tasks == AllCancelled(old(tasks), BackgroundTasks(old(tasks)))
      ensures recoveries == old(recoveries) && polls == old(polls)
    {
      var group := set t | t in tasks && tasks[t].role.Background? && tasks[t].pc != Ended;
      assert group == BackgroundTasks(tasks);
      NamedEmpties(tasks, recoveries, polls);
      StageOneFits(tasks, Surroundings());
      hide LockOk, CachesOk, RegistryOk, TasksOk, TablesOk, OpsOk, StraysOk, IdsOk, StageOk, BackgroundTasks;
      EnterStage(group, recoveries, polls);
    }

    method CloseUserTasks()
      requires Valid() && StageOf(closer) == 1 && AllEnded(tasks, closer.waiting)
      modifies `tasks, `recoveries, `polls, `closer
      ensures Valid() && closer == Closing(2, UserTasks(old(tasks)))
      ensures tasks == AllCancelled(old(tasks), UserTasks(old(tasks)))
      ensures recoveries == old(recoveries) && polls == old(polls)
    {
      var group := set t | t in tasks && (tasks[t].role.UserScan? || tasks[t].role.UserOp?) && tasks[t].pc != Ended;
      assert group == UserTasks(tasks);
      NamedEmpties(tasks, recoveries, polls);
      StageTwoFits(tasks, Surroundings());
      hide LockOk, CachesOk, RegistryOk, TasksOk, TablesOk, OpsOk, StraysOk, IdsOk, StageOk, UserTasks;
      EnterStage(group, recoveries, polls);
    }

    method CloseRecoveries()
      requires Valid() && StageOf(closer) == 2 && AllEnded(tasks, closer.waiting)
      modifies `tasks, `recoveries, `polls, `closer
      ensures Valid() && closer == Closing(3, Named(old(recoveries)))
      ensures tasks == AllCancelled(old(tasks), Named(old(recoveries)))
      ensures recoveries == map[] && polls == old(polls)
    {
      NamedEmpties(tasks, recoveries, polls);
      StageThreeFits(tasks, Surroundings(), active);
      hide LockOk, CachesOk, RegistryOk, TasksOk, TablesOk, OpsOk, StraysOk, IdsOk, StageOk, Named;
      EnterStage((set d | d in recoveries :: recoveries[d]), map[], polls);
    }

    method ClosePolls()
      requires Valid() && StageOf(closer) == 3 && AllEnded(tasks, closer.waiting)
      modifies `tasks, `recoveries, `polls, `closer
      ensures Valid() && closer == Closing(4, Named(old(polls)))
      ensures tasks == AllCancelled(old(tasks), Named(old(polls)))
      ensures recoveries == old(recoveries) && polls == map[]
    {
      NamedEmpties(tasks, recoveries, polls);
      StageFourFits(tasks, Surroundings());
      hide LockOk, CachesOk, RegistryOk, TasksOk, TablesOk, OpsOk, StraysOk, IdsOk, StageOk, Named;
      EnterStage((set d | d in polls :: polls[d]), recoveries, map[]);
    }

    /** The last step of closing marks whatever is still pending as interrupted. */
    method FinishClose()
      requires Valid() && StageOf(closer) == 4 && AllEnded(tasks, closer.waiting)
      modifies `ops, `closer
      ensures Valid() && OpsMove(old(ops), ops)
      ensures closer == Closed && ops == Interrupted(old(ops))
    {
      InterruptKeepsTasks(tasks, Surroundings());
      InterruptKeepsRest(tasks, ops, active, closer, nextTask, nextOp);
      hide LockOk, CachesOk, RegistryOk, TasksOk, TablesOk, OpsOk, StraysOk, IdsOk, Interrupted, OpsMove;
      ghost var e := Surroundings();
      InterruptAll();
      closer := Closed;
      assert Surroundings() == e.(ops := ops, closer := Closed);
    }
  }

  // ---------- What tasks may do, for the methods above ----------

  lemma UserTaskFits(s: AdministrationService, role: Role, op: Op)
    requires s.Valid() && s.CanStart(role, op)
    ensures s.nextTask !in s.tasks && s.nextOp !in s.ops
    ensures var after, grown := s.tasks[s.nextTask := Task(role, Fresh(false), false)], s.ops[s.nextOp := op];
            var renewed := if role.UserOp? then s.active[role.device := s.nextOp] else s.active;
            && LockOk(after, s.lock) && Held(after, s.lock) == Held(s.tasks, s.lock)
            && TasksOk(after, s.Surroundings().(ops := grown)) && TablesOk(after, s.recoveries, s.polls)
            && OpsOk(after, grown, renewed, s.closer) && StraysOk(after, grown, renewed, s.closer)
            && IdsOk(after, grown, s.nextTask + 1, s.nextOp + 1)
  {
    hide LockOk, CachesOk, RegistryOk, TasksOk, TablesOk, OpsOk, StraysOk, IdsOk, Held, OpMatches, NotPending, OpOf, IsUser;
    SpawnUserKeeps(s.tasks, s.lock, s.Surroundings(), s.active, s.nextTask, s.nextOp, Task(role, Fresh(false), false), op);
  }

  lemma GoesToConnect(s: AdministrationService, t: TaskId, w: Work)
    requires s.Valid() && Executing(s.tasks, s.Surroundings(), t, w) && w.action == Connect && t in s.tasks
    ensures CanMove(s.tasks, s.lock, s.candidates, s.Surroundings(), t, WantsConnect(w), s.known) && s.lock != Some(t)
    ensures OpsMove(s.ops, WithStatus(s.ops, OpOf(s.tasks[t]), Running))
  {
    hide LockOk, TasksOk, RegistryOk, CachesOk, TablesOk, OpsOk, StraysOk, IdsOk, OpsMove, CanMove, Executing;
    ExecutingCanMove(s.tasks, s.lock, s.known, s.candidates, s.Surroundings(), t, w, WantsConnect(w));
    ExecutingMovesOps(s.tasks, s.Surroundings(), t, Running);
  }

  /** Where a resolution can go on to once its result is published. */
  lemma MatchMoves(s: AdministrationService, t: TaskId)
    requires s.Valid() && Active(s.tasks, t) && s.tasks[t].pc.Resolved? && s.candidates == s.known
    ensures OpsMove(s.ops, WithStatus(s.ops, OpOf(s.tasks[t]), Running))
    ensures var w := s.tasks[t].pc.w;
            var c := Match(w, s.tasks[t].pc.list);
            w.device in s.rows
            && (c.Some? ==>
                  var row := s.rows[w.device].(discovery := c.value.id);
                  && c.value.id in s.issued && (s.raced || s.issued[c.value.id].identity == row.identity)
                  && CanMove(s.tasks, s.lock, s.candidates, s.Surroundings().(rows := s.rows[w.device := row]), t,
                             Chosen(w, c.value), s.known))
            && CanMove(s.tasks, s.lock, s.candidates, s.Surroundings(), t, Rescuing(w), s.known)
  {
    hide LockOk, TasksOk, RegistryOk, CachesOk, TablesOk, OpsOk, StraysOk, IdsOk, OpsMove, CanMove, Match;
    hide WithStatus, OpOf;
    var w := s.tasks[t].pc.w;
    var c := Match(w, s.tasks[t].pc.list);
    ExecutingMovesOps(s.tasks, s.Surroundings(), t, Running);
    MatchIsCurrent(s.tasks, s.lock, s.known, s.candidates, s.Surroundings(), t);
    if c.Some? {
      DiscoveryKeepsMove(s.tasks, s.lock, s.known, s.candidates, s.Surroundings(), t, Chosen(w, c.value), w.device,
                         s.rows[w.device].(discovery := c.value.id));
    }
  }

  /** What a failing user task may do, and what it leaves behind. */
  lemma FailsAsUser(s: AdministrationService, t: TaskId)
    requires s.Valid() && Active(s.tasks, t) && CanFail(s.tasks[t].pc) && (s.tasks[t].pc.Resolved? ==> s.candidates == s.known)
    requires s.tasks[t].role.UserOp?
    ensures CanConclude(s.tasks, s.lock, s.known, s.candidates, s.Surroundings(), t, Ended, Some(Failed)) && s.lock == Some(t)
    ensures OpsMove(s.ops, WithStatus(s.ops, OpOf(s.tasks[t]), Failed))
    ensures Discarded(s.recoveries, t) == s.recoveries && Discarded(s.polls, t) == s.polls
    ensures var d := s.tasks[t].role.device;
            d in s.rows && (s.tasks[t].role.action != Disconnect ==> s.raced || s.owner == Some(d))
            && CalmFor(Moved(s.tasks, t, Ended), s.polls, d)
  {
    hide LockOk, TasksOk, RegistryOk, CachesOk, TablesOk, OpsOk, StraysOk, IdsOk, OpsMove, CanConclude, CalmFor;
    hide Moved, WithStatus, OpOf, Discarded;
    FailureCanConclude(s.tasks, s.lock, s.known, s.candidates, s.Surroundings(), t, Ended);
    ExecutingMovesOps(s.tasks, s.Surroundings(), t, Failed);
    SettledLeavesNoUserTask(s.tasks, s.Surroundings(), s.active, t, Failed);
    NotInTables(s.tasks, s.recoveries, s.polls, t);
  }

  /** What the operation of a failing recovery may do. */
  lemma FailsAsRecovery(s: AdministrationService, t: TaskId)
    requires s.Valid() && Active(s.tasks, t) && CanFail(s.tasks[t].pc) && (s.tasks[t].pc.Resolved? ==> s.candidates == s.known)
    requires !s.tasks[t].role.UserOp?
    ensures var pc := if Retrying(s.tasks[t].role, s.closer, s.rows) then Asleep else Ended;
            && CanConclude(s.tasks, s.lock, s.known, s.candidates, s.Surroundings(), t, pc, Some(Failed)) && s.lock == Some(t)
            && TableAfter(s.polls, t, pc) == s.polls
    ensures OpsMove(s.ops, WithStatus(s.ops, OpOf(s.tasks[t]), Failed))
  {
    hide LockOk, TasksOk, RegistryOk, CachesOk, TablesOk, OpsOk, StraysOk, IdsOk, OpsMove, CanConclude;
    hide WithStatus, OpOf;
    var pc := if Retrying(s.tasks[t].role, s.closer, s.rows) then Asleep else Ended;
    FailureCanConclude(s.tasks, s.lock, s.known, s.candidates, s.Surroundings(), t, pc);
    PollsNotFailing(s.tasks, s.Surroundings(), t, pc);
    ExecutingMovesOps(s.tasks, s.Surroundings(), t, Failed);
  }

  /** What the task of a new connection may do, and what it leaves behind. */
  lemma CameUp(s: AdministrationService, t: TaskId)
    requires s.Valid() && Live(s.tasks, t) && s.tasks[t].pc.Reading?
    ensures CanConclude(s.tasks, s.lock, s.known, s.candidates, s.Surroundings(), t, Ended, Some(Succeeded)) && s.lock == Some(t)
    ensures OpsMove(s.ops, WithStatus(s.ops, OpOf(s.tasks[t]), Succeeded))
    ensures TableAfter(s.polls, t, Ended) == s.polls && StageOf(s.closer) < 4
    ensures var d := s.tasks[t].pc.w.device;
            d in s.rows && (s.raced || s.owner == Some(d))
            && CalmFor(Moved(s.tasks, t, Ended), TableAfter(s.recoveries, t, Ended), d)
  {
    hide LockOk, TasksOk, RegistryOk, CachesOk, TablesOk, OpsOk, StraysOk, IdsOk, OpsMove, CanConclude, CalmFor;
    hide Moved, WithStatus, OpOf, Discarded;
    FailureCanConclude(s.tasks, s.lock, s.known, s.candidates, s.Surroundings(), t, Ended);
    ExecutingMovesOps(s.tasks, s.Surroundings(), t, Succeeded);
    ConnectedLeavesCalm(s.tasks, s.Surroundings(), s.active, t);
    PollsNotFailing(s.tasks, s.Surroundings(), t, Ended);
  }

  /** What a recovery, polling or background task may do when it begins or wakes, or when a read is over. */
  lemma Sleeps(s: AdministrationService, t: TaskId)
    requires s.Valid() && Live(s.tasks, t) && (s.tasks[t].role.Recovery? || s.tasks[t].role.Poll?)
    requires s.tasks[t].pc.Fresh? || s.tasks[t].pc == Asleep || s.tasks[t].pc.PollReading?
    ensures CanConclude(s.tasks, s.lock, s.known, s.candidates, s.Surroundings(), t, Ended, None)
    ensures CanConclude(s.tasks, s.lock, s.known, s.candidates, s.Surroundings(), t, Asleep, None)
    ensures DeviceOf(s.tasks[t].role).value in s.rows
    ensures s.tasks[t].pc.PollReading? <==> s.lock == Some(t)
    ensures s.tasks[t].role.Poll? && s.tasks[t].pc == Asleep ==>
              CanMove(s.tasks, s.lock, s.candidates, s.Surroundings(), t, WantsRead, s.known)
    ensures s.tasks[t].role.Poll? ==> Discarded(s.recoveries, t) == s.recoveries
  {
    hide LockOk, TasksOk, RegistryOk, CachesOk, TablesOk, OpsOk, StraysOk, IdsOk, CanMove, CanConclude;
    SleeperFacts(s.tasks, s.lock, s.known, s.candidates, s.Surroundings(), t);
    OwnTableOnly(s.tasks, s.recoveries, s.polls, t);
  }

  lemma Polled(s: AdministrationService, t: TaskId)
    requires s.Valid() && Live(s.tasks, t) && s.tasks[t].role.Poll?
    ensures var d := s.tasks[t].role.polled;
            && d in s.rows && (s.raced || s.owner == Some(d))
            && (s.rows[d].desired ==> CalmFor(Moved(s.tasks, t, Ended), Discarded(s.polls, t), d))
            && Discarded(s.polls, t) == Without(s.polls, d) && Discarded(s.recoveries, t) == s.recoveries
  {
    hide LockOk, TasksOk, RegistryOk, CachesOk, TablesOk, OpsOk, StraysOk, IdsOk, CalmFor, Discarded;
    OwnTableOnly(s.tasks, s.recoveries, s.polls, t);
    PolledLeavesCalm(s.tasks, s.Surroundings(), t);
  }

  predicate PendingScan(ops: map<OpId, Op>, o: OpId) {
    o in ops && ops[o].kind.ScanKind? && Pending(ops[o].status)
  }

  /** When a recovery is wanted and allowed and there is none yet. */
  predicate WantsRecovery(closer: Closer, row: Row, d: DeviceId, recoveries: Table) {
    closer.Open? && row.auto && row.desired && d !in recoveries
  }

  /** Where a recovery's own operation begins. */
  function AfterWaking(w: Work, polls: Table): Pc {
    if w.device in polls then AwaitsPoll(w, polls[w.device]) else WantsRelease(w)
  }

  /** The first device that was wanted and may reconnect by itself. */
  function FirstWanted(order: seq<DeviceId>, rows: map<DeviceId, Row>): Option<DeviceId>
    requires forall d :: d in order ==> d in rows
  {
    if |order| == 0 then None
    else
      var front, last := order[..|order| - 1], order[|order| - 1];
      var before := FirstWanted(front, rows);
      if before.Some? then before
      else if rows[last].desired && rows[last].auto then Some(last)
      else None
  }

  /** A failed user operation that wanted a connection leaves it to a new recovery. */
  predicate Failing(role: Role, closer: Closer, rows: map<DeviceId, Row>, recoveries: Table) {
    && role.UserOp? && role.action != Disconnect && role.device in rows
    && WantsRecovery(closer, rows[role.device], role.device, recoveries)
  }

  /** A recovery whose attempt failed tries again while that is wanted. */
  predicate Retrying(role: Role, closer: Closer, rows: map<DeviceId, Row>) {
    && role.Recovery? && role.recovered in rows
    && closer.Open? && rows[role.recovered].desired && rows[role.recovered].auto
  }
}
