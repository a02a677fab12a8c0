/** How the changes that the service makes keep each part of what holds of it. */
module ServiceSteps {
  import opened Basics
  import opened ServiceState

  /** What holds of all tasks, for one of them. */
  lemma TaskFacts(tasks: Tasks, e: Env, t: TaskId)
    requires TasksOk(tasks, e) && t in tasks
    ensures PlaceOk(tasks[t], e.rows, e.issued, e.raced)
    ensures OwnedOk(tasks[t], e.owner, e.raced)
    ensures DisconnectOk(tasks[t], e.rows, e.recoveries, e.polls)
    ensures ExecutesOk(t, tasks[t], e.ops)
    ensures StageOk(t, tasks[t], e.closer)
  {
    assert TaskOk(t, tasks[t], e);
  }

  // ---------- Moving one task ----------

  function HeldAfter(tasks: Tasks, lock: Option<TaskId>, t: TaskId, pc: Pc): Option<Pc> {
    if Holds(pc) then Some(pc) else if lock == Some(t) then None else Held(tasks, lock)
  }

  lemma MoveKeepsLock(tasks: Tasks, lock: Option<TaskId>, t: TaskId, pc: Pc)
    requires LockOk(tasks, lock) && t in tasks && (Holds(pc) ==> lock == None || lock == Some(t))
    ensures LockOk(Moved(tasks, t, pc), LockAfter(lock, t, pc))
    ensures Held(Moved(tasks, t, pc), LockAfter(lock, t, pc)) == HeldAfter(tasks, lock, t, pc)
  {
  }

  lemma MoveKeepsTables(tasks: Tasks, recoveries: Table, polls: Table, t: TaskId, pc: Pc)
    requires TablesOk(tasks, recoveries, polls) && Active(tasks, t) && pc != Ended
    ensures TablesOk(Moved(tasks, t, pc), recoveries, polls)
  {
  }

  lemma EndKeepsTables(tasks: Tasks, recoveries: Table, polls: Table, t: TaskId)
    requires TablesOk(tasks, recoveries, polls) && t in tasks
    ensures TablesOk(Moved(tasks, t, Ended), Discarded(recoveries, t), Discarded(polls, t))
  {
    hide RecoveriesOk, PollsOk, Discarded, Moved;
    EndKeepsRecoveries(tasks, recoveries, t);
    EndKeepsPolls(tasks, polls, t);
  }

  lemma EndKeepsPolls(tasks: Tasks, polls: Table, t: TaskId)
    requires PollsOk(tasks, polls) && t in tasks
    ensures PollsOk(Moved(tasks, t, Ended), Discarded(polls, t))
  {
  }

  lemma EndKeepsRecoveries(tasks: Tasks, recoveries: Table, t: TaskId)
    requires RecoveriesOk(tasks, recoveries) && t in tasks
    ensures RecoveriesOk(Moved(tasks, t, Ended), Discarded(recoveries, t))
  {
  }

  /** A task that leaves the wait for a recovery leaves none behind that has not ended. */
  lemma MoveKeepsStrays(tasks: Tasks, ops: map<OpId, Op>, active: map<DeviceId, OpId>, closer: Closer, t: TaskId,
                        pc: Pc)
    requires StraysOk(tasks, ops, active, closer) && Active(tasks, t)
    requires tasks[t].pc.AwaitsRecovery? ==> !Active(tasks, tasks[t].pc.other)
    ensures StraysOk(Moved(tasks, t, pc), ops, active, closer)
  {
  }

  lemma StatusKeepsStrays(tasks: Tasks, ops: map<OpId, Op>, active: map<DeviceId, OpId>, closer: Closer,
                          o: Option<OpId>, status: Status)
    requires StraysOk(tasks, ops, active, closer)
    ensures StraysOk(tasks, WithStatus(ops, o, status), active, closer)
  {
  }

  lemma MoveKeepsIds(tasks: Tasks, ops: map<OpId, Op>, nextTask: TaskId, nextOp: OpId,
                     t: TaskId, pc: Pc, o: Option<OpId>, status: Status)
    requires IdsOk(tasks, ops, nextTask, nextOp) && t in tasks
    ensures IdsOk(Moved(tasks, t, pc), WithStatus(ops, o, status), nextTask, nextOp)
  {
  }

  // ---------- Starting and finishing an operation ----------

  /** Only the task that executes an operation has anything to say about its status. */
  lemma StatusKeepsTasks(tasks: Tasks, e: Env, f: Env, t: TaskId, task: Task, o: Option<OpId>, status: Status)
    requires TasksOk(tasks, e) && Active(tasks, t)
    requires o.Some? ==> o.value in e.ops && e.ops[o.value].runner == t
    requires f == e.(ops := WithStatus(e.ops, o, status), recoveries := f.recoveries, polls := f.polls)
    requires Shrunk(f.recoveries, e.recoveries) && Shrunk(f.polls, e.polls)
    requires TaskOk(t, task, f)
    ensures TasksOk(tasks[t := task], f)
  {
  }

  predicate Shrunk(after: Table, before: Table) {
    forall d :: d in after ==> d in before && after[d] == before[d]
  }

  lemma ProceedKeepsTasks(tasks: Tasks, e: Env, t: TaskId, pc: Pc)
    requires TasksOk(tasks, e) && Active(tasks, t) && pc != Ended && !pc.Fresh?
    requires OpOf(tasks[t].(pc := pc)) == OpOf(tasks[t])
    requires PlaceOk(tasks[t].(pc := pc), e.rows, e.issued, e.raced)
    requires DisconnectOk(tasks[t].(pc := pc), e.rows, e.recoveries, e.polls)
    ensures ExecutesOk(t, tasks[t], e.ops)
    ensures TasksOk(Moved(tasks, t, pc), e.(ops := WithStatus(e.ops, OpOf(tasks[t]), Running)))
  {
    assert TaskOk(t, tasks[t], e);
    StatusKeepsTasks(tasks, e, e.(ops := WithStatus(e.ops, OpOf(tasks[t]), Running)), t,
                     tasks[t].(pc := pc), OpOf(tasks[t]), Running);
  }

  lemma StartKeepsOps(tasks: Tasks, ops: map<OpId, Op>, active: map<DeviceId, OpId>, closer: Closer, t: TaskId, pc: Pc)
    requires OpsOk(tasks, ops, active, closer) && Active(tasks, t) && pc != Ended
    requires ExecutesOk(t, tasks[t], ops)
    requires OpOf(tasks[t].(pc := pc)) == OpOf(tasks[t])
    ensures OpsOk(Moved(tasks, t, pc), WithStatus(ops, OpOf(tasks[t]), Running), active, closer)
  {
  }

  function TableAfter(table: Table, t: TaskId, pc: Pc): Table {
    if pc == Ended then Discarded(table, t) else table
  }

  function StatusAfter(ops: map<OpId, Op>, o: Option<OpId>, status: Option<Status>): map<OpId, Op> {
    if status.Some? then WithStatus(ops, o, status.value) else ops
  }

  lemma ConcludeKeepsTasks(tasks: Tasks, e: Env, t: TaskId, pc: Pc, status: Option<Status>)
    requires TasksOk(tasks, e) && Active(tasks, t) && (pc == Ended || pc == Asleep)
    requires PcFits(tasks[t].role, pc)
    ensures ExecutesOk(t, tasks[t], e.ops)
    ensures TasksOk(Moved(tasks, t, pc),
                    e.(ops := StatusAfter(e.ops, OpOf(tasks[t]), status),
                       recoveries := TableAfter(e.recoveries, t, pc), polls := TableAfter(e.polls, t, pc)))
  {
    assert TaskOk(t, tasks[t], e);
    var f := e.(ops := StatusAfter(e.ops, OpOf(tasks[t]), status),
                recoveries := TableAfter(e.recoveries, t, pc), polls := TableAfter(e.polls, t, pc));
    assert e.ops == WithStatus(e.ops, None, Failed);
    StatusKeepsTasks(tasks, e, f, t, tasks[t].(pc := pc), if status.Some? then OpOf(tasks[t]) else None,
                     if status.Some? then status.value else Failed);
  }

  lemma ConcludeKeepsOps(tasks: Tasks, ops: map<OpId, Op>, active: map<DeviceId, OpId>, closer: Closer,
                         t: TaskId, pc: Pc, status: Option<Status>)
    requires OpsOk(tasks, ops, active, closer) && Active(tasks, t)
    requires ExecutesOk(t, tasks[t], ops)
    requires if status.Some? then !Pending(status.value) else OpOf(tasks[t]).None? || !closer.Open?
    ensures OpsOk(Moved(tasks, t, pc), StatusAfter(ops, OpOf(tasks[t]), status), active, closer)
  {
  }

  lemma ConcludeKeepsTables(tasks: Tasks, recoveries: Table, polls: Table, t: TaskId, pc: Pc)
    requires TablesOk(tasks, recoveries, polls) && Active(tasks, t)
    ensures TablesOk(Moved(tasks, t, pc), TableAfter(recoveries, t, pc), TableAfter(polls, t, pc))
  {
    if pc == Ended {
      EndKeepsTables(tasks, recoveries, polls, t);
    } else {
      MoveKeepsTables(tasks, recoveries, polls, t, pc);
    }
  }

  lemma ConcludeKeepsRest(tasks: Tasks, ops: map<OpId, Op>, active: map<DeviceId, OpId>, closer: Closer,
                          nextTask: TaskId, nextOp: OpId, t: TaskId, pc: Pc, status: Option<Status>)
    requires StraysOk(tasks, ops, active, closer) && IdsOk(tasks, ops, nextTask, nextOp) && Active(tasks, t)
    requires tasks[t].pc.AwaitsRecovery? ==> !Active(tasks, tasks[t].pc.other)
    ensures StraysOk(Moved(tasks, t, pc), StatusAfter(ops, OpOf(tasks[t]), status), active, closer)
    ensures IdsOk(Moved(tasks, t, pc), StatusAfter(ops, OpOf(tasks[t]), status), nextTask, nextOp)
  {
    MoveKeepsStrays(tasks, ops, active, closer, t, pc);
    var o := if status.Some? then OpOf(tasks[t]) else None;
    var end := if status.Some? then status.value else Failed;
    StatusKeepsStrays(Moved(tasks, t, pc), ops, active, closer, o, end);
    MoveKeepsIds(tasks, ops, nextTask, nextOp, t, pc, o, end);
  }

  // ---------- Cancelling one task ----------

  lemma CancelKeepsLock(tasks: Tasks, lock: Option<TaskId>, u: TaskId)
    requires LockOk(tasks, lock) && u in tasks
    ensures LockOk(WithCancelled(tasks, u), lock)
    ensures Held(WithCancelled(tasks, u), lock) == Held(tasks, lock)
  {
  }

  lemma CancelKeepsPolls(tasks: Tasks, polls: Table, u: TaskId)
    requires PollsOk(tasks, polls) && u in tasks && !tasks[u].role.Poll?
    ensures PollsOk(WithCancelled(tasks, u), polls)
  {
  }

  lemma CancelKeepsRecoveries(tasks: Tasks, recoveries: Table, u: TaskId)
    requires RecoveriesOk(tasks, recoveries) && u in tasks && !tasks[u].role.Recovery?
    ensures RecoveriesOk(WithCancelled(tasks, u), recoveries)
  {
  }

  lemma CancelRecoveryKeepsTables(tasks: Tasks, recoveries: Table, polls: Table, d: DeviceId)
    requires TablesOk(tasks, recoveries, polls) && d in recoveries
    ensures TablesOk(WithCancelled(tasks, recoveries[d]), Without(recoveries, d), polls)
  {
    hide PollsOk;
    CancelKeepsPolls(tasks, polls, recoveries[d]);
  }

  lemma CancelPollKeepsTables(tasks: Tasks, recoveries: Table, polls: Table, d: DeviceId)
    requires TablesOk(tasks, recoveries, polls) && d in polls
    ensures TablesOk(WithCancelled(tasks, polls[d]), recoveries, Without(polls, d))
  {
    hide RecoveriesOk;
    CancelKeepsRecoveries(tasks, recoveries, polls[d]);
  }

  /** Cancelling the polling task of a device, in all that depends on the task tables. */
  lemma CancelPollKeepsTasks(tasks: Tasks, e: Env, d: DeviceId)
    requires TasksOk(tasks, e) && TablesOk(tasks, e.recoveries, e.polls) && d in e.polls
    ensures var p := e.polls[d];
            p in tasks && tasks[p].role == Poll(d)
            && TasksOk(WithCancelled(tasks, p), e.(polls := Without(e.polls, d)))
            && TablesOk(WithCancelled(tasks, p), e.recoveries, Without(e.polls, d))
  {
    CancelPollKeepsTables(tasks, e.recoveries, e.polls, d);
    CancelKeepsTasks(tasks, e, e.(polls := Without(e.polls, d)), e.polls[d]);
  }

  lemma CancelKeepsTasks(tasks: Tasks, e: Env, f: Env, u: TaskId)
    requires TasksOk(tasks, e) && u in tasks && !IsUser(tasks[u].role)
    requires f == e.(recoveries := f.recoveries, polls := f.polls)
    requires Shrunk(f.recoveries, e.recoveries) && Shrunk(f.polls, e.polls)
    ensures TasksOk(WithCancelled(tasks, u), f)
  {
    assert TaskOk(u, tasks[u], e);
  }

  lemma CancelKeepsOps(tasks: Tasks, ops: map<OpId, Op>, active: map<DeviceId, OpId>, closer: Closer, u: TaskId)
    requires OpsOk(tasks, ops, active, closer) && u in tasks
    ensures OpsOk(WithCancelled(tasks, u), ops, active, closer)
  {
  }

  lemma CancelKeepsIds(tasks: Tasks, ops: map<OpId, Op>, nextTask: TaskId, nextOp: OpId, u: TaskId)
    requires IdsOk(tasks, ops, nextTask, nextOp) && u in tasks
    ensures IdsOk(WithCancelled(tasks, u), ops, nextTask, nextOp)
  {
  }

  lemma NotHolding(tasks: Tasks, lock: Option<TaskId>, t: TaskId)
    requires LockOk(tasks, lock) && t in tasks && !Holds(tasks[t].pc)
    ensures lock != Some(t)
  {
  }

  lemma CancelKeepsStrays(tasks: Tasks, ops: map<OpId, Op>, active: map<DeviceId, OpId>, closer: Closer, u: TaskId)
    requires StraysOk(tasks, ops, active, closer) && u in tasks
    requires tasks[u].role.Recovery? ==> Awaited(tasks, ops, active, tasks[u].role.recovered, u)
    ensures StraysOk(WithCancelled(tasks, u), ops, active, closer)
  {
  }

  // ---------- Starting a task ----------

  lemma SpawnKeepsLock(tasks: Tasks, lock: Option<TaskId>, t: TaskId, task: Task)
    requires LockOk(tasks, lock) && t !in tasks && !Holds(task.pc)
    ensures LockOk(tasks[t := task], lock)
    ensures Held(tasks[t := task], lock) == Held(tasks, lock)
  {
  }

  lemma SpawnKeepsStrays(tasks: Tasks, ops: map<OpId, Op>, active: map<DeviceId, OpId>, closer: Closer, t: TaskId,
                         task: Task)
    requires StraysOk(tasks, ops, active, closer) && t !in tasks && !task.cancelled
    ensures StraysOk(tasks[t := task], ops, active, closer)
  {
  }

  lemma SpawnKeepsOps(tasks: Tasks, ops: map<OpId, Op>, active: map<DeviceId, OpId>, closer: Closer, t: TaskId,
                      task: Task)
    requires OpsOk(tasks, ops, active, closer) && t !in tasks
    ensures OpsOk(tasks[t := task], ops, active, closer)
  {
  }

  lemma SpawnKeepsIds(tasks: Tasks, ops: map<OpId, Op>, nextTask: TaskId, nextOp: OpId, task: Task)
    requires IdsOk(tasks, ops, nextTask, nextOp)
    ensures nextTask !in tasks && IdsOk(tasks[nextTask := task], ops, nextTask + 1, nextOp)
  {
  }

  lemma SpawnPollKeepsTables(tasks: Tasks, recoveries: Table, polls: Table, t: TaskId, d: DeviceId)
    requires TablesOk(tasks, recoveries, polls) && t !in tasks && d !in polls
    ensures TablesOk(tasks[t := Task(Poll(d), Fresh(false), false)], recoveries, polls[d := t])
  {
  }

  lemma SpawnRecoveryKeepsTables(tasks: Tasks, recoveries: Table, polls: Table, t: TaskId, d: DeviceId, immediate: bool)
    requires TablesOk(tasks, recoveries, polls) && t !in tasks && d !in recoveries
    ensures TablesOk(tasks[t := Task(Recovery(d), Fresh(immediate), false)], recoveries[d := t], polls)
  {
    SpawnKeepsPolls(tasks, polls, t, Task(Recovery(d), Fresh(immediate), false));
    hide PollsOk;
  }

  lemma SpawnKeepsPolls(tasks: Tasks, polls: Table, t: TaskId, task: Task)
    requires PollsOk(tasks, polls) && t !in tasks && !task.role.Poll?
    ensures PollsOk(tasks[t := task], polls)
  {
  }

  lemma SpawnUserKeepsTables(tasks: Tasks, recoveries: Table, polls: Table, t: TaskId, task: Task)
    requires TablesOk(tasks, recoveries, polls) && t !in tasks && (IsUser(task.role) || task.role.Background?)
    ensures TablesOk(tasks[t := task], recoveries, polls)
  {
  }

  lemma SpawnPollKeepsTasks(tasks: Tasks, e: Env, t: TaskId, d: DeviceId)
    requires TasksOk(tasks, e) && t !in tasks && d in e.rows && (e.raced || e.owner == Some(d))
    requires CalmFor(tasks, e.recoveries, d) && StageOf(e.closer) < 4
    ensures TasksOk(tasks[t := Task(Poll(d), Fresh(false), false)], e.(polls := e.polls[d := t]))
  {
  }

  lemma SpawnRecoveryKeepsTasks(tasks: Tasks, e: Env, t: TaskId, d: DeviceId, immediate: bool)
    requires TasksOk(tasks, e) && t !in tasks && d in e.rows && (e.raced || e.owner == Some(d))
    requires CalmFor(tasks, e.polls, d) && e.closer.Open?
    ensures TasksOk(tasks[t := Task(Recovery(d), Fresh(immediate), false)], e.(recoveries := e.recoveries[d := t]))
  {
  }

  // ---------- Rows and ownership ----------

  lemma DesireKeepsTasks(tasks: Tasks, e: Env, d: DeviceId, row: Row)
    requires TasksOk(tasks, e) && d in e.rows && row.identity == e.rows[d].identity
    requires row.desired && !e.rows[d].desired ==> CalmFor(tasks, e.recoveries, d)
    ensures TasksOk(tasks, e.(rows := e.rows[d := row]))
  {
    var f := e.(rows := e.rows[d := row]);
    forall t | t in tasks ensures TaskOk(t, tasks[t], f) {
      assert TaskOk(t, tasks[t], e);
    }
  }

  lemma OwnerKeepsTasks(tasks: Tasks, e: Env, d: DeviceId)
    requires TasksOk(tasks, e) && (e.owner == None || e.owner == Some(d))
    ensures TasksOk(tasks, e.(owner := Some(d)))
  {
    forall t | t in tasks ensures TaskOk(t, tasks[t], e.(owner := Some(d))) {
      assert TaskOk(t, tasks[t], e);
    }
  }

  lemma ActiveIsKnown(tasks: Tasks, ops: map<OpId, Op>, active: map<DeviceId, OpId>, closer: Closer, d: DeviceId)
    requires OpsOk(tasks, ops, active, closer)
    ensures d in active ==> active[d] in ops
  {
  }

  /** A device without a pending operation has no user task. */
  lemma NoUserTask(tasks: Tasks, e: Env, active: map<DeviceId, OpId>, d: DeviceId)
    requires TasksOk(tasks, e) && OpsOk(tasks, e.ops, active, e.closer)
    requires d in active ==> active[d] in e.ops && !Pending(e.ops[active[d]].status)
    ensures forall u :: Active(tasks, u) && tasks[u].role.UserOp? ==> tasks[u].role.device != d
    ensures forall table :: CalmFor(tasks, table, d)
  {
    forall u | Active(tasks, u) && tasks[u].role.UserOp? ensures tasks[u].role.device != d {
      assert TaskOk(u, tasks[u], e);
    }
  }

  /** A device has at most one user task that has not ended. */
  lemma OneUserTask(tasks: Tasks, e: Env, active: map<DeviceId, OpId>, t: TaskId, u: TaskId)
    requires TasksOk(tasks, e) && OpsOk(tasks, e.ops, active, e.closer)
    requires Active(tasks, t) && tasks[t].role.UserOp? && Active(tasks, u) && tasks[u].role.UserOp?
    requires tasks[t].role.device == tasks[u].role.device
    ensures t == u
    ensures tasks[t].role.device in active && active[tasks[t].role.device] == tasks[t].role.started
    ensures e.ops[tasks[t].role.started].runner == t
  {
    assert TaskOk(t, tasks[t], e) && TaskOk(u, tasks[u], e);
  }

  /** Stopping another recovery does not disturb who awaits recovery `r`. */
  lemma StopKeepsAwaited(tasks: Tasks, ops: map<OpId, Op>, active: map<DeviceId, OpId>, t: TaskId, pc: Pc, u: TaskId,
                         d: DeviceId, r: TaskId)
    requires Awaited(tasks, ops, active, d, r) && t in tasks && u in tasks && !tasks[t].pc.AwaitsRecovery?
    ensures Awaited(Moved(WithCancelled(tasks, u), t, pc), ops, active, d, r)
  {
  }

  lemma StoppedIsAwaited(tasks: Tasks, e: Env, active: map<DeviceId, OpId>, t: TaskId, w: Work, u: TaskId)
    requires TasksOk(tasks, e) && OpsOk(tasks, e.ops, active, e.closer)
    requires Active(tasks, t) && tasks[t].role.UserOp? && u in tasks && u != t
    ensures Awaited(Moved(WithCancelled(tasks, u), t, AwaitsRecovery(w, u)), e.ops, active, tasks[t].role.device, u)
  {
    hide OwnedOk, StageOk, DisconnectOk, PlaceOk;
    OneUserTask(tasks, e, active, t, t);
    TaskFacts(tasks, e, t);
  }

  /** The user task of a device stops its recovery: the recovery is cancelled and the task waits for it. */
  lemma StopKeepsStrays(tasks: Tasks, e: Env, active: map<DeviceId, OpId>, t: TaskId, w: Work, u: TaskId)
    requires TasksOk(tasks, e) && OpsOk(tasks, e.ops, active, e.closer) && StraysOk(tasks, e.ops, active, e.closer)
    requires Active(tasks, t) && tasks[t].role.UserOp? && !tasks[t].pc.AwaitsRecovery?
    requires u in tasks && tasks[u].role == Recovery(tasks[t].role.device)
    ensures StraysOk(Moved(WithCancelled(tasks, u), t, AwaitsRecovery(w, u)), e.ops, active, e.closer)
  {
    hide TasksOk, OpsOk, Awaited;
    StoppedIsAwaited(tasks, e, active, t, w, u);
    var after := Moved(WithCancelled(tasks, u), t, AwaitsRecovery(w, u));
    if StageOf(e.closer) <= 2 {
      forall r | Active(after, r) && after[r].cancelled && after[r].role.Recovery?
        ensures Awaited(after, e.ops, active, after[r].role.recovered, r)
      {
        if r != u {
          StopKeepsAwaited(tasks, e.ops, active, t, AwaitsRecovery(w, u), u, tasks[r].role.recovered, r);
        }
      }
    }
  }

  lemma RecoveryIsNamed(tasks: Tasks, recoveries: Table, polls: Table, d: DeviceId)
    requires TablesOk(tasks, recoveries, polls) && d in recoveries
    ensures Live(tasks, recoveries[d]) && tasks[recoveries[d]].role == Recovery(d)
  {
  }

  lemma StopKeepsTasks(tasks: Tasks, e: Env, t: TaskId, w: Work)
    requires TasksOk(tasks, e) && TablesOk(tasks, e.recoveries, e.polls)
    requires Live(tasks, t) && tasks[t].pc.Fresh? && tasks[t].role.UserOp?
    requires w.device == tasks[t].role.device && w.device in e.recoveries && !w.recovering
    requires RoleFits(tasks[t].role, w) && WorkOk(w, e.rows, e.issued, e.raced)
    ensures var u := e.recoveries[w.device];
            u in tasks && u != t && tasks[u].role == Recovery(w.device) && ExecutesOk(t, tasks[t], e.ops)
            && TasksOk(Moved(WithCancelled(tasks, u), t, AwaitsRecovery(w, u)),
                       e.(recoveries := Without(e.recoveries, w.device), ops := WithStatus(e.ops, OpOf(tasks[t]), Running)))
            && TablesOk(Moved(WithCancelled(tasks, u), t, AwaitsRecovery(w, u)), Without(e.recoveries, w.device), e.polls)
  {
    hide TablesOk, TasksOk, WorkOk, OwnedOk, ExecutesOk, StageOk, RoleFits;
    var u := e.recoveries[w.device];
    RecoveryIsNamed(tasks, e.recoveries, e.polls, w.device);
    TaskFacts(tasks, e, t);
    var f := e.(recoveries := Without(e.recoveries, w.device));
    CancelKeepsTasks(tasks, e, f, u);
    CancelRecoveryKeepsTables(tasks, e.recoveries, e.polls, w.device);
    var cancelled := WithCancelled(tasks, u);
    MoveKeepsTables(cancelled, f.recoveries, f.polls, t, AwaitsRecovery(w, u));
    ProceedKeepsTasks(cancelled, f, t, AwaitsRecovery(w, u));
  }

  lemma StopKeepsLock(tasks: Tasks, lock: Option<TaskId>, t: TaskId, u: TaskId, pc: Pc)
    requires LockOk(tasks, lock) && t in tasks && u in tasks && t != u && !Holds(tasks[t].pc) && !Holds(pc)
    ensures LockOk(Moved(WithCancelled(tasks, u), t, pc), lock)
    ensures Held(Moved(WithCancelled(tasks, u), t, pc), lock) == Held(tasks, lock)
  {
  }

  lemma StopKeepsRest(tasks: Tasks, e: Env, active: map<DeviceId, OpId>, nextTask: TaskId, nextOp: OpId,
                      t: TaskId, w: Work, u: TaskId)
    requires TasksOk(tasks, e) && OpsOk(tasks, e.ops, active, e.closer) && StraysOk(tasks, e.ops, active, e.closer)
    requires IdsOk(tasks, e.ops, nextTask, nextOp)
    requires Active(tasks, t) && tasks[t].role.UserOp? && !tasks[t].pc.AwaitsRecovery?
    requires u in tasks && u != t && tasks[u].role == Recovery(tasks[t].role.device) && ExecutesOk(t, tasks[t], e.ops)
    ensures var after := Moved(WithCancelled(tasks, u), t, AwaitsRecovery(w, u));
            var ops := WithStatus(e.ops, OpOf(tasks[t]), Running);
            OpsOk(after, ops, active, e.closer) && StraysOk(after, ops, active, e.closer) && IdsOk(after, ops, nextTask, nextOp)
  {
    var pc := AwaitsRecovery(w, u);
    var cancelled := WithCancelled(tasks, u);
    StopKeepsStrays(tasks, e, active, t, w, u);
    hide TasksOk, OpsOk, StraysOk, IdsOk;
    StatusKeepsStrays(Moved(cancelled, t, pc), e.ops, active, e.closer, OpOf(tasks[t]), Running);
    CancelKeepsOps(tasks, e.ops, active, e.closer, u);
    StartKeepsOps(cancelled, e.ops, active, e.closer, t, pc);
    CancelKeepsIds(tasks, e.ops, nextTask, nextOp, u);
    MoveKeepsIds(cancelled, e.ops, nextTask, nextOp, t, pc, OpOf(tasks[t]), Running);
  }

  // ---------- Recovery operations ----------

  function RecoveryOp(t: TaskId, d: DeviceId): Op {
    Op(LinkKind(Reconnect), Some(d), Running, false, t)
  }

  /** An operation that is not its own does not concern a task. */
  lemma NewOpKeepsTask(u: TaskId, task: Task, e: Env, o: OpId, op: Op)
    requires TaskOk(u, task, e) && o !in e.ops
    ensures TaskOk(u, task, e.(ops := e.ops[o := op]))
  {
    hide PlaceOk, OwnedOk, DisconnectOk, StageOk, OpMatches;
  }

  lemma RecoverKeepsTask(t: TaskId, task: Task, e: Env, pc: Pc, o: OpId)
    requires TaskOk(t, task, e) && task.pc != Ended && task.role.Recovery? && o !in e.ops
    requires WorkOf(pc).Some? && WorkOf(pc).value.op == o
    requires PlaceOk(task.(pc := pc), e.rows, e.issued, e.raced)
    ensures TaskOk(t, task.(pc := pc), e.(ops := e.ops[o := RecoveryOp(t, task.role.recovered)]))
  {
    hide PlaceOk;
  }

  lemma RecoverKeepsTasks(tasks: Tasks, e: Env, t: TaskId, pc: Pc, o: OpId)
    requires TasksOk(tasks, e) && Active(tasks, t) && tasks[t].role.Recovery? && o !in e.ops
    requires WorkOf(pc).Some? && WorkOf(pc).value.op == o
    requires PlaceOk(tasks[t].(pc := pc), e.rows, e.issued, e.raced)
    ensures TasksOk(Moved(tasks, t, pc), e.(ops := e.ops[o := RecoveryOp(t, tasks[t].role.recovered)]))
  {
    hide TaskOk, PlaceOk, WorkOf;
    var f := e.(ops := e.ops[o := RecoveryOp(t, tasks[t].role.recovered)]);
    var moved := Moved(tasks, t, pc);
    forall u | u in moved ensures TaskOk(u, moved[u], f) {
      if u == t {
        RecoverKeepsTask(t, tasks[t], e, pc, o);
      } else {
        NewOpKeepsTask(u, tasks[u], e, o, RecoveryOp(t, tasks[t].role.recovered));
      }
    }
  }

  lemma RecoverKeepsOps(tasks: Tasks, ops: map<OpId, Op>, active: map<DeviceId, OpId>, closer: Closer,
                        t: TaskId, pc: Pc, o: OpId)
    requires OpsOk(tasks, ops, active, closer) && Active(tasks, t) && tasks[t].role.Recovery? && o !in ops
    requires !closer.Closed? && OpOf(tasks[t]).None?
    requires WorkOf(pc).Some? && WorkOf(pc).value.op == o && pc != Ended
    ensures OpsOk(Moved(tasks, t, pc), ops[o := RecoveryOp(t, tasks[t].role.recovered)], active, closer)
  {
  }

  lemma NewOpKeepsStrays(tasks: Tasks, ops: map<OpId, Op>, active: map<DeviceId, OpId>, closer: Closer, o: OpId, op: Op)
    requires StraysOk(tasks, ops, active, closer) && o !in ops
    ensures StraysOk(tasks, ops[o := op], active, closer)
  {
  }

  lemma NotClosedYet(tasks: Tasks, e: Env, t: TaskId)
    requires TasksOk(tasks, e) && Live(tasks, t) && tasks[t].role.Recovery?
    ensures !e.closer.Closed?
  {
    hide TasksOk;
    TaskFacts(tasks, e, t);
  }

  /** All that a recovery task's new operation touches. */
  lemma RecoverKeepsRest(tasks: Tasks, e: Env, active: map<DeviceId, OpId>, nextTask: TaskId, nextOp: OpId,
                         t: TaskId, pc: Pc)
    requires TasksOk(tasks, e) && OpsOk(tasks, e.ops, active, e.closer) && StraysOk(tasks, e.ops, active, e.closer)
    requires IdsOk(tasks, e.ops, nextTask, nextOp) && TablesOk(tasks, e.recoveries, e.polls)
    requires Live(tasks, t) && tasks[t].role.Recovery? && WorkOf(tasks[t].pc).None?
    requires WorkOf(pc).Some? && WorkOf(pc).value.op == nextOp && !Holds(pc)
    requires PlaceOk(tasks[t].(pc := pc), e.rows, e.issued, e.raced)
    ensures nextOp !in e.ops && !Holds(tasks[t].pc)
    ensures var after := Moved(tasks, t, pc);
            var ops := e.ops[nextOp := RecoveryOp(t, tasks[t].role.recovered)];
            TasksOk(after, e.(ops := ops)) && OpsOk(after, ops, active, e.closer) && StraysOk(after, ops, active, e.closer)
            && IdsOk(after, ops, nextTask, nextOp + 1) && TablesOk(after, e.recoveries, e.polls)
  {
    hide TasksOk, TablesOk, OpsOk, StraysOk, IdsOk, WorkOk, OwnedOk, ExecutesOk, DisconnectOk, StageOk;
    TaskFacts(tasks, e, t);
    var op := RecoveryOp(t, tasks[t].role.recovered);
    RecoverOpKeepsIds(tasks, e.ops, nextTask, nextOp, t, pc, op);
    NotClosedYet(tasks, e, t);
    MoveKeepsTables(tasks, e.recoveries, e.polls, t, pc);
    RecoverKeepsTasks(tasks, e, t, pc, nextOp);
    RecoverKeepsOps(tasks, e.ops, active, e.closer, t, pc, nextOp);
    MoveKeepsStrays(tasks, e.ops, active, e.closer, t, pc);
    NewOpKeepsStrays(Moved(tasks, t, pc), e.ops, active, e.closer, nextOp, op);
  }

  // ---------- User operations ----------

  lemma SpawnUserKeepsTasks(tasks: Tasks, e: Env, t: TaskId, o: OpId, task: Task, op: Op)
    requires TasksOk(tasks, e) && t !in tasks && o !in e.ops && e.closer.Open?
    requires task.pc.Fresh? && !task.cancelled && IsUser(task.role) && OpOf(task) == Some(o)
    requires op.runner == t && op.status == Queued && OpMatches(task.role, op)
    requires task.role.UserOp? ==> task.role.device in e.rows
    requires task.role.UserOp? && task.role.action != Disconnect ==> e.owner == Some(task.role.device)
    requires task.role.UserOp? && task.role.action == Disconnect ==> !e.rows[task.role.device].desired
    ensures TasksOk(tasks[t := task], e.(ops := e.ops[o := op]))
  {
    var f := e.(ops := e.ops[o := op]);
    forall u | u in tasks ensures TaskOk(u, tasks[u], f) {
      assert TaskOk(u, tasks[u], e);
    }
  }

  lemma SpawnUserKeepsOps(tasks: Tasks, ops: map<OpId, Op>, active: map<DeviceId, OpId>, closer: Closer,
                          t: TaskId, o: OpId, task: Task, op: Op)
    requires OpsOk(tasks, ops, active, closer) && t !in tasks && o !in ops && closer.Open?
    requires task.pc != Ended && OpOf(task) == Some(o) && op.runner == t && op.byUser
    requires op.device.Some? && op.device.value in active ==> !Pending(ops[active[op.device.value]].status)
    ensures OpsOk(tasks[t := task], ops[o := op],
                  if op.device.Some? then active[op.device.value := o] else active, closer)
  {
  }

  /** A new operation of a device without a pending one leaves no awaited recovery without its waiter. */
  lemma SpawnUserKeepsStrays(tasks: Tasks, e: Env, active: map<DeviceId, OpId>, t: TaskId, o: OpId, task: Task, op: Op)
    requires TasksOk(tasks, e) && StraysOk(tasks, e.ops, active, e.closer) && OpsOk(tasks, e.ops, active, e.closer)
    requires t !in tasks && o !in e.ops && !task.cancelled
    requires op.device.Some? && op.device.value in active ==> !Pending(e.ops[active[op.device.value]].status)
    ensures StraysOk(tasks[t := task], e.ops[o := op],
                     if op.device.Some? then active[op.device.value := o] else active, e.closer)
  {
    if StageOf(e.closer) <= 2 {
      forall r | Active(tasks, r) && tasks[r].cancelled && tasks[r].role.Recovery?
        ensures op.device != Some(tasks[r].role.recovered)
      {
        var d := tasks[r].role.recovered;
        assert Awaited(tasks, e.ops, active, d, r);
        var u := e.ops[active[d]].runner;
        assert TaskOk(u, tasks[u], e);
      }
    }
  }

  /** A new user task keeps every part of what holds. */
  lemma SpawnUserKeeps(tasks: Tasks, lock: Option<TaskId>, e: Env, active: map<DeviceId, OpId>, nextTask: TaskId,
                       nextOp: OpId, task: Task, op: Op)
    requires LockOk(tasks, lock) && TasksOk(tasks, e) && TablesOk(tasks, e.recoveries, e.polls)
    requires OpsOk(tasks, e.ops, active, e.closer) && StraysOk(tasks, e.ops, active, e.closer)
    requires IdsOk(tasks, e.ops, nextTask, nextOp) && e.closer.Open?
    requires task.pc.Fresh? && !task.cancelled && IsUser(task.role) && OpOf(task) == Some(nextOp)
    requires op == Op(op.kind, op.device, Queued, true, nextTask) && OpMatches(task.role, op)
    requires task.role.UserOp? ==> task.role.device in e.rows && NotPending(e.ops, active, task.role.device)
    requires task.role.UserOp? && task.role.action != Disconnect ==> e.owner == Some(task.role.device)
    requires task.role.UserOp? && task.role.action == Disconnect ==> !e.rows[task.role.device].desired
    ensures nextTask !in tasks && nextOp !in e.ops
    ensures var after, ops := tasks[nextTask := task], e.ops[nextOp := op];
            var active' := if task.role.UserOp? then active[task.role.device := nextOp] else active;
            && LockOk(after, lock) && Held(after, lock) == Held(tasks, lock)
            && TasksOk(after, e.(ops := ops)) && TablesOk(after, e.recoveries, e.polls)
            && OpsOk(after, ops, active', e.closer) && StraysOk(after, ops, active', e.closer)
            && IdsOk(after, ops, nextTask + 1, nextOp + 1)
  {
    hide LockOk, TasksOk, TablesOk, OpsOk, StraysOk, IdsOk, Held;
    SpawnOpKeepsIds(tasks, e.ops, nextTask, nextOp, task, op);
    SpawnKeepsLock(tasks, lock, nextTask, task);
    SpawnUserKeepsTables(tasks, e.recoveries, e.polls, nextTask, task);
    SpawnUserKeepsTasks(tasks, e, nextTask, nextOp, task, op);
    SpawnUserKeepsOps(tasks, e.ops, active, e.closer, nextTask, nextOp, task, op);
    SpawnUserKeepsStrays(tasks, e, active, nextTask, nextOp, task, op);
  }

  /** The active operation of the device, if it has one, is not pending. */
  predicate NotPending(ops: map<OpId, Op>, active: map<DeviceId, OpId>, d: DeviceId) {
    d in active ==> active[d] in ops && !Pending(ops[active[d]].status)
  }

  // ---------- Discovery ----------

  lemma {:induction false} ByIdHolds(list: seq<Candidate>)
    ensures forall id :: id in ById(list) ==> ById(list)[id].id == id && ById(list)[id] in list
    ensures forall i :: 0 <= i < |list| ==> list[i].id in ById(list)
    decreases |list|
  {
    if |list| > 0 {
      ByIdHolds(list[..|list| - 1]);
    }
  }

  /** The candidate looked up is the first of the list with that identity, and is found whenever there is one. */
  lemma {:induction false} FirstWithExactly(list: seq<Candidate>, identity: Identity)
    ensures forall i :: 0 <= i < |list| && IsFirstWith(list, i, Some(identity)) ==> FirstWith(list, identity) == Some(list[i])
    ensures FirstWith(list, identity).None? <==> NoneWith(list, Some(identity))
    ensures FirstWith(list, identity).Some? ==>
              exists i :: 0 <= i < |list| && IsFirstWith(list, i, Some(identity)) && FirstWith(list, identity) == Some(list[i])
    decreases |list|
  {
    if |list| > 0 && list[0].identity != Some(identity) {
      var rest := list[1..];
      FirstWithExactly(rest, identity);
      forall i | 0 <= i < |list| && IsFirstWith(list, i, Some(identity)) ensures FirstWith(list, identity) == Some(list[i]) {
        assert list[i] == rest[i - 1] && IsFirstWith(rest, i - 1, Some(identity));
      }
      if FirstWith(rest, identity).Some? {
        var i :| 0 <= i < |rest| && IsFirstWith(rest, i, Some(identity)) && FirstWith(rest, identity) == Some(rest[i]);
        assert IsFirstWith(list, i + 1, Some(identity));
      }
    } else if |list| > 0 {
      assert IsFirstWith(list, 0, Some(identity));
    }
  }

  lemma FirstWithFits(list: seq<Candidate>, identity: Identity)
    ensures var c := FirstWith(list, identity);
            c.Some? ==> c.value in list && c.value.identity == Some(identity)
  {
    FirstWithExactly(list, identity);
  }

  /** With unique identifiers the dictionary finds every candidate of its list. */
  lemma ByIdFinds(issued: Cache, list: seq<Candidate>, c: Candidate)
    requires UniqueIds(list) && c in list
    ensures c.id in ById(list) && ById(list)[c.id] == c
  {
    ByIdHolds(list);
  }

  lemma IssueKeepsCaches(held: Option<Pc>, known: Cache, issued: Cache, candidates: Cache, list: seq<Candidate>)
    requires CachesOk(held, known, issued, candidates) && NewIds(issued, list)
    ensures CachesOk(held, known, issued + ById(list), candidates) && Within(ById(list), issued + ById(list))
    ensures forall id :: id in issued ==> (issued + ById(list))[id] == issued[id]
  {
    ByIdHolds(list);
    var all := issued + ById(list);
    forall id | id in issued ensures all[id] == issued[id] {
      if id in ById(list) {
        var c := ById(list)[id];
        var i :| 0 <= i < |list| && list[i] == c;
      }
    }
  }

  lemma IssueKeepsTasks(tasks: Tasks, e: Env, more: Cache)
    requires TasksOk(tasks, e) && RegistryOk(e.rows, e.issued, e.raced)
    requires forall id :: id in e.issued ==> id in more && more[id] == e.issued[id]
    ensures TasksOk(tasks, e.(issued := more)) && RegistryOk(e.rows, more, e.raced)
  {
    forall t | t in tasks ensures TaskOk(t, tasks[t], e.(issued := more)) {
      assert TaskOk(t, tasks[t], e);
    }
  }

  // ---------- Registrations ----------

  lemma SelectKeepsTasks(tasks: Tasks, e: Env, d: DeviceId, row: Row)
    requires TasksOk(tasks, e) && d in e.rows && row.desired == e.rows[d].desired && e.owner != Some(d)
    ensures TasksOk(tasks, e.(rows := e.rows[d := row]))
  {
    var f := e.(rows := e.rows[d := row]);
    forall t | t in tasks ensures TaskOk(t, tasks[t], f) {
      assert TaskOk(t, tasks[t], e);
    }
  }

  /** A row of the same identity. */
  lemma RowKeepsRegistry(rows: map<DeviceId, Row>, issued: Cache, raced: bool, d: DeviceId, row: Row)
    requires RegistryOk(rows, issued, raced) && d in rows && row.identity == rows[d].identity
    requires row.discovery in issued && (raced || issued[row.discovery].identity == row.identity)
    ensures RegistryOk(rows[d := row], issued, raced)
  {
  }

  /** A row for a cached candidate whose identity no other device has. */
  lemma RegistryGrows(held: Option<Pc>, known: Cache, rows: map<DeviceId, Row>, issued: Cache, raced: bool,
                      candidates: Cache, d: DeviceId, row: Row)
    requires RegistryOk(rows, issued, raced) && CachesOk(held, known, issued, candidates)
    requires row.discovery in candidates && row.identity == candidates[row.discovery].identity
    requires row.identity.Some? ==> forall e :: e in rows && e != d ==> rows[e].identity != row.identity
    ensures RegistryOk(rows[d := row], issued, raced)
  {
  }

  lemma RegisterKeepsTasks(tasks: Tasks, e: Env, d: DeviceId, row: Row)
    requires TasksOk(tasks, e) && d !in e.rows
    ensures TasksOk(tasks, e.(rows := e.rows[d := row]))
  {
    var f := e.(rows := e.rows[d := row]);
    forall t | t in tasks ensures TaskOk(t, tasks[t], f) {
      assert TaskOk(t, tasks[t], e);
    }
  }

  // ---------- Releasing the adapter ----------

  /** A disconnect that ends gives up the adapter even when another device has come to own it since. */
  predicate Overlaps(owner: Option<DeviceId>, d: DeviceId) {
    owner.Some? && owner.value != d
  }

  /**
   Once a disconnect holds the lock for the owner, or for no owner, nothing else of its device
   is going on; when another device owned the adapter, that is a race lost by the other device.
   */
  lemma ReleaseKeepsTasks(tasks: Tasks, e: Env, active: map<DeviceId, OpId>, t: TaskId)
    requires TasksOk(tasks, e) && OpsOk(tasks, e.ops, active, e.closer) && StraysOk(tasks, e.ops, active, e.closer)
    requires TablesOk(tasks, e.recoveries, e.polls) && RegistryOk(e.rows, e.issued, e.raced)
    requires Live(tasks, t) && tasks[t].pc.Disconnecting?
    ensures var raced := e.raced || Overlaps(e.owner, tasks[t].pc.w.device);
            TasksOk(tasks, e.(owner := None, raced := raced)) && RegistryOk(e.rows, e.issued, raced)
  {
    if Overlaps(e.owner, tasks[t].pc.w.device) {
      RacedKeepsTasks(tasks, e);
    } else if !e.raced {
      OwnReleaseKeepsTasks(tasks, e, active, t);
    } else {
      RacedKeepsTasks(tasks, e);
    }
  }

  /** After a race nothing is promised about ownership, and everything else is. */
  lemma RacedKeepsTasks(tasks: Tasks, e: Env)
    requires TasksOk(tasks, e)
    ensures TasksOk(tasks, e.(owner := None, raced := true))
  {
    forall u | u in tasks ensures TaskOk(u, tasks[u], e.(owner := None, raced := true)) {
      assert TaskOk(u, tasks[u], e);
    }
  }

  lemma OwnReleaseKeepsTasks(tasks: Tasks, e: Env, active: map<DeviceId, OpId>, t: TaskId)
    requires TasksOk(tasks, e) && OpsOk(tasks, e.ops, active, e.closer) && StraysOk(tasks, e.ops, active, e.closer)
    requires TablesOk(tasks, e.recoveries, e.polls) && Live(tasks, t) && tasks[t].pc.Disconnecting?
    requires !e.raced && !Overlaps(e.owner, tasks[t].pc.w.device)
    ensures TasksOk(tasks, e.(owner := None))
  {
    var f := e.(owner := None);
    assert TaskOk(t, tasks[t], e);
    var d := tasks[t].role.device;
    assert d !in e.recoveries && d !in e.polls;
    OneUserTask(tasks, e, active, t, t);
    forall u | u in tasks ensures TaskOk(u, tasks[u], f) {
      assert TaskOk(u, tasks[u], e);
      if Active(tasks, u) && tasks[u].role.UserOp? && tasks[u].role.device == d {
        OneUserTask(tasks, e, active, t, u);
      }
    }
  }

  // ---------- Closing ----------

  lemma AllCancelledKeepsLock(tasks: Tasks, lock: Option<TaskId>, group: set<TaskId>)
    requires LockOk(tasks, lock)
    ensures LockOk(AllCancelled(tasks, group), lock)
    ensures Held(AllCancelled(tasks, group), lock) == Held(tasks, lock)
  {
  }

  lemma AllCancelledKeepsOps(tasks: Tasks, ops: map<OpId, Op>, active: map<DeviceId, OpId>, closer: Closer,
                             group: set<TaskId>, next: Closer)
    requires OpsOk(tasks, ops, active, closer) && next.Closing?
    ensures OpsOk(AllCancelled(tasks, group), ops, active, next)
  {
  }

  lemma AllCancelledKeepsStrays(tasks: Tasks, ops: map<OpId, Op>, active: map<DeviceId, OpId>, closer: Closer,
                                group: set<TaskId>, next: Closer)
    requires StraysOk(tasks, ops, active, closer) && StageOf(closer) <= StageOf(next)
    requires StageOf(next) <= 2 ==> forall t :: t in group && t in tasks ==> !tasks[t].role.Recovery?
    ensures StraysOk(AllCancelled(tasks, group), ops, active, next)
  {
  }

  lemma AllCancelledKeepsIds(tasks: Tasks, ops: map<OpId, Op>, nextTask: TaskId, nextOp: OpId, group: set<TaskId>)
    requires IdsOk(tasks, ops, nextTask, nextOp)
    ensures IdsOk(AllCancelled(tasks, group), ops, nextTask, nextOp)
  {
  }

  lemma AllCancelledKeepsTables(tasks: Tasks, recoveries: Table, polls: Table, group: set<TaskId>, r: Table, p: Table)
    requires TablesOk(tasks, recoveries, polls)
    requires Shrunk(r, recoveries) && Shrunk(p, polls)
    requires forall d :: d in recoveries ==> (d in r <==> recoveries[d] !in group)
    requires forall d :: d in polls ==> (d in p <==> polls[d] !in group)
    ensures TablesOk(AllCancelled(tasks, group), r, p)
  {
  }

  lemma AllCancelledKeepsTasks(tasks: Tasks, e: Env, group: set<TaskId>, f: Env)
    requires TasksOk(tasks, e)
    requires f == e.(recoveries := f.recoveries, polls := f.polls, closer := f.closer)
    requires Shrunk(f.recoveries, e.recoveries) && Shrunk(f.polls, e.polls)
    requires forall t :: t in tasks ==> StageOk(t, AllCancelled(tasks, group)[t], f.closer)
    ensures TasksOk(AllCancelled(tasks, group), f)
  {
    var after := AllCancelled(tasks, group);
    forall t | t in after ensures TaskOk(t, after[t], f) {
      assert TaskOk(t, tasks[t], e);
    }
  }

  lemma InterruptKeepsTasks(tasks: Tasks, e: Env)
    requires TasksOk(tasks, e) && StageOf(e.closer) == 4
    ensures TasksOk(tasks, e.(ops := Interrupted(e.ops), closer := Closed))
  {
    forall t | t in tasks ensures TaskOk(t, tasks[t], e.(ops := Interrupted(e.ops), closer := Closed)) {
      assert TaskOk(t, tasks[t], e);
    }
  }

  // ---------- Operations only move forward ----------

  lemma OpsMoveOn(a: map<OpId, Op>, b: map<OpId, Op>, c: map<OpId, Op>)
    requires OpsMove(a, b) && OpsMove(b, c)
    ensures OpsMove(a, c)
  {
    forall o | o in a
      ensures o in c && c[o].(status := a[o].status) == a[o] && StatusMoves(a[o].status, c[o].status)
    {
      assert o in b && o in c;
    }
  }

  // ---------- Facts the steps start from ----------

  lemma SpawnOpKeepsIds(tasks: Tasks, ops: map<OpId, Op>, nextTask: TaskId, nextOp: OpId, task: Task, op: Op)
    requires IdsOk(tasks, ops, nextTask, nextOp) && op.runner == nextTask
    ensures nextTask !in tasks && nextOp !in ops
    ensures IdsOk(tasks[nextTask := task], ops[nextOp := op], nextTask + 1, nextOp + 1)
  {
  }

  lemma RecoverOpKeepsIds(tasks: Tasks, ops: map<OpId, Op>, nextTask: TaskId, nextOp: OpId, t: TaskId, pc: Pc, op: Op)
    requires IdsOk(tasks, ops, nextTask, nextOp) && t in tasks && op.runner == t
    ensures nextOp !in ops && IdsOk(Moved(tasks, t, pc), ops[nextOp := op], nextTask, nextOp + 1)
  {
  }

  /** Tasks of users are in no table. */
  lemma NotInTables(tasks: Tasks, recoveries: Table, polls: Table, t: TaskId)
    requires TablesOk(tasks, recoveries, polls) && t in tasks && (IsUser(tasks[t].role) || tasks[t].role.Background?)
    ensures Discarded(recoveries, t) == recoveries && Discarded(polls, t) == polls
  {
  }

  lemma OwnTableOnly(tasks: Tasks, recoveries: Table, polls: Table, t: TaskId)
    requires TablesOk(tasks, recoveries, polls) && Live(tasks, t)
    ensures tasks[t].role.Recovery? ==>
              Discarded(recoveries, t) == Without(recoveries, tasks[t].role.recovered) && Discarded(polls, t) == polls
    ensures tasks[t].role.Poll? ==>
              Discarded(polls, t) == Without(polls, tasks[t].role.polled) && Discarded(recoveries, t) == recoveries
  {
  }

  // ---------- What it takes to move or to conclude ----------

  /** Task `t` may go on to `pc`, with `cache` as the adapter's cache from then on. */
  ghost predicate CanMove(tasks: Tasks, lock: Option<TaskId>, candidates: Cache, e: Env, t: TaskId, pc: Pc,
                          cache: Cache) {
    && Active(tasks, t) && pc != Ended && !pc.Fresh?
    && (Holds(pc) ==> lock == None || lock == Some(t))
    && CachesOk(HeldAfter(tasks, lock, t, pc), cache, e.issued, candidates)
    && (tasks[t].pc.AwaitsRecovery? ==> !Active(tasks, tasks[t].pc.other))
    && OpOf(tasks[t].(pc := pc)) == OpOf(tasks[t])
    && PlaceOk(tasks[t].(pc := pc), e.rows, e.issued, e.raced)
    && DisconnectOk(tasks[t].(pc := pc), e.rows, e.recoveries, e.polls)
  }

  /** Task `t` may end or sleep again, with its operation settled as `status` says. */
  ghost predicate CanConclude(tasks: Tasks, lock: Option<TaskId>, known: Cache, candidates: Cache, e: Env,
                              t: TaskId, pc: Pc, status: Option<Status>) {
    && Active(tasks, t) && (pc == Ended || pc == Asleep)
    && PcFits(tasks[t].role, pc)
    && (tasks[t].pc.AwaitsRecovery? ==> !Active(tasks, tasks[t].pc.other))
    && (lock == Some(t) ==> CachesOk(None, known, e.issued, candidates))
    && (if status.Some? then !Pending(status.value) else OpOf(tasks[t]).None? || !e.closer.Open?)
  }

  /** Concluding keeps every part of what holds. */
  lemma ConcludeKeeps(tasks: Tasks, lock: Option<TaskId>, known: Cache, candidates: Cache, e: Env,
                      active: map<DeviceId, OpId>, nextTask: TaskId, nextOp: OpId, t: TaskId, pc: Pc,
                      status: Option<Status>)
    requires LockOk(tasks, lock) && CachesOk(Held(tasks, lock), known, e.issued, candidates)
    requires TasksOk(tasks, e) && TablesOk(tasks, e.recoveries, e.polls) && OpsOk(tasks, e.ops, active, e.closer)
    requires StraysOk(tasks, e.ops, active, e.closer) && IdsOk(tasks, e.ops, nextTask, nextOp)
    requires CanConclude(tasks, lock, known, candidates, e, t, pc, status)
    ensures t in tasks
    ensures var moved := Moved(tasks, t, pc);
            var ops := StatusAfter(e.ops, OpOf(tasks[t]), status);
            var recoveries, polls := TableAfter(e.recoveries, t, pc), TableAfter(e.polls, t, pc);
            && LockOk(moved, LockAfter(lock, t, pc))
            && CachesOk(Held(moved, LockAfter(lock, t, pc)), known, e.issued, candidates)
            && TasksOk(moved, e.(ops := ops, recoveries := recoveries, polls := polls))
            && TablesOk(moved, recoveries, polls) && OpsOk(moved, ops, active, e.closer)
            && StraysOk(moved, ops, active, e.closer) && IdsOk(moved, ops, nextTask, nextOp)
  {
    hide LockOk, CachesOk, TasksOk, TablesOk, OpsOk, StraysOk, IdsOk, ExecutesOk, PcFits, Held;
    hide Moved, StatusAfter, TableAfter, OpOf;
    ConcludeKeepsTasks(tasks, e, t, pc, status);
    MoveKeepsLock(tasks, lock, t, pc);
    ConcludeKeepsTables(tasks, e.recoveries, e.polls, t, pc);
    ConcludeKeepsOps(tasks, e.ops, active, e.closer, t, pc, status);
    ConcludeKeepsRest(tasks, e.ops, active, e.closer, nextTask, nextOp, t, pc, status);
  }

  // ---------- Steps that need nothing but the lock ----------

  /** Places at which a task waits for something it does not hold the lock for. */
  lemma WaitingCanMove(tasks: Tasks, lock: Option<TaskId>, known: Cache, candidates: Cache, e: Env, t: TaskId, pc: Pc)
    requires LockOk(tasks, lock) && CachesOk(Held(tasks, lock), known, e.issued, candidates)
    requires Active(tasks, t) && pc != Ended && !pc.Fresh? && !Midway(tasks[t].pc) && !Holds(pc)
    requires tasks[t].pc.AwaitsRecovery? ==> !Active(tasks, tasks[t].pc.other)
    requires OpOf(tasks[t].(pc := pc)) == OpOf(tasks[t])
    requires PlaceOk(tasks[t].(pc := pc), e.rows, e.issued, e.raced)
    requires DisconnectOk(tasks[t].(pc := pc), e.rows, e.recoveries, e.polls)
    ensures CanMove(tasks, lock, candidates, e, t, pc, known)
  {
  }

  function WithLock(pc: Pc, candidates: Cache): Pc
    requires pc.WantsScan? || pc.WantsRead? || pc.WantsRelease? || pc.WantsDisconnect? || pc.WantsConnect?
  {
    match pc
    case WantsScan => Scanning
    case WantsRead => PollReading
    case WantsRelease(w) => Releasing(w)
    case WantsDisconnect(w) => Disconnecting(w)
    case WantsConnect(w) =>
      // A reconnect of a known identity never trusts a candidate found before it.
      if !(w.action == Reconnect && w.row.identity.Some?) && w.row.discovery in candidates
      then Chosen(w, candidates[w.row.discovery])
      else Resolving(w, false)
  }

  lemma CachedIsIssued(known: Cache, issued: Cache, candidates: Cache, id: nat)
    requires Within(known, issued) && Within(candidates, issued) && candidates.Keys <= known.Keys && id in candidates
    ensures candidates[id].id == id && id in issued && candidates[id] == issued[id] && IsCurrent(candidates[id], known)
  {
    assert id in candidates.Keys;
  }

  lemma AcquireCanMove(tasks: Tasks, lock: Option<TaskId>, known: Cache, candidates: Cache, e: Env, t: TaskId)
    requires LockOk(tasks, lock) && CachesOk(Held(tasks, lock), known, e.issued, candidates) && TasksOk(tasks, e)
    requires Live(tasks, t) && lock == None
    requires tasks[t].pc.WantsScan? || tasks[t].pc.WantsRead? || tasks[t].pc.WantsRelease?
             || tasks[t].pc.WantsDisconnect? || tasks[t].pc.WantsConnect?
    ensures CanMove(tasks, lock, candidates, e, t, WithLock(tasks[t].pc, candidates), known)
    ensures Holds(WithLock(tasks[t].pc, candidates))
  {
    hide TasksOk, OwnedOk, ExecutesOk, StageOk, Within;
    TaskFacts(tasks, e, t);
    if tasks[t].pc.WantsConnect? && tasks[t].pc.w.row.discovery in candidates {
      CachedIsIssued(known, e.issued, candidates, tasks[t].pc.w.row.discovery);
    }
  }

  lemma FoundCanMove(tasks: Tasks, lock: Option<TaskId>, known: Cache, candidates: Cache, e: Env, t: TaskId, pc: Pc)
    requires LockOk(tasks, lock) && CachesOk(Held(tasks, lock), known, e.issued, candidates) && TasksOk(tasks, e)
    requires Live(tasks, t) && Midway(pc) && Within(ById(pc.list), e.issued) && UniqueIds(pc.list)
    requires (tasks[t].pc.Scanning? && pc.Found?)
             || (tasks[t].pc.Resolving? && pc.Resolved? && pc.w == tasks[t].pc.w)
    ensures CanMove(tasks, lock, candidates, e, t, pc, ById(pc.list)) && lock == Some(t)
  {
    hide TasksOk, OwnedOk, ExecutesOk, StageOk, Within, ById;
    TaskFacts(tasks, e, t);
  }

  function AfterScan(role: Role, closer: Closer): Pc {
    if role.Background? && closer.Open? then Asleep else Ended
  }

  lemma PublishKeepsCaches(tasks: Tasks, lock: Option<TaskId>, known: Cache, issued: Cache, candidates: Cache,
                           t: TaskId)
    requires LockOk(tasks, lock) && CachesOk(Held(tasks, lock), known, issued, candidates)
    requires Active(tasks, t) && Midway(tasks[t].pc)
    ensures known == ById(tasks[t].pc.list) && lock == Some(t)
    ensures CachesOk(Held(tasks, lock), known, issued, ById(tasks[t].pc.list))
  {
  }

  lemma ScanCanConclude(tasks: Tasks, lock: Option<TaskId>, known: Cache, candidates: Cache, e: Env, t: TaskId,
                        status: Status)
    requires LockOk(tasks, lock) && CachesOk(Held(tasks, lock), known, e.issued, candidates) && TasksOk(tasks, e)
    requires Active(tasks, t) && !Pending(status)
    requires tasks[t].pc.Scanning? || (tasks[t].pc.Found? && candidates == known)
    ensures CanConclude(tasks, lock, known, candidates, e, t, AfterScan(tasks[t].role, e.closer), Some(status))
    ensures lock == Some(t) && (IsUser(tasks[t].role) || tasks[t].role.Background?)
    ensures !Holds(AfterScan(tasks[t].role, e.closer))
  {
    hide TasksOk, OwnedOk, ExecutesOk, DisconnectOk, Within, ById;
    TaskFacts(tasks, e, t);
  }

  // ---------- Steps of connection operations ----------

  function NewWork(role: Role, rows: map<DeviceId, Row>): Work
    requires role.UserOp? && role.device in rows
  {
    Work(role.started, role.device, role.action, rows[role.device], false)
  }

  function AfterRecovery(w: Work, polls: Table, connected: Option<DeviceId>, owner: Option<DeviceId>,
                         linkUp: bool): Pc {
    if w.action == Connect then
      if connected == Some(w.device) && linkUp then Ended else WantsConnect(w)
    else if w.device in polls then AwaitsPoll(w, polls[w.device])
    else AfterPolling(w, owner)
  }

  /** A disconnect touches the adapter only for its owner, or when nobody owns it. */
  function AfterPolling(w: Work, owner: Option<DeviceId>): Pc {
    if w.action == Reconnect then WantsRelease(w)
    else if owner == None || owner == Some(w.device) then WantsDisconnect(w)
    else Ended
  }

  /** Task `t` executes `w` and has nothing left to wait for. */
  ghost predicate Executing(tasks: Tasks, e: Env, t: TaskId, w: Work) {
    && Live(tasks, t) && (tasks[t].role.UserOp? || tasks[t].role.Recovery?)
    && RoleFits(tasks[t].role, w) && WorkOk(w, e.rows, e.issued, e.raced)
    && OpOf(tasks[t]) == Some(w.op)
    && (tasks[t].pc.Fresh?
        || ((tasks[t].pc.AwaitsRecovery? || tasks[t].pc.AwaitsPoll?) && tasks[t].pc.w == w
            && !Active(tasks, tasks[t].pc.other)))
  }

  lemma BeginsExecuting(tasks: Tasks, e: Env, t: TaskId)
    requires TasksOk(tasks, e) && RegistryOk(e.rows, e.issued, e.raced) && Live(tasks, t)
    requires tasks[t].role.UserOp? && tasks[t].pc.Fresh?
    ensures tasks[t].role.device in e.rows && Executing(tasks, e, t, NewWork(tasks[t].role, e.rows))
  {
    assert TaskOk(t, tasks[t], e);
  }

  lemma StillExecuting(tasks: Tasks, e: Env, t: TaskId)
    requires TasksOk(tasks, e) && Live(tasks, t) && (tasks[t].pc.AwaitsRecovery? || tasks[t].pc.AwaitsPoll?)
    requires !Active(tasks, tasks[t].pc.other)
    ensures Executing(tasks, e, t, tasks[t].pc.w)
    ensures tasks[t].pc.AwaitsRecovery? ==> tasks[t].role.UserOp?
    ensures tasks[t].pc.w.action == Disconnect ==> tasks[t].role.UserOp? && tasks[t].role.action == Disconnect
    ensures tasks[t].pc.w.action == Disconnect ==> tasks[t].pc.w.device !in e.recoveries
    ensures tasks[t].pc.w.action == Disconnect && tasks[t].pc.AwaitsPoll? ==> tasks[t].pc.w.device !in e.polls
  {
    assert TaskOk(t, tasks[t], e);
  }

  lemma ExecutingCanMove(tasks: Tasks, lock: Option<TaskId>, known: Cache, candidates: Cache, e: Env, t: TaskId,
                         w: Work, pc: Pc)
    requires LockOk(tasks, lock) && CachesOk(Held(tasks, lock), known, e.issued, candidates)
    requires Executing(tasks, e, t, w)
    requires match pc
             case WantsConnect(v) => v == w && w.action == Connect
             case WantsRelease(v) => v == w && w.action == Reconnect
             case WantsDisconnect(v) => v == w && w.action == Disconnect
             case AwaitsPoll(v, _) => v == w && w.action != Connect
             case _ => false
    requires w.action == Disconnect ==> w.device !in e.recoveries && w.device !in e.polls
    ensures CanMove(tasks, lock, candidates, e, t, pc, known) && lock != Some(t) && Active(tasks, t)
  {
    hide CachesOk;
  }

  lemma ExecutingCanEnd(tasks: Tasks, lock: Option<TaskId>, known: Cache, candidates: Cache, e: Env, t: TaskId, w: Work)
    requires LockOk(tasks, lock) && CachesOk(Held(tasks, lock), known, e.issued, candidates)
    requires Executing(tasks, e, t, w)
    ensures CanConclude(tasks, lock, known, candidates, e, t, Ended, Some(Succeeded)) && lock != Some(t)
  {
  }

  /** A task executing a new or running operation may start or finish it. */
  lemma ExecutingMovesOps(tasks: Tasks, e: Env, t: TaskId, status: Status)
    requires TasksOk(tasks, e) && Active(tasks, t) && status != Queued
    ensures OpsMove(e.ops, WithStatus(e.ops, OpOf(tasks[t]), status))
  {
    assert TaskOk(t, tasks[t], e);
  }

  /** Cancelling the polling of the device leaves the task that executes the operation as it was. */
  lemma CancelKeepsExecuting(tasks: Tasks, e: Env, t: TaskId, w: Work)
    requires TablesOk(tasks, e.recoveries, e.polls) && Executing(tasks, e, t, w) && w.device in e.polls
    ensures var p := e.polls[w.device];
            p in tasks && p != t && w.device !in Without(e.polls, w.device)
            && WithCancelled(tasks, p)[t] == tasks[t]
            && Executing(WithCancelled(tasks, p), e.(polls := Without(e.polls, w.device)), t, w)
  {
  }

  lemma DesireKeepsExecuting(tasks: Tasks, e: Env, t: TaskId, w: Work)
    requires Executing(tasks, e, t, w)
    ensures t in tasks && w.device in e.rows
    ensures Executing(tasks, e.(rows := e.rows[w.device := e.rows[w.device].(desired := false)]), t, w)
  {
  }

  lemma RegisteredRow(rows: map<DeviceId, Row>, issued: Cache, raced: bool, d: DeviceId)
    requires RegistryOk(rows, issued, raced) && d in rows
    ensures rows[d].discovery in issued && (raced || issued[rows[d].discovery].identity == rows[d].identity)
  {
  }

  lemma StoppedRecovery(tasks: Tasks, e: Env, t: TaskId, d: DeviceId, pc: Pc)
    requires TablesOk(tasks, e.recoveries, e.polls) && d in e.recoveries && t in tasks && tasks[t].role.UserOp?
    ensures var u := e.recoveries[d];
            u in tasks && u != t && Moved(WithCancelled(tasks, u), t, pc)[u].cancelled
            && Moved(WithCancelled(tasks, u), t, pc)[t] == tasks[t].(pc := pc)
            && Moved(WithCancelled(tasks, u), t, pc).Keys == tasks.Keys
            && d !in Without(e.recoveries, d)
  {
  }

  lemma ExecutesIts(tasks: Tasks, e: Env, t: TaskId, w: Work)
    requires Executing(tasks, e, t, w)
    ensures RoleFits(tasks[t].role, w) && WorkOk(w, e.rows, e.issued, e.raced)
  {
  }

  // ---------- Under the lock ----------

  /** Where an operation goes on to once the adapter has answered. */
  function Onward(pc: Pc): Pc
    requires pc.Releasing? || pc.Rescuing? || pc.Chosen?
  {
    match pc
    case Releasing(w) => WantsConnect(w)
    case Rescuing(w) => Resolving(w, true)
    case Chosen(w, c) => Reading(w, c)
  }

  /** Steps under the lock that neither refill nor read a cache. */
  lemma HoldingCanMove(tasks: Tasks, lock: Option<TaskId>, known: Cache, candidates: Cache, e: Env, t: TaskId)
    requires LockOk(tasks, lock) && CachesOk(Held(tasks, lock), known, e.issued, candidates) && TasksOk(tasks, e)
    requires Live(tasks, t) && (tasks[t].pc.Releasing? || tasks[t].pc.Rescuing? || tasks[t].pc.Chosen?)
    ensures CanMove(tasks, lock, candidates, e, t, Onward(tasks[t].pc), known) && lock == Some(t)
  {
    hide TasksOk, OwnedOk, ExecutesOk, StageOk, Within, ById;
    TaskFacts(tasks, e, t);
  }

  /** What a resolution found for its operation; only a registered identity is ever looked up. */
  function Match(w: Work, list: seq<Candidate>): Option<Candidate> {
    if w.row.identity.Some? then FirstWith(list, w.row.identity.value) else None
  }

  /** Choosing from what a resolution found. */
  lemma MatchCanMove(tasks: Tasks, lock: Option<TaskId>, known: Cache, candidates: Cache, e: Env, t: TaskId)
    requires LockOk(tasks, lock) && CachesOk(Held(tasks, lock), known, e.issued, candidates) && TasksOk(tasks, e)
    requires Active(tasks, t) && tasks[t].pc.Resolved? && candidates == known
    requires Match(tasks[t].pc.w, tasks[t].pc.list).Some?
    ensures var w := tasks[t].pc.w;
            var c := Match(w, tasks[t].pc.list).value;
            CanMove(tasks, lock, candidates, e, t, Chosen(w, c), known) && c.id in e.issued
            && w.device in e.rows && (e.raced || e.issued[c.id].identity == e.rows[w.device].identity)
  {
    hide TasksOk, OwnedOk, ExecutesOk, StageOk, FirstWith, ById;
    TaskFacts(tasks, e, t);
    FirstWithFits(tasks[t].pc.list, tasks[t].pc.w.row.identity.value);
    ByIdFinds(e.issued, tasks[t].pc.list, Match(tasks[t].pc.w, tasks[t].pc.list).value);
  }

  /** Whatever a resolution found, rescuing the link is always possible. */
  lemma RescueCanMove(tasks: Tasks, lock: Option<TaskId>, known: Cache, candidates: Cache, e: Env, t: TaskId)
    requires LockOk(tasks, lock) && CachesOk(Held(tasks, lock), known, e.issued, candidates) && TasksOk(tasks, e)
    requires Active(tasks, t) && tasks[t].pc.Resolved? && candidates == known
    ensures CanMove(tasks, lock, candidates, e, t, Rescuing(tasks[t].pc.w), known) && tasks[t].pc.w.device in e.rows
  {
    hide TasksOk, OwnedOk, ExecutesOk, StageOk, ById, Within;
    TaskFacts(tasks, e, t);
  }

  lemma MatchIsCurrent(tasks: Tasks, lock: Option<TaskId>, known: Cache, candidates: Cache, e: Env, t: TaskId)
    requires LockOk(tasks, lock) && CachesOk(Held(tasks, lock), known, e.issued, candidates) && TasksOk(tasks, e)
    requires Active(tasks, t) && tasks[t].pc.Resolved? && candidates == known
    ensures var w := tasks[t].pc.w;
            var c := Match(w, tasks[t].pc.list);
            w.device in e.rows
            && (c.Some? ==>
                  CanMove(tasks, lock, candidates, e, t, Chosen(w, c.value), known) && c.value.id in e.issued
                  && (e.raced || e.issued[c.value.id].identity == e.rows[w.device].identity))
            && CanMove(tasks, lock, candidates, e, t, Rescuing(w), known)
  {
    hide TasksOk, CachesOk, LockOk, CanMove, Match;
    RescueCanMove(tasks, lock, known, candidates, e, t);
    if Match(tasks[t].pc.w, tasks[t].pc.list).Some? {
      MatchCanMove(tasks, lock, known, candidates, e, t);
    }
  }

  /** Choosing a candidate for a device only depends on its row through the identity. */
  lemma DiscoveryKeepsMove(tasks: Tasks, lock: Option<TaskId>, known: Cache, candidates: Cache, e: Env, t: TaskId,
                           pc: Pc, d: DeviceId, row: Row)
    requires CanMove(tasks, lock, candidates, e, t, pc, known) && d in e.rows
    requires row == e.rows[d].(discovery := row.discovery)
    ensures CanMove(tasks, lock, candidates, e.(rows := e.rows[d := row]), t, pc, known)
  {
    hide CachesOk, PcFits, OpOf, HeldAfter, Active, Holds;
  }

  /** Places at which an operation can fail; a resolution fails once its result is published. */
  predicate CanFail(pc: Pc) {
    || pc.Releasing? || pc.Resolving? || pc.Resolved? || pc.Rescuing? || pc.Chosen? || pc.Reading? || pc.Disconnecting?
  }

  /** Whoever gives the lock back leaves the caches in agreement. */
  lemma ReleaseKeepsCaches(tasks: Tasks, lock: Option<TaskId>, known: Cache, issued: Cache, candidates: Cache, t: TaskId)
    requires LockOk(tasks, lock) && CachesOk(Held(tasks, lock), known, issued, candidates)
    requires Active(tasks, t) && Holds(tasks[t].pc) && (Midway(tasks[t].pc) ==> candidates == known)
    ensures lock == Some(t) && CachesOk(None, known, issued, candidates)
  {
  }

  lemma FailureCanConclude(tasks: Tasks, lock: Option<TaskId>, known: Cache, candidates: Cache, e: Env, t: TaskId,
                           pc: Pc)
    requires LockOk(tasks, lock) && CachesOk(Held(tasks, lock), known, e.issued, candidates) && TasksOk(tasks, e)
    requires Active(tasks, t) && CanFail(tasks[t].pc) && (tasks[t].pc.Resolved? ==> candidates == known)
    requires pc == Ended || (pc == Asleep && tasks[t].role.Recovery?)
    ensures CanConclude(tasks, lock, known, candidates, e, t, pc, Some(Failed)) && lock == Some(t)
    ensures CanConclude(tasks, lock, known, candidates, e, t, pc, Some(Succeeded))
    ensures tasks[t].role.UserOp? || tasks[t].role.Recovery?
    ensures tasks[t].pc.w.device in e.rows && DeviceOf(tasks[t].role) == Some(tasks[t].pc.w.device)
    ensures tasks[t].role.Recovery? ==> tasks[t].pc.w.recovering
    ensures tasks[t].role.UserOp? ==> tasks[t].pc.w.action == tasks[t].role.action
    ensures tasks[t].pc.w.action != Disconnect ==> e.raced || e.owner == Some(tasks[t].pc.w.device)
    ensures StageOf(e.closer) < 4
  {
    hide TasksOk, CachesOk, LockOk, DisconnectOk;
    TaskFacts(tasks, e, t);
    ReleaseKeepsCaches(tasks, lock, known, e.issued, candidates, t);
  }

  /** Once the one user task of a device has settled its operation, no user task of it is left. */
  lemma SettledLeavesNoUserTask(tasks: Tasks, e: Env, active: map<DeviceId, OpId>, t: TaskId, status: Status)
    requires TasksOk(tasks, e) && OpsOk(tasks, e.ops, active, e.closer)
    requires Active(tasks, t) && tasks[t].role.UserOp?
    ensures forall table :: CalmFor(Moved(tasks, t, Ended), table, tasks[t].role.device)
  {
    var moved := Moved(tasks, t, Ended);
    forall u | u in moved && IsDisconnect(moved[u], tasks[t].role.device) ensures false {
      OneUserTask(tasks, e, active, t, u);
    }
  }

  /** A recovery that ends leaves any disconnect of its device at its first step. */
  lemma RecoveredLeavesCalm(tasks: Tasks, e: Env, t: TaskId)
    requires TasksOk(tasks, e) && TablesOk(tasks, e.recoveries, e.polls)
    requires Live(tasks, t) && tasks[t].role.Recovery?
    ensures CalmFor(Moved(tasks, t, Ended), Discarded(e.recoveries, t), tasks[t].role.recovered)
  {
    var moved := Moved(tasks, t, Ended);
    var d := tasks[t].role.recovered;
    forall u | u in moved && IsDisconnect(moved[u], d)
      ensures moved[u].pc.Fresh? && d !in Discarded(e.recoveries, t)
    {
      assert TaskOk(u, tasks[u], e) && TaskOk(t, tasks[t], e);
    }
  }

  /** A polling task that ends while its device is still wanted leaves any disconnect of it at its first step. */
  lemma PolledLeavesCalm(tasks: Tasks, e: Env, t: TaskId)
    requires TasksOk(tasks, e) && TablesOk(tasks, e.recoveries, e.polls)
    requires Live(tasks, t) && tasks[t].role.Poll?
    ensures var d := tasks[t].role.polled;
            d in e.rows && (e.raced || e.owner == Some(d))
            && (e.rows[d].desired ==> CalmFor(Moved(tasks, t, Ended), Discarded(e.polls, t), d))
  {
    var moved := Moved(tasks, t, Ended);
    assert TaskOk(t, tasks[t], e);
    var d := tasks[t].role.polled;
    if e.rows[d].desired {
      forall u | u in moved && IsDisconnect(moved[u], d)
        ensures moved[u].pc.Fresh? && d !in Discarded(e.polls, t)
      {
        assert TaskOk(u, tasks[u], e);
      }
    }
  }

  lemma PollKeepsCalm(tasks: Tasks, table: Table, d: DeviceId, t: TaskId, task: Task)
    requires CalmFor(tasks, table, d) && task.role.Poll?
    ensures CalmFor(tasks[t := task], table, d)
  {
  }

  lemma PopKeepsCaches(held: Option<Pc>, known: Cache, issued: Cache, candidates: Cache, id: nat)
    requires CachesOk(held, known, issued, candidates)
    ensures CachesOk(held, known, issued, candidates - {id})
  {
  }

  // ---------- Sleeping tasks ----------

  lemma SleeperFacts(tasks: Tasks, lock: Option<TaskId>, known: Cache, candidates: Cache, e: Env, t: TaskId)
    requires LockOk(tasks, lock) && CachesOk(Held(tasks, lock), known, e.issued, candidates) && TasksOk(tasks, e)
    requires Live(tasks, t) && (tasks[t].role.Recovery? || tasks[t].role.Poll? || tasks[t].role.Background?)
    requires tasks[t].pc.Fresh? || tasks[t].pc == Asleep || tasks[t].pc.PollReading?
    ensures CanConclude(tasks, lock, known, candidates, e, t, Ended, None)
    ensures CanConclude(tasks, lock, known, candidates, e, t, Asleep, None)
    ensures !tasks[t].role.Background? ==> DeviceOf(tasks[t].role).value in e.rows
    ensures tasks[t].pc.PollReading? <==> lock == Some(t)
    ensures tasks[t].role.Poll? && tasks[t].pc == Asleep ==> CanMove(tasks, lock, candidates, e, t, WantsRead, known)
  {
    hide TasksOk, OwnedOk, ExecutesOk, StageOk, Within, ById;
    TaskFacts(tasks, e, t);
  }

  function RecoveryWork(o: OpId, d: DeviceId, rows: map<DeviceId, Row>): Work
    requires d in rows
  {
    Work(o, d, Reconnect, rows[d], true)
  }

  lemma RecoveryPlaceOk(task: Task, e: Env, o: OpId, d: DeviceId, pc: Pc)
    requires RegistryOk(e.rows, e.issued, e.raced) && d in e.rows && task.role == Recovery(d)
    requires pc == WantsRelease(RecoveryWork(o, d, e.rows)) || (pc.AwaitsPoll? && pc.w == RecoveryWork(o, d, e.rows))
    ensures PlaceOk(task.(pc := pc), e.rows, e.issued, e.raced)
  {
  }

  // ---------- Unwinding ----------

  /** The error a cancelled task settles its operation with, if it has begun. */
  function Unwound(task: Task): Option<Status> {
    if OpOf(task).Some? && !task.pc.Fresh? then Some(Failed) else None
  }

  predicate CanUnwind(tasks: Tasks, t: TaskId) {
    && Active(tasks, t) && tasks[t].cancelled && !Midway(tasks[t].pc)
    && (tasks[t].pc.AwaitsRecovery? || tasks[t].pc.AwaitsPoll? ==> !Active(tasks, tasks[t].pc.other))
  }

  lemma UnwindCanConclude(tasks: Tasks, lock: Option<TaskId>, known: Cache, candidates: Cache, e: Env, t: TaskId)
    requires LockOk(tasks, lock) && CachesOk(Held(tasks, lock), known, e.issued, candidates) && TasksOk(tasks, e)
    requires CanUnwind(tasks, t)
    ensures CanConclude(tasks, lock, known, candidates, e, t, Ended, Unwound(tasks[t]))
  {
    hide TasksOk, OwnedOk, ExecutesOk, DisconnectOk, Within, ById;
    TaskFacts(tasks, e, t);
  }

  // ---------- Stages of closing ----------

  function BackgroundTasks(tasks: Tasks): set<TaskId> {
    set t | t in tasks && tasks[t].role.Background? && tasks[t].pc != Ended
  }

  function UserTasks(tasks: Tasks): set<TaskId> {
    set t | t in tasks && IsUser(tasks[t].role) && tasks[t].pc != Ended
  }

  function Named(table: Table): set<TaskId> {
    set d | d in table :: table[d]
  }

  predicate AllEnded(tasks: Tasks, waiting: set<TaskId>) {
    forall t :: t in waiting ==> !Active(tasks, t)
  }

  lemma StageOneFits(tasks: Tasks, e: Env)
    requires TasksOk(tasks, e) && e.closer.Open?
    ensures var group := BackgroundTasks(tasks);
            forall t :: t in tasks ==> StageOk(t, AllCancelled(tasks, group)[t], Closing(1, group))
  {
    forall t | t in tasks ensures StageOk(t, tasks[t], e.closer) {
      assert TaskOk(t, tasks[t], e);
    }
  }

  lemma StageTwoFits(tasks: Tasks, e: Env)
    requires TasksOk(tasks, e) && StageOf(e.closer) == 1 && AllEnded(tasks, e.closer.waiting)
    ensures var group := UserTasks(tasks);
            forall t :: t in tasks ==> StageOk(t, AllCancelled(tasks, group)[t], Closing(2, group))
  {
    forall t | t in tasks ensures StageOk(t, tasks[t], e.closer) {
      assert TaskOk(t, tasks[t], e);
    }
  }

  lemma NobodyWaits(tasks: Tasks, e: Env)
    requires TasksOk(tasks, e) && StageOf(e.closer) == 2 && AllEnded(tasks, e.closer.waiting)
    ensures forall u :: Active(tasks, u) ==> !tasks[u].pc.AwaitsRecovery?
  {
    forall u | Active(tasks, u) ensures !tasks[u].pc.AwaitsRecovery? {
      assert TaskOk(u, tasks[u], e);
    }
  }

  /** When all user tasks have ended, every recovery that has not is in the table. */
  lemma StageThreeFits(tasks: Tasks, e: Env, active: map<DeviceId, OpId>)
    requires TasksOk(tasks, e) && TablesOk(tasks, e.recoveries, e.polls) && StraysOk(tasks, e.ops, active, e.closer)
    requires StageOf(e.closer) == 2 && AllEnded(tasks, e.closer.waiting)
    ensures var group := Named(e.recoveries);
            forall t :: t in tasks ==> StageOk(t, AllCancelled(tasks, group)[t], Closing(3, group))
  {
    var group := Named(e.recoveries);
    NobodyWaits(tasks, e);
    forall t | t in tasks ensures StageOk(t, AllCancelled(tasks, group)[t], Closing(3, group)) {
      assert TaskOk(t, tasks[t], e);
    }
  }

  lemma StageFourFits(tasks: Tasks, e: Env)
    requires TasksOk(tasks, e) && TablesOk(tasks, e.recoveries, e.polls)
    requires StageOf(e.closer) == 3 && AllEnded(tasks, e.closer.waiting)
    ensures var group := Named(e.polls);
            forall t :: t in tasks ==> StageOk(t, AllCancelled(tasks, group)[t], Closing(4, group))
  {
    var group := Named(e.polls);
    forall t | t in tasks ensures StageOk(t, AllCancelled(tasks, group)[t], Closing(4, group)) {
      assert TaskOk(t, tasks[t], e);
    }
  }

  /** Cancelling everything a table names empties it and touches the other table not at all. */
  lemma NamedEmpties(tasks: Tasks, recoveries: Table, polls: Table)
    requires TablesOk(tasks, recoveries, polls)
    ensures forall d :: d in recoveries ==> recoveries[d] in Named(recoveries) && recoveries[d] !in Named(polls)
    ensures forall d :: d in polls ==> polls[d] in Named(polls) && polls[d] !in Named(recoveries)
    ensures forall d :: d in recoveries ==> recoveries[d] !in UserTasks(tasks) + BackgroundTasks(tasks)
    ensures forall d :: d in polls ==> polls[d] !in UserTasks(tasks) + BackgroundTasks(tasks)
    ensures forall t :: t in tasks && t in UserTasks(tasks) + BackgroundTasks(tasks) ==> !tasks[t].role.Recovery?
  {
  }

  lemma InterruptKeepsRest(tasks: Tasks, ops: map<OpId, Op>, active: map<DeviceId, OpId>, closer: Closer,
                           nextTask: TaskId, nextOp: OpId)
    requires OpsOk(tasks, ops, active, closer) && IdsOk(tasks, ops, nextTask, nextOp)
    ensures OpsOk(tasks, Interrupted(ops), active, Closed) && IdsOk(tasks, Interrupted(ops), nextTask, nextOp)
    ensures OpsMove(ops, Interrupted(ops))
    ensures StraysOk(tasks, Interrupted(ops), active, Closed)
  {
  }

  lemma NotIn(table: Table, d: DeviceId)
    ensures d !in Without(table, d)
  {
  }

  /** Whoever connects a device leaves any disconnect of it at its first step. */
  lemma ConnectedLeavesCalm(tasks: Tasks, e: Env, active: map<DeviceId, OpId>, t: TaskId)
    requires TasksOk(tasks, e) && OpsOk(tasks, e.ops, active, e.closer) && TablesOk(tasks, e.recoveries, e.polls)
    requires Live(tasks, t) && tasks[t].pc.Reading?
    ensures CalmFor(Moved(tasks, t, Ended), Discarded(e.recoveries, t), tasks[t].pc.w.device)
    ensures e.raced || e.owner == Some(tasks[t].pc.w.device)
    ensures StageOf(e.closer) < 4
  {
    assert TaskOk(t, tasks[t], e);
    if tasks[t].role.UserOp? {
      SettledLeavesNoUserTask(tasks, e, active, t, Succeeded);
    } else {
      RecoveredLeavesCalm(tasks, e, t);
    }
  }

  lemma DisconnectsForUser(tasks: Tasks, e: Env, t: TaskId)
    requires TasksOk(tasks, e) && Active(tasks, t) && tasks[t].pc.Disconnecting?
    ensures IsUser(tasks[t].role)
  {
    assert TaskOk(t, tasks[t], e);
  }

  lemma OpsStay(ops: map<OpId, Op>)
    ensures OpsMove(ops, ops)
  {
  }

  lemma OpsGrow(ops: map<OpId, Op>, o: OpId, op: Op)
    ensures o !in ops ==> OpsMove(ops, ops[o := op])
  {
  }

  lemma SpawnBackgroundKeepsTasks(tasks: Tasks, e: Env, t: TaskId)
    requires TasksOk(tasks, e) && t !in tasks && e.closer.Open?
    ensures TasksOk(tasks[t := Task(Background, Asleep, false)], e)
  {
  }

  /** Concluding anything but polling leaves the polling table alone. */
  lemma PollsNotFailing(tasks: Tasks, e: Env, t: TaskId, pc: Pc)
    requires TablesOk(tasks, e.recoveries, e.polls) && t in tasks && !tasks[t].role.Poll?
    ensures TableAfter(e.polls, t, pc) == e.polls
  {
  }
}
