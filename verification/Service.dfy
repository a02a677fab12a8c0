/**
 The vocabulary of the administrative service: discovery results, registrations, operations
 and tasks, and what a running service keeps true about them. A task has one program counter
 value for each place where it can be suspended.
 */
module ServiceState {
  import opened Basics

  type DeviceId = string
  type Identity = string
  type TaskId = nat
  type OpId = nat

  datatype Candidate = Candidate(id: nat, name: string, identity: Option<Identity>)

  /** What matters here of a registered device. */
  datatype Row = Row(discovery: nat, identity: Option<Identity>, desired: bool, auto: bool)

  datatype Action = Connect | Disconnect | Reconnect

  datatype Status = Queued | Running | Succeeded | Failed

  datatype Kind = ScanKind | LinkKind(action: Action)

  /** `runner` is the task that executes the operation; recovery makes operations of its own. */
  datatype Op = Op(kind: Kind, device: Option<DeviceId>, status: Status, byUser: bool, runner: TaskId)

  datatype Role =
    | Background
    | UserScan(scan: OpId)
    | UserOp(started: OpId, device: DeviceId, action: Action)
    | Recovery(recovered: DeviceId)
    | Poll(polled: DeviceId)

  /** An operation being executed, with the device row it read when it began. */
  datatype Work = Work(op: OpId, device: DeviceId, action: Action, row: Row, recovering: bool)

  datatype Pc =
    | Fresh(immediate: bool)
    | Asleep
    | WantsScan
    | Scanning
    | Found(list: seq<Candidate>)
    | AwaitsRecovery(w: Work, other: TaskId)
    | AwaitsPoll(w: Work, other: TaskId)
    | WantsRelease(w: Work)
    | Releasing(w: Work)
    | WantsConnect(w: Work)
    | Resolving(w: Work, again: bool)
    | Resolved(w: Work, list: seq<Candidate>, again: bool)
    | Rescuing(w: Work)
    | Chosen(w: Work, chosen: Candidate)
    | Reading(w: Work, chosen: Candidate)
    | WantsDisconnect(w: Work)
    | Disconnecting(w: Work)
    | WantsRead
    | PollReading
    | Ended

  datatype Task = Task(role: Role, pc: Pc, cancelled: bool)

  type Tasks = map<TaskId, Task>
  type Table = map<DeviceId, TaskId>
  type Cache = map<nat, Candidate>

  /** Closing cancels and awaits, in stages: the background scan, user tasks, recoveries, polling. */
  datatype Closer =
    | Open
    | Closing(stage: nat, waiting: set<TaskId>)
    | Closed

  function StageOf(c: Closer): nat {
    match c
    case Open => 0
    case Closing(stage, _) => stage
    case Closed => 5
  }

  predicate Pending(status: Status) {
    status == Queued || status == Running
  }

  predicate Active(tasks: Tasks, t: TaskId) {
    t in tasks && tasks[t].pc != Ended
  }

  /** A task that can still take steps of its own; a cancelled one only unwinds. */
  predicate Live(tasks: Tasks, t: TaskId) {
    Active(tasks, t) && !tasks[t].cancelled
  }

  predicate IsUser(role: Role) {
    role.UserScan? || role.UserOp?
  }

  // ---------- Places ----------

  /** Places where the Bluetooth lock is held. */
  predicate Holds(pc: Pc) {
    || pc.Scanning? || pc.Found? || pc.Releasing? || pc.Resolving? || pc.Resolved? || pc.Rescuing?
    || pc.Chosen? || pc.Reading? || pc.Disconnecting? || pc.PollReading?
  }

  /** The adapter has replaced its cache and the service has not yet replaced its own. */
  predicate Midway(pc: Pc) {
    pc.Found? || pc.Resolved?
  }

  function WorkOf(pc: Pc): Option<Work> {
    match pc
    case AwaitsRecovery(w, _) => Some(w)
    case AwaitsPoll(w, _) => Some(w)
    case WantsRelease(w) => Some(w)
    case Releasing(w) => Some(w)
    case WantsConnect(w) => Some(w)
    case Resolving(w, _) => Some(w)
    case Resolved(w, _, _) => Some(w)
    case Rescuing(w) => Some(w)
    case Chosen(w, _) => Some(w)
    case Reading(w, _) => Some(w)
    case WantsDisconnect(w) => Some(w)
    case Disconnecting(w) => Some(w)
    case _ => None
  }

  /** The operation a task executes, if it has one. */
  function OpOf(task: Task): Option<OpId> {
    match task.role
    case UserScan(o) => Some(o)
    case UserOp(o, _, _) => Some(o)
    case _ => if WorkOf(task.pc).Some? then Some(WorkOf(task.pc).value.op) else None
  }

  predicate RoleFits(role: Role, w: Work) {
    if w.recovering then role == Recovery(w.device) && w.action == Reconnect
    else role == UserOp(w.op, w.device, w.action)
  }

  /** Which task can be at which place. */
  predicate PcFits(role: Role, pc: Pc) {
    match pc
    case Fresh(_) => true
    case Ended => true
    case Asleep => role.Background? || role.Recovery? || role.Poll?
    case WantsScan => role.Background? || role.UserScan?
    case Scanning => role.Background? || role.UserScan?
    case Found(_) => role.Background? || role.UserScan?
    case WantsRead => role.Poll?
    case PollReading => role.Poll?
    case WantsDisconnect(w) => RoleFits(role, w) && w.action == Disconnect
    case Disconnecting(w) => RoleFits(role, w) && w.action == Disconnect
    case AwaitsRecovery(w, _) => RoleFits(role, w) && !w.recovering
    case AwaitsPoll(w, _) => RoleFits(role, w) && w.action != Connect
    case _ => RoleFits(role, WorkOf(pc).value) && WorkOf(pc).value.action != Disconnect
  }

  // ---------- The lock and the caches ----------

  /** Exactly the holder of the lock is at a place where the lock is held. */
  ghost predicate LockOk(tasks: Tasks, lock: Option<TaskId>) {
    && (forall t :: t in tasks && Holds(tasks[t].pc) ==> lock == Some(t))
    && (lock.Some? ==> lock.value in tasks && Holds(tasks[lock.value].pc))
  }

  function LockAfter(lock: Option<TaskId>, t: TaskId, pc: Pc): Option<TaskId> {
    if Holds(pc) then Some(t) else if lock == Some(t) then None else lock
  }

  /** Where the holder of the lock is. */
  function Held(tasks: Tasks, lock: Option<TaskId>): Option<Pc> {
    if lock.Some? && lock.value in tasks then Some(tasks[lock.value].pc) else None
  }

  /** A dictionary by discovery identifier; of equal identifiers the last one stays. */
  function ById(list: seq<Candidate>): Cache {
    if |list| == 0 then map[]
    else ById(list[..|list| - 1])[list[|list| - 1].id := list[|list| - 1]]
  }

  function FirstWith(list: seq<Candidate>, identity: Identity): Option<Candidate> {
    if |list| == 0 then None
    else if list[0].identity == Some(identity) then Some(list[0])
    else FirstWith(list[1..], identity)
  }

  /** Candidate `i` is the first of the list with a registered identity. */
  predicate IsFirstWith(list: seq<Candidate>, i: nat, identity: Option<Identity>)
    requires i < |list|
  {
    identity.Some? && list[i].identity == identity && forall j :: 0 <= j < i ==> list[j].identity != identity
  }

  /** No candidate of the list has the identity, or there is none to look for. */
  predicate NoneWith(list: seq<Candidate>, identity: Option<Identity>) {
    identity.Some? ==> forall i :: 0 <= i < |list| ==> list[i].identity != identity
  }

  ghost predicate Within(cache: Cache, issued: Cache) {
    forall id :: id in cache ==> id in issued && issued[id] == cache[id] && cache[id].id == id
  }

  /** One discovery identifier never names two candidates. */
  predicate UniqueIds(list: seq<Candidate>) {
    forall i, j :: 0 <= i < |list| && 0 <= j < |list| && list[i].id == list[j].id ==> list[i] == list[j]
  }

  /** What a discovery returns: its identifiers are unique, and new or those of the same candidate. */
  predicate NewIds(issued: Cache, list: seq<Candidate>) {
    && UniqueIds(list)
    && (forall i :: 0 <= i < |list| && list[i].id in issued ==> issued[list[i].id] == list[i])
  }

  /** A chosen candidate is the adapter's own. */
  predicate IsCurrent(c: Candidate, known: Cache) {
    c.id in known && known[c.id] == c
  }

  /**
   Both caches hold issued candidates. Except while the holder of the lock is between the two
   refills, every candidate the service caches is known to the adapter.
   */
  ghost predicate CachesOk(held: Option<Pc>, known: Cache, issued: Cache, candidates: Cache) {
    && Within(issued, issued) && Within(known, issued) && Within(candidates, issued)
    && (if held.Some? && Midway(held.value)
        then UniqueIds(held.value.list) && known == ById(held.value.list)
        else candidates.Keys <= known.Keys)
    && (held.Some? && held.value.Chosen? ==> IsCurrent(held.value.chosen, known))
  }

  // ---------- Registrations ----------

  /**
   Registrations name issued candidates, of their identity as long as ownership has never been
   raced away, and no two share an identity.
   */
  ghost predicate RegistryOk(rows: map<DeviceId, Row>, issued: Cache, raced: bool) {
    && (forall d :: d in rows ==>
          rows[d].discovery in issued && (raced || issued[rows[d].discovery].identity == rows[d].identity))
    && (forall d, e :: d in rows && e in rows && d != e && rows[d].identity.Some? ==> rows[d].identity != rows[e].identity)
  }

  // ---------- What holds of every single task ----------

  /**
   The rest of the state that what holds of a task refers to. `raced` says whether a disconnect
   ever ended while another device owned the adapter, which then lost its ownership.
   */
  datatype Env = Env(
    rows: map<DeviceId, Row>,
    issued: Cache,
    owner: Option<DeviceId>,
    raced: bool,
    recoveries: Table,
    polls: Table,
    ops: map<OpId, Op>,
    closer: Closer)

  /** While a device that owns the adapter is being connected, its registered identity stays the one the work read. */
  predicate WorkOk(w: Work, rows: map<DeviceId, Row>, issued: Cache, raced: bool) {
    && w.device in rows
    && w.row.discovery in issued
    && (raced || issued[w.row.discovery].identity == w.row.identity)
    && (raced || w.action == Disconnect || rows[w.device].identity == w.row.identity)
  }

  function DeviceOf(role: Role): Option<DeviceId> {
    match role
    case UserOp(_, d, _) => Some(d)
    case Recovery(d) => Some(d)
    case Poll(d) => Some(d)
    case _ => None
  }

  predicate PlaceOk(task: Task, rows: map<DeviceId, Row>, issued: Cache, raced: bool) {
    && PcFits(task.role, task.pc)
    && (WorkOf(task.pc).Some? ==> WorkOk(WorkOf(task.pc).value, rows, issued, raced))
    && (task.pc.Chosen? ==> raced || task.pc.chosen.identity == task.pc.w.row.identity)
    && (DeviceOf(task.role).Some? ==> DeviceOf(task.role).value in rows)
  }

  /** Whoever connects, recovers or polls a device does so for the owner of the adapter, unless that was raced away. */
  predicate OwnedOk(task: Task, owner: Option<DeviceId>, raced: bool) {
    raced || task.pc == Ended ||
      match task.role
      case UserOp(_, d, action) => action == Disconnect || owner == Some(d)
      case Recovery(d) => owner == Some(d)
      case Poll(d) => task.cancelled || owner == Some(d)
      case _ => true
  }

  predicate IsDisconnect(task: Task, d: DeviceId) {
    task.pc != Ended && !task.cancelled && task.role.UserOp? && task.role.device == d && task.role.action == Disconnect
  }

  /** No disconnect of the device has got beyond its first step, and none is in the table. */
  ghost predicate CalmFor(tasks: Tasks, table: Table, d: DeviceId) {
    forall u :: u in tasks && IsDisconnect(tasks[u], d) ==> tasks[u].pc.Fresh? && d !in table
  }

  /** How far a disconnect has silenced recovery and polling of its device. */
  predicate DisconnectOk(task: Task, rows: map<DeviceId, Row>, recoveries: Table, polls: Table) {
    task.role.UserOp? && IsDisconnect(task, task.role.device) && task.role.device in rows ==>
      var d := task.role.device;
      match task.pc
      case Fresh(_) => d in recoveries && d in polls ==> !rows[d].desired
      case AwaitsRecovery(_, _) => d !in recoveries && (d in polls ==> !rows[d].desired)
      case _ => d !in recoveries && d !in polls
  }

  predicate OpMatches(role: Role, op: Op) {
    match role
    case UserOp(_, d, a) => op.byUser && op.kind == LinkKind(a) && op.device == Some(d)
    case UserScan(_) => op.byUser && op.kind == ScanKind && op.device == None
    case Recovery(d) => !op.byUser && op.kind == LinkKind(Reconnect) && op.device == Some(d)
    case _ => false
  }

  /** A task's operation is its own, queued before its first step and running after it. */
  predicate ExecutesOk(t: TaskId, task: Task, ops: map<OpId, Op>) {
    task.pc != Ended && OpOf(task).Some? ==>
      var o := OpOf(task).value;
      o in ops && ops[o].runner == t && OpMatches(task.role, ops[o])
      && ops[o].status == if task.pc.Fresh? then Queued else Running
  }

  /** Which tasks each stage of closing has cancelled, and which have ended. */
  predicate StageOk(t: TaskId, task: Task, closer: Closer) {
    && (StageOf(closer) <= 1 && IsUser(task.role) ==> !task.cancelled)
    && (StageOf(closer) == 1 && task.role.Background? && task.pc != Ended ==> task.cancelled && t in closer.waiting)
    && (StageOf(closer) >= 2 && task.role.Background? ==> task.pc == Ended)
    && (StageOf(closer) == 2 && IsUser(task.role) && task.pc != Ended ==> task.cancelled && t in closer.waiting)
    && (StageOf(closer) >= 3 && IsUser(task.role) ==> task.pc == Ended)
    && (StageOf(closer) == 3 && task.role.Recovery? && task.pc != Ended ==> task.cancelled && t in closer.waiting)
    && (StageOf(closer) >= 4 && task.role.Recovery? ==> task.pc == Ended)
    && (StageOf(closer) >= 4 && task.role.Poll? && task.pc != Ended ==> task.cancelled)
  }

  predicate TaskOk(t: TaskId, task: Task, e: Env) {
    && PlaceOk(task, e.rows, e.issued, e.raced)
    && OwnedOk(task, e.owner, e.raced)
    && DisconnectOk(task, e.rows, e.recoveries, e.polls)
    && ExecutesOk(t, task, e.ops)
    && StageOk(t, task, e.closer)
  }

  ghost predicate TasksOk(tasks: Tasks, e: Env) {
    forall t :: t in tasks ==> TaskOk(t, tasks[t], e)
  }

  // ---------- What holds between tasks ----------

  ghost predicate RecoveriesOk(tasks: Tasks, recoveries: Table) {
    && (forall d :: d in recoveries ==> Live(tasks, recoveries[d]) && tasks[recoveries[d]].role == Recovery(d))
    && (forall t :: Live(tasks, t) && tasks[t].role.Recovery? ==>
          tasks[t].role.recovered in recoveries && recoveries[tasks[t].role.recovered] == t)
  }

  ghost predicate PollsOk(tasks: Tasks, polls: Table) {
    && (forall d :: d in polls ==> Live(tasks, polls[d]) && tasks[polls[d]].role == Poll(d))
    && (forall t :: Live(tasks, t) && tasks[t].role.Poll? ==>
          tasks[t].role.polled in polls && polls[tasks[t].role.polled] == t)
  }

  /** The tables name exactly the live recovery and polling tasks, one for each device. */
  ghost predicate TablesOk(tasks: Tasks, recoveries: Table, polls: Table) {
    RecoveriesOk(tasks, recoveries) && PollsOk(tasks, polls)
  }

  /** Each device's pending user operation is its active one; pending operations are being executed. */
  ghost predicate OpsOk(tasks: Tasks, ops: map<OpId, Op>, active: map<DeviceId, OpId>, closer: Closer) {
    && (forall d :: d in active ==> active[d] in ops && ops[active[d]].byUser && ops[active[d]].device == Some(d))
    && (forall o :: o in ops && Pending(ops[o].status) && ops[o].byUser && ops[o].device.Some? ==>
          ops[o].device.value in active && active[ops[o].device.value] == o)
    && (forall o :: o in ops && Pending(ops[o].status) && closer.Open? ==>
          Active(tasks, ops[o].runner) && OpOf(tasks[ops[o].runner]) == Some(o))
    && (closer.Closed? ==> forall o :: o in ops ==> !Pending(ops[o].status))
  }

  /** The task that executes the active operation of a device waits for recovery task `r` to end. */
  predicate Awaited(tasks: Tasks, ops: map<OpId, Op>, active: map<DeviceId, OpId>, d: DeviceId, r: TaskId) {
    && d in active && active[d] in ops && Active(tasks, ops[active[d]].runner)
    && OpOf(tasks[ops[active[d]].runner]) == Some(active[d])
    && tasks[ops[active[d]].runner].pc.AwaitsRecovery?
    && tasks[ops[active[d]].runner].pc.other == r
  }

  /** Until user tasks have ended, a cancelled recovery that has not ended is awaited. */
  ghost predicate StraysOk(tasks: Tasks, ops: map<OpId, Op>, active: map<DeviceId, OpId>, closer: Closer) {
    StageOf(closer) <= 2 ==>
      forall r :: Active(tasks, r) && tasks[r].cancelled && tasks[r].role.Recovery? ==>
        Awaited(tasks, ops, active, tasks[r].role.recovered, r)
  }

  ghost predicate IdsOk(tasks: Tasks, ops: map<OpId, Op>, nextTask: TaskId, nextOp: OpId) {
    && (forall t :: t in tasks ==> t < nextTask)
    && (forall o :: o in ops ==> o < nextOp && ops[o].runner < nextTask)
  }

  // ---------- Changes ----------

  function Moved(tasks: Tasks, t: TaskId, pc: Pc): Tasks
    requires t in tasks
  {
    tasks[t := tasks[t].(pc := pc)]
  }

  function WithCancelled(tasks: Tasks, t: TaskId): Tasks
    requires t in tasks
  {
    tasks[t := tasks[t].(cancelled := true)]
  }

  /** Tasks that are still going and satisfy a condition on their role, cancelled together. */
  function AllCancelled(tasks: Tasks, group: set<TaskId>): Tasks {
    map t | t in tasks :: if t in group then tasks[t].(cancelled := true) else tasks[t]
  }

  function Without(table: Table, d: DeviceId): Table {
    table - {d}
  }

  /** Done callbacks take an ended task out of the table that names it. */
  function Discarded(table: Table, t: TaskId): Table {
    map d | d in table && table[d] != t :: table[d]
  }

  function WithStatus(ops: map<OpId, Op>, o: Option<OpId>, status: Status): map<OpId, Op> {
    if o.Some? && o.value in ops then ops[o.value := ops[o.value].(status := status)] else ops
  }

  /** Every pending operation failed, as interrupted. */
  function Interrupted(ops: map<OpId, Op>): map<OpId, Op> {
    map o | o in ops :: if Pending(ops[o].status) then ops[o].(status := Failed) else ops[o]
  }

  /** How the status of an operation changes; a queued one fails only when it is interrupted. */
  predicate StatusStep(before: Status, after: Status) {
    || (before == Queued && (after == Running || after == Failed))
    || (before == Running && (after == Succeeded || after == Failed))
  }

  /** What one step of a task can do to a status: nothing, one change, or to run and be done at once. */
  predicate StatusMoves(before: Status, after: Status) {
    || before == after
    || StatusStep(before, after)
    || (StatusStep(before, Running) && StatusStep(Running, after))
  }

  /** No operation disappears, changes its kind or moves backwards; a terminal one stays as it is. */
  ghost predicate OpsMove(before: map<OpId, Op>, after: map<OpId, Op>) {
    forall o :: o in before ==>
      o in after && after[o].(status := before[o].status) == before[o]
      && StatusMoves(before[o].status, after[o].status)
  }
}
