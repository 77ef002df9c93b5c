/**
 The compute pool as a transition system.

 One state holds everything the threads share (the `live` table, the queue, the counters, the
 epoch, one slot per worker, the child processes and their pipes) and every thread's program
 counter. One step is one lock region, one atomic operation, one pipe operation or one action of
 a child. Any step that is enabled may happen next, so a run is any interleaving of any number of
 submitters, cancellers and watchdogs with the host threads and the two threads of every child.
 */
module ComputeProtocol {
  import opened Wrappers
  import opened Endings

  type JobId = nat
  type ChildId = nat

  /** A job accepted and not yet answered for. */
  datatype Live = Live(deadline: nat, started: bool, cancelled: bool, worker: Option<nat>)

  datatype Stats = Stats(
    submitted: nat, completed: nat, failed: nat, timedOut: nat,
    refused: nat, cancelled: nat, wedged: nat, spawned: nat)

  /** A frame on a child's standard input, after the handshake. */
  datatype Frame = JobFrame(id: JobId) | CancelFrame(id: JobId)

  /** The child's Lua thread: idle, holding a job it has not begun, or running one. */
  datatype LuaThread = Idle | Fetched(id: JobId) | Running(id: JobId)

  datatype Done = Done(id: JobId, ending: Ending)

  /** A child process. `born` is the epoch at the moment the process was created. */
  datatype Child = Child(
    alive: bool,
    inbox: seq<Frame>,
    channel: seq<JobId>,
    lua: LuaThread,
    flag: bool,
    outbox: seq<Done>,
    born: nat)

  /** The live child of one worker slot: what the slot's mutex protects. */
  datatype Slot = Slot(child: ChildId, broken: bool)

  /** Where a host thread is in its loop, with the locals that matter there. */
  datatype HostPc =
    | Receiving
    | Got(id: JobId)
    | Wanted(id: JobId)
    | Loaded(id: JobId, current: nat)
    | Stale(id: JobId, current: nat)
    | Deciding(id: JobId, current: nat)
    | Spawning(id: JobId, current: nat)
    | Shaking(id: JobId, current: nat, child: ChildId)
    | Sending(id: JobId)
    | Reading(id: JobId)
    | Checking(id: JobId, out: Ending)
    | Shutting(id: JobId, out: Ending)
    | Answering(id: JobId, out: Ending)

  /** One worker slot with the host thread that owns its reading end. */
  datatype Worker = Worker(pc: HostPc, atEpoch: Option<nat>, reader: Option<ChildId>, slot: Option<Slot>)

  /** A submission after its id was allocated and before `submit` returned. */
  datatype Submission = Allocated(deadline: nat) | Inserted | Counted | Rejected

  /** A claimed entry whose result is not yet sent. */
  datatype Claim = Claim(ending: Ending, counted: bool)

  datatype ReapPhase = Choosing | Wedging(id: JobId, n: nat) | Killing(id: JobId, n: nat) | Expiring(id: JobId)

  /** One pass of `reap_expired`. */
  datatype Reaper = Reaper(
    now: nat, snapped: bool, snapshot: set<JobId>, todo: map<JobId, Option<nat>>, phase: ReapPhase)

  datatype State = State(
    capacity: nat,
    clock: nat,
    nextId: JobId,
    epoch: nat,
    live: map<JobId, Live>,
    // A canceller inside its critical section on `live`: the job and the worker it will write to.
    liveLock: Option<(JobId, nat)>,
    stats: Stats,
    queue: seq<JobId>,
    workers: seq<Worker>,
    children: map<ChildId, Child>,
    submits: map<JobId, Submission>,
    claims: map<JobId, Claim>,
    results: seq<Done>,
    reapers: map<nat, Reaper>,
    // History: the ids `cancel` was called for, and the epoch at which a job left the queue.
    cancelCalls: set<JobId>,
    takenAt: map<JobId, nat>)

  datatype SubmitStep =
    | Allocate(deadlineMs: nat)
    | Insert(id: JobId)
    | CountSubmit(id: JobId)
    | Enqueue(id: JobId)
    | Refuse(id: JobId)

  datatype AnswerStep = CountEnding(id: JobId) | SendResult(id: JobId)

  datatype CancelStep = Mark(id: JobId) | WriteCancel(ok: bool)

  datatype ReapStep = Start | Snapshot | Pick(id: JobId) | CountWedged | Kill | Expire | Finish

  /** The host steps that move nothing but that thread's program counter and its slot. */
  datatype LocalStep = LoadEpoch | Compare | SpawnFails | Handshake(ok: bool) | ReadFails | CheckBroken

  datatype HostStep =
    | Take
    | MarkStarted
    | Local(local: LocalStep)
    | DropStale
    | Decide
    | Spawn(c: ChildId)
    | WriteJob(ok: bool)
    | ReadDone(readable: bool)
    | DropBroken
    | Answer

  datatype ChildStep = ReadStdin | FetchJob | BeginJob | EndJob(ending: Ending) | Die

  datatype Step =
    | Tick
    | Recycle
    | BySubmitter(sub: SubmitStep)
    | ByAnswerer(ans: AnswerStep)
    | ByCanceller(can: CancelStep)
    | ByWatchdog(r: nat, reap: ReapStep)
    | ByHost(n: nat, host: HostStep)
    | ByChild(c: ChildId, kid: ChildStep)

  // ---------------------------------------------------------------- children

  function FreshChild(born: nat): Child {
    Child(true, [], [], Idle, false, [], born)
  }

  /** The stdin reader handles one frame; the channel to the Lua thread holds one job. */
  predicate CanRead(ch: Child) {
    ch.alive && ch.inbox != [] && (ch.inbox[0].JobFrame? ==> |ch.channel| < 1)
  }

  /** A job goes onto the channel; a cancel sets the flag, whatever id it carries. */
  function ReadFrame(ch: Child): Child
    requires CanRead(ch)
  {
    match ch.inbox[0]
    case JobFrame(id) => ch.(inbox := ch.inbox[1..], channel := ch.channel + [id])
    case CancelFrame(_) => ch.(inbox := ch.inbox[1..], flag := true)
  }

  predicate CanFetch(ch: Child) {
    ch.alive && ch.lua.Idle? && ch.channel != []
  }

  function Fetch(ch: Child): Child
    requires CanFetch(ch)
  {
    ch.(lua := Fetched(ch.channel[0]), channel := ch.channel[1..])
  }

  predicate CanBegin(ch: Child) {
    ch.alive && ch.lua.Fetched?
  }

  /** The VM clears the flag before it runs the job. */
  function Begin(ch: Child): Child
    requires CanBegin(ch)
  {
    ch.(lua := Running(ch.lua.id), flag := false)
  }

  /** A job ends in any way a VM can report; `Cancelled` only after it observed the flag. */
  predicate CanFinish(ch: Child, ending: Ending) {
    && ch.alive && ch.lua.Running?
    && (ending.Cancelled? ==> ch.flag)
    && !ending.Refused?
  }

  function Complete(ch: Child, ending: Ending): Child
    requires CanFinish(ch, ending)
  {
    ch.(lua := Idle, outbox := ch.outbox + [Done(ch.lua.id, ending)])
  }

  // ----------------------------------------------------------- shared helpers

  /** The counter an ending is counted under. */
  function CountIn(st: Stats, ending: Ending): Stats {
    match ending
    case Ok => st.(completed := st.completed + 1)
    case Timeout => st.(timedOut := st.timedOut + 1)
    case Cancelled => st.(cancelled := st.cancelled + 1)
    case Refused => st.(refused := st.refused + 1)
    case _ => st.(failed := st.failed + 1)
  }

  /** The first lock region of `answer`: whoever removes the entry is the one that reports. */
  function ClaimEntry(s: State, id: JobId, ending: Ending): State {
    if id in s.live then
      s.(live := s.live - {id}, claims := s.claims[id := Claim(ending, false)])
    else
      s
  }

  predicate LiveFree(s: State) {
    s.liveLock.None?
  }

  function WithWorker(s: State, n: nat, w: Worker): State
    requires n < |s.workers|
  {
    s.(workers := s.workers[n := w])
  }

  function WithPc(s: State, n: nat, pc: HostPc): State
    requires n < |s.workers|
  {
    WithWorker(s, n, s.workers[n].(pc := pc))
  }

  /** `mark_broken`, `kill` and the failure half of `write`: the slot is marked, if it has a child. */
  function Break(w: Worker): Worker {
    if w.slot.Some? then w.(slot := Some(w.slot.value.(broken := true))) else w
  }

  function Appended(children: map<ChildId, Child>, c: ChildId, f: Frame): map<ChildId, Child>
    requires c in children
  {
    children[c := children[c].(inbox := children[c].inbox + [f])]
  }

  function Killed(children: map<ChildId, Child>, c: ChildId): map<ChildId, Child> {
    if c in children then children[c := children[c].(alive := false)] else children
  }

  // --------------------------------------------------- `submit` and `answer`

  function AllocateId(s: State, deadlineMs: nat): State {
    s.(nextId := s.nextId + 1, submits := s.submits[s.nextId := Allocated(s.clock + deadlineMs)])
  }

  function InsertEntry(s: State, id: JobId): State
    requires id in s.submits && s.submits[id].Allocated?
  {
    s.(live := s.live[id := Live(s.submits[id].deadline, false, false, None)],
    submits := s.submits[id := Inserted])
  }

  function CountSubmission(s: State, id: JobId): State {
    s.(stats := s.stats.(submitted := s.stats.submitted + 1), submits := s.submits[id := Counted])
  }

  /** `try_send`: a full queue does not take the job. */
  function TrySend(s: State, id: JobId): State {
    if |s.queue| < s.capacity then
      s.(queue := s.queue + [id], submits := s.submits - {id})
    else
      s.(submits := s.submits[id := Rejected])
  }

  function RefuseJob(s: State, id: JobId): State {
    ClaimEntry(s, id, Refused).(submits := s.submits - {id})
  }

  /** The second lock region of `answer`. */
  function CountClaim(s: State, id: JobId): State
    requires id in s.claims
  {
    s.(stats := CountIn(s.stats, s.claims[id].ending), claims := s.claims[id := s.claims[id].(counted := true)])
  }

  /** The end of `answer`: the result goes to the game thread. */
  function SendClaim(s: State, id: JobId): State
    requires id in s.claims
  {
    s.(results := s.results + [Done(id, s.claims[id].ending)], claims := s.claims - {id})
  }

  predicate SubmitEnabled(s: State, step: SubmitStep) {
    match step
    case Allocate(_) => true
    case Insert(id) => LiveFree(s) && id in s.submits && s.submits[id].Allocated?
    case CountSubmit(id) => id in s.submits && s.submits[id].Inserted?
    case Enqueue(id) => id in s.submits && s.submits[id].Counted?
    case Refuse(id) => LiveFree(s) && id in s.submits && s.submits[id].Rejected?
  }

  function SubmitApply(s: State, step: SubmitStep): State
    requires SubmitEnabled(s, step)
  {
    match step
    case Allocate(ms) => AllocateId(s, ms)
    case Insert(id) => InsertEntry(s, id)
    case CountSubmit(id) => CountSubmission(s, id)
    case Enqueue(id) => TrySend(s, id)
    case Refuse(id) => RefuseJob(s, id)
  }

  predicate AnswerEnabled(s: State, step: AnswerStep) {
    match step
    case CountEnding(id) => id in s.claims && !s.claims[id].counted
    case SendResult(id) => id in s.claims && s.claims[id].counted
  }

  function AnswerApply(s: State, step: AnswerStep): State
    requires AnswerEnabled(s, step)
  {
    match step
    case CountEnding(id) => CountClaim(s, id)
    case SendResult(id) => SendClaim(s, id)
  }

  // ------------------------------------------------------------------ `cancel`

  /** `cancel` marks the entry and keeps the lock on `live` if it has a pipe to write to. */
  function MarkCancelled(s: State, id: JobId): State {
    if id in s.live then
      var e := s.live[id];
      var lock := if e.worker.Some? && e.worker.value < |s.workers| then Some((id, e.worker.value)) else None;
      s.(cancelCalls := s.cancelCalls + {id}, live := s.live[id := e.(cancelled := true)], liveLock := lock)
    else
      s.(cancelCalls := s.cancelCalls + {id})
  }

  /** The pipe write of `cancel`, still under the lock on `live`; a failed write marks the slot. */
  function SendCancel(s: State, ok: bool): State
    requires s.liveLock.Some?
  {
    var (id, n) := s.liveLock.value;
    if n < |s.workers| && s.workers[n].slot.Some? then
      var c := s.workers[n].slot.value.child;
      if ok && c in s.children then
        s.(liveLock := None, children := Appended(s.children, c, CancelFrame(id)))
      else
        WithWorker(s, n, Break(s.workers[n])).(liveLock := None)
    else
      s.(liveLock := None)
  }

  predicate CancelEnabled(s: State, step: CancelStep) {
    match step
    case Mark(_) => LiveFree(s)
    case WriteCancel(_) => s.liveLock.Some?
  }

  function CancelApply(s: State, step: CancelStep): State
    requires CancelEnabled(s, step)
  {
    match step
    case Mark(id) => MarkCancelled(s, id)
    case WriteCancel(ok) => SendCancel(s, ok)
  }

  // ------------------------------------------------------------- `reap_expired`

  const USIZE_MAX: nat := 0xFFFF_FFFF_FFFF_FFFF

  /** The worker an expired entry was running on, as the watchdog's snapshot records it. */
  function RunningOn(e: Live): Option<nat> {
    if e.started then Some(if e.worker.Some? then e.worker.value else USIZE_MAX) else None
  }

  function Expired(live: map<JobId, Live>, now: nat): map<JobId, Option<nat>> {
    map id | id in live && live[id].deadline <= now :: RunningOn(live[id])
  }

  predicate ReapEnabled(s: State, r: nat, step: ReapStep) {
    match step
    case Start => r !in s.reapers
    case Snapshot => LiveFree(s) && r in s.reapers && !s.reapers[r].snapped
    case Pick(id) => r in s.reapers && s.reapers[r].phase.Choosing? && id in s.reapers[r].todo
    case CountWedged => r in s.reapers && s.reapers[r].phase.Wedging?
    case Kill => r in s.reapers && s.reapers[r].phase.Killing?
    case Expire => LiveFree(s) && r in s.reapers && s.reapers[r].phase.Expiring?
    case Finish =>
      r in s.reapers && s.reapers[r].snapped && s.reapers[r].phase.Choosing? && s.reapers[r].todo == map[]
  }

  function WithReaper(s: State, r: nat, p: Reaper): State {
    s.(reapers := s.reapers[r := p])
  }

  function TakeSnapshot(p: Reaper, live: map<JobId, Live>): Reaper {
    var todo := Expired(live, p.now);
    p.(snapped := true, snapshot := todo.Keys, todo := todo)
  }

  function PickExpired(p: Reaper, id: JobId): Reaper
    requires id in p.todo
  {
    p.(todo := p.todo - {id}, phase := if p.todo[id].Some? then Wedging(id, p.todo[id].value) else Expiring(id))
  }

  /** The slot is marked and its child killed; the child's end of stream follows whenever it comes. */
  function KillWorker(s: State, n: nat): State {
    if n < |s.workers| then WithWorker(s, n, Break(s.workers[n])) else s
  }

  function ReapApply(s: State, r: nat, step: ReapStep): State
    requires ReapEnabled(s, r, step)
  {
    match step
    case Start => WithReaper(s, r, Reaper(s.clock, false, {}, map[], Choosing))
    case Snapshot => WithReaper(s, r, TakeSnapshot(s.reapers[r], s.live))
    case Pick(id) => WithReaper(s, r, PickExpired(s.reapers[r], id))
    case CountWedged =>
      var p := s.reapers[r];
      WithReaper(s, r, p.(phase := Killing(p.phase.id, p.phase.n))).(stats := s.stats.(wedged := s.stats.wedged + 1))
    case Kill =>
      var p := s.reapers[r];
      KillWorker(WithReaper(s, r, p.(phase := Expiring(p.phase.id))), p.phase.n)
    case Expire =>
      var p := s.reapers[r];
      ClaimEntry(WithReaper(s, r, p.(phase := Choosing)), p.phase.id, Timeout)
    case Finish => s.(reapers := s.reapers - {r})
  }

  // ------------------------------------------------------------ the host thread

  function TakeJob(s: State, n: nat): State
    requires n < |s.workers| && s.queue != []
  {
    WithPc(s, n, Got(s.queue[0])).(queue := s.queue[1..], takenAt := s.takenAt[s.queue[0] := s.epoch])
  }

  /** Already answered, or cancelled while it was queued: the job is dropped here. */
  function MarkJob(s: State, n: nat): State
    requires n < |s.workers| && s.workers[n].pc.Got?
  {
    var id := s.workers[n].pc.id;
    if id in s.live && !s.live[id].cancelled then
      WithPc(s, n, Wanted(id)).(live := s.live[id := s.live[id].(started := true, worker := Some(n))])
    else
      WithPc(s, n, Receiving)
  }

  /** `shut_down`: take the slot's child, kill it and wait for it; the reading end goes with it. */
  function DropChild(s: State, n: nat, pc: HostPc): State
    requires n < |s.workers|
  {
    var w := s.workers[n];
    var s1 := WithWorker(s, n, Worker(pc, None, None, None));
    if w.slot.Some? then s1.(children := Killed(s.children, w.slot.value.child)) else s1
  }

  function DecideSpawn(s: State, n: nat): State
    requires n < |s.workers| && s.workers[n].pc.Deciding?
  {
    var w := s.workers[n];
    if w.reader.None? then
      WithPc(s, n, Spawning(w.pc.id, w.pc.current)).(stats := s.stats.(spawned := s.stats.spawned + 1))
    else
      WithPc(s, n, Sending(w.pc.id))
  }

  function SpawnChild(s: State, n: nat, c: ChildId): State
    requires n < |s.workers| && s.workers[n].pc.Spawning?
  {
    var w := s.workers[n];
    WithPc(s, n, Shaking(w.pc.id, w.pc.current, c)).(children := s.children[c := FreshChild(s.epoch)])
  }

  /** The end of `start`: the child takes the slot, or the job is answered for as a load error. */
  function EndHandshake(w: Worker, ok: bool): Worker
    requires w.pc.Shaking?
  {
    if ok then
      Worker(Sending(w.pc.id), Some(w.pc.current), Some(w.pc.child), Some(Slot(w.pc.child, false)))
    else
      w.(pc := Answering(w.pc.id, LoadError))
  }

  function SendJob(s: State, n: nat, ok: bool): State
    requires n < |s.workers| && s.workers[n].pc.Sending?
  {
    var w := s.workers[n];
    if w.slot.Some? && ok && w.slot.value.child in s.children then
      WithPc(s, n, Reading(w.pc.id)).(children := Appended(s.children, w.slot.value.child, JobFrame(w.pc.id)))
    else
      WithWorker(s, n, Break(w).(pc := Checking(w.pc.id, Error)))
  }

  predicate CanReadDone(s: State, w: Worker) {
    w.pc.Reading? && w.reader.Some? && w.reader.value in s.children && s.children[w.reader.value].outbox != []
  }

  /**
   One answer off the pipe. One that does not decode loses the worker; an answer for another job means the
   stream is out of step.
   */
  function TakeDone(s: State, n: nat, readable: bool): State
    requires n < |s.workers| && CanReadDone(s, s.workers[n])
  {
    var w := s.workers[n];
    var c := w.reader.value;
    var done := s.children[c].outbox[0];
    var w' := if !readable || done.id != w.pc.id then Break(w).(pc := Checking(w.pc.id, Error))
              else w.(pc := Checking(w.pc.id, done.ending));
    WithWorker(s, n, w').(children := s.children[c := s.children[c].(outbox := s.children[c].outbox[1..])])
  }

  function AnswerJob(s: State, n: nat): State
    requires n < |s.workers| && s.workers[n].pc.Answering?
  {
    WithPc(ClaimEntry(s, s.workers[n].pc.id, s.workers[n].pc.out), n, Receiving)
  }

  predicate LocalEnabled(s: State, w: Worker, step: LocalStep) {
    match step
    case LoadEpoch => w.pc.Wanted?
    case Compare => w.pc.Loaded?
    case SpawnFails => w.pc.Spawning?
    case Handshake(_) => w.pc.Shaking?
    case ReadFails =>
      w.pc.Reading? && (w.reader.Some? && w.reader.value in s.children ==> !s.children[w.reader.value].alive)
    case CheckBroken => w.pc.Checking?
  }

  function LocalNext(s: State, w: Worker, step: LocalStep): Worker
    requires LocalEnabled(s, w, step)
  {
    match step
    case LoadEpoch => w.(pc := Loaded(w.pc.id, s.epoch))
    case Compare =>
      var stale := w.atEpoch != Some(w.pc.current) || w.slot.None?;
      w.(pc := if stale then Stale(w.pc.id, w.pc.current) else Deciding(w.pc.id, w.pc.current))
    case SpawnFails => w.(pc := Answering(w.pc.id, LoadError))
    case Handshake(ok) => EndHandshake(w, ok)
    case ReadFails => Break(w).(pc := Checking(w.pc.id, Error))
    case CheckBroken =>
      var broken := w.slot.None? || w.slot.value.broken;
      w.(pc := if broken then Shutting(w.pc.id, w.pc.out) else Answering(w.pc.id, w.pc.out))
  }

  predicate HostEnabled(s: State, n: nat, step: HostStep) {
    && n < |s.workers|
    && var w := s.workers[n];
    match step
    case Local(local) => LocalEnabled(s, w, local)
    case Take => w.pc.Receiving? && s.queue != []
    case MarkStarted => LiveFree(s) && w.pc.Got?
    case DropStale => w.pc.Stale?
    case Decide => w.pc.Deciding?
    case Spawn(c) => w.pc.Spawning? && c !in s.children
    case WriteJob(_) => w.pc.Sending?
    case ReadDone(_) => CanReadDone(s, w)
    case DropBroken => w.pc.Shutting?
    case Answer => LiveFree(s) && w.pc.Answering?
  }

  function HostApply(s: State, n: nat, step: HostStep): State
    requires HostEnabled(s, n, step)
  {
    var w := s.workers[n];
    match step
    case Local(local) => WithWorker(s, n, LocalNext(s, w, local))
    case Take => TakeJob(s, n)
    case MarkStarted => MarkJob(s, n)
    case DropStale => DropChild(s, n, Deciding(w.pc.id, w.pc.current))
    case Decide => DecideSpawn(s, n)
    case Spawn(c) => SpawnChild(s, n, c)
    case WriteJob(ok) => SendJob(s, n, ok)
    case ReadDone(readable) => TakeDone(s, n, readable)
    case DropBroken => DropChild(s, n, Answering(w.pc.id, w.pc.out))
    case Answer => AnswerJob(s, n)
  }

  // ------------------------------------------------------------------ all steps

  predicate ChildEnabled(ch: Child, step: ChildStep) {
    match step
    case ReadStdin => CanRead(ch)
    case FetchJob => CanFetch(ch)
    case BeginJob => CanBegin(ch)
    case EndJob(ending) => CanFinish(ch, ending)
    case Die => true
  }

  function ChildApply(ch: Child, step: ChildStep): Child
    requires ChildEnabled(ch, step)
  {
    match step
    case ReadStdin => ReadFrame(ch)
    case FetchJob => Fetch(ch)
    case BeginJob => Begin(ch)
    case EndJob(ending) => Complete(ch, ending)
    case Die => ch.(alive := false)
  }

  predicate Enabled(s: State, step: Step) {
    match step
    case Tick => true
    case Recycle => true
    case BySubmitter(sub) => SubmitEnabled(s, sub)
    case ByAnswerer(ans) => AnswerEnabled(s, ans)
    case ByCanceller(can) => CancelEnabled(s, can)
    case ByWatchdog(r, reap) => ReapEnabled(s, r, reap)
    case ByHost(n, host) => HostEnabled(s, n, host)
    case ByChild(c, kid) => c in s.children && ChildEnabled(s.children[c], kid)
  }

  function Apply(s: State, step: Step): State
    requires Enabled(s, step)
  {
    match step
    case Tick => s.(clock := s.clock + 1)
    case Recycle => s.(epoch := s.epoch + 1)
    case BySubmitter(sub) => SubmitApply(s, sub)
    case ByAnswerer(ans) => AnswerApply(s, ans)
    case ByCanceller(can) => CancelApply(s, can)
    case ByWatchdog(r, reap) => ReapApply(s, r, reap)
    case ByHost(n, host) => HostApply(s, n, host)
    case ByChild(c, kid) => s.(children := s.children[c := ChildApply(s.children[c], kid)])
  }

  // -------------------------------------------------------------------- runs

  /** A started pool: nothing submitted, no child, every host thread waiting on the queue. */
  predicate Init(s: State) {
    && s.nextId == 1 && s.epoch == 0 && s.capacity >= 1
    && s.live == map[] && s.liveLock.None? && s.stats == Stats(0, 0, 0, 0, 0, 0, 0, 0)
    && s.queue == [] && |s.workers| >= 1
    && (forall n :: 0 <= n < |s.workers| ==> s.workers[n] == Worker(Receiving, None, None, None))
    && s.children == map[] && s.submits == map[] && s.claims == map[] && s.results == []
    && s.reapers == map[] && s.cancelCalls == {} && s.takenAt == map[]
  }

  /** A run is its start and the steps taken; this is the state it ends in. */
  ghost predicate Runs(s: State, steps: seq<Step>)
    decreases |steps|
  {
    steps != [] ==> Enabled(s, steps[0]) && Runs(Apply(s, steps[0]), steps[1..])
  }

  ghost function After(s: State, steps: seq<Step>): State
    requires Runs(s, steps)
    decreases |steps|
  {
    if steps == [] then s else After(Apply(s, steps[0]), steps[1..])
  }

  /** Reached by some interleaving from a freshly started pool. */
  ghost predicate Reachable(s: State) {
    exists s0: State, steps: seq<Step> :: Init(s0) && Runs(s0, steps) && After(s0, steps) == s
  }
}
