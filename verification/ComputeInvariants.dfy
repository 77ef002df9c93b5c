/** What every step of the compute pool keeps, whatever the interleaving. */
module ComputeInvariants {
  import opened Wrappers
  import opened Endings
  import opened ComputeProtocol

  // ------------------------------------------------------- where a job can be

  /** The job a host thread is working on. */
  function Hand(pc: HostPc): Option<JobId> {
    if pc.Receiving? then None else Some(pc.id)
  }

  predicate Unborn(submits: map<JobId, Submission>, id: JobId) {
    id in submits && submits[id].Allocated?
  }

  /** How many results were sent for an id. */
  function Times(rs: seq<Done>, id: JobId): nat {
    if rs == [] then 0 else Times(rs[..|rs| - 1], id) + if rs[|rs| - 1].id == id then 1 else 0
  }

  function One(b: bool): nat {
    if b then 1 else 0
  }

  /** In how many of the four stages an id is: being submitted, live, claimed, reported. */
  function Stages(
    submits: map<JobId, Submission>, live: map<JobId, Live>, claims: map<JobId, Claim>, results: seq<Done>, id: JobId): nat
  {
    One(Unborn(submits, id)) + One(id in live) + One(id in claims) + Times(results, id)
  }

  /** Every id handed out is in exactly one stage, and was reported at most once; no other id is anywhere. */
  ghost predicate ExactlyOnce(
    nextId: JobId, submits: map<JobId, Submission>, live: map<JobId, Live>, claims: map<JobId, Claim>, results: seq<Done>)
  {
    && nextId >= 1
    && forall id: JobId :: Stages(submits, live, claims, results, id) == One(1 <= id < nextId)
  }

  ghost predicate Distinct(q: seq<JobId>) {
    forall i, j :: 0 <= i < j < |q| ==> q[i] != q[j]
  }

  /** Queued jobs are distinct, no longer with their submitter, and not yet taken. */
  ghost predicate Queued(nextId: JobId, queue: seq<JobId>, submits: map<JobId, Submission>, takenAt: map<JobId, nat>) {
    && Distinct(queue)
    && (forall i :: 0 <= i < |queue| ==> queue[i] < nextId && queue[i] !in submits && queue[i] !in takenAt)
    && (forall id :: id in submits ==> id < nextId && id !in takenAt)
    && (forall id :: id in takenAt ==> id < nextId)
  }

  /** No job is in two hands. */
  ghost predicate Hands(workers: seq<Worker>, takenAt: map<JobId, nat>) {
    && (forall n :: 0 <= n < |workers| && Hand(workers[n].pc).Some? ==> Hand(workers[n].pc).value in takenAt)
    && (forall n, m :: 0 <= n < m < |workers| && Hand(workers[n].pc).Some? ==>
                         Hand(workers[n].pc) != Hand(workers[m].pc))
  }

  /** A started entry names the worker whose host thread has that job in hand. */
  ghost predicate Started(live: map<JobId, Live>, workers: seq<Worker>) {
    && (forall id :: id in live ==> live[id].started == live[id].worker.Some?)
    && (forall id :: id in live && live[id].worker.Some? ==>
                       var n := live[id].worker.value;
                       n < |workers| && Hand(workers[n].pc) == Some(id) && !workers[n].pc.Got?)
  }

  /** Whoever holds the lock on `live` to cancel a job found it there, on that worker. */
  ghost predicate Locked(lock: Option<(JobId, nat)>, live: map<JobId, Live>, cancelCalls: set<JobId>) {
    lock.Some? ==>
      && lock.value.0 in live
      && live[lock.value.0].worker == Some(lock.value.1)
      && lock.value.0 in cancelCalls
  }

  // ---------------------------------------------------------------- the pipes

  predicate AllCancels(fs: seq<Frame>, x: JobId) {
    forall f :: f in fs ==> f == CancelFrame(x)
  }

  predicate NoJobs(fs: seq<Frame>) {
    forall f :: f in fs ==> f.CancelFrame?
  }

  /** No job anywhere between the server and this child. */
  predicate Quiet(ch: Child) {
    NoJobs(ch.inbox) && ch.channel == [] && ch.lua.Idle? && ch.outbox == []
  }

  /** The frame of job `x` is still on the pipe, and only cancels for `x` follow it. */
  ghost predicate OnPipe(fs: seq<Frame>, x: JobId) {
    exists i :: 0 <= i < |fs| && fs[i] == JobFrame(x) && NoJobs(fs[..i]) && AllCancels(fs[i + 1..], x)
  }

  /** Exactly one job is outstanding, it is `x`, and it is in exactly one of four places. */
  ghost predicate Carrying(ch: Child, x: JobId) {
    || (OnPipe(ch.inbox, x) && ch.channel == [] && ch.lua.Idle? && ch.outbox == [])
    || (AllCancels(ch.inbox, x) && ch.channel == [x] && ch.lua.Idle? && ch.outbox == [])
    || (AllCancels(ch.inbox, x) && ch.channel == [] && !ch.lua.Idle? && ch.lua.id == x && ch.outbox == [])
    || (AllCancels(ch.inbox, x) && ch.channel == [] && ch.lua.Idle? && |ch.outbox| == 1 && ch.outbox[0].id == x)
  }

  /** The child a worker has: the one it reads from, or the one it is shaking hands with. */
  function Attached(w: Worker): Option<ChildId> {
    if w.pc.Shaking? then Some(w.pc.child) else w.reader
  }

  /** While a job is being read the child carries exactly that job; otherwise it carries none. */
  ghost predicate Paired(w: Worker, ch: Child)
    requires w.slot.Some?
  {
    if w.pc.Reading? then Carrying(ch, w.pc.id)
    else Quiet(ch) || (!ch.alive && w.slot.value.broken && (w.pc.Checking? || w.pc.Shutting?))
  }

  ghost predicate WorkerPipe(w: Worker, children: map<ChildId, Child>) {
    && (w.reader.Some? <==> w.slot.Some?)
    && (w.reader.Some? ==>
          && w.slot.value.child == w.reader.value
          && w.reader.value in children
          && w.atEpoch.Some?
          && w.atEpoch.value <= children[w.reader.value].born
          && Paired(w, children[w.reader.value]))
    && (w.pc.Shaking? ==>
          && w.pc.child in children
          && Quiet(children[w.pc.child]) && children[w.pc.child].inbox == []
          && w.pc.current <= children[w.pc.child].born)
    && (w.pc.Spawning? || w.pc.Shaking? ==> w.reader.None?)
    && (w.pc.Sending? || w.pc.Reading? ==> w.reader.Some?)
    && ((w.pc.Deciding? || w.pc.Sending?) && w.reader.None? ==> w.atEpoch.None?)
    && (w.pc.Deciding? && w.reader.Some? ==> w.atEpoch == Some(w.pc.current))
  }

  ghost predicate Orphan(workers: seq<Worker>, c: ChildId) {
    forall n :: 0 <= n < |workers| ==> Attached(workers[n]) != Some(c)
  }

  ghost predicate Pipes(workers: seq<Worker>, children: map<ChildId, Child>) {
    && (forall n :: 0 <= n < |workers| ==> WorkerPipe(workers[n], children))
    && (forall n, m :: 0 <= n < m < |workers| && Attached(workers[n]).Some? ==>
                         Attached(workers[n]) != Attached(workers[m]))
    && (forall c :: c in children && children[c].alive && Orphan(workers, c) ==>
                      Quiet(children[c]) && children[c].inbox == [])
  }

  // --------------------------------------------------------- what a child knows

  predicate TakenBy(takenAt: map<JobId, nat>, x: JobId, epoch: nat) {
    x in takenAt && takenAt[x] <= epoch
  }

  predicate FrameKnown(f: Frame, born: nat, cancelCalls: set<JobId>, takenAt: map<JobId, nat>) {
    if f.CancelFrame? then f.id in cancelCalls else TakenBy(takenAt, f.id, born)
  }

  /** A set flag under a running job was asked for; every job here left the queue before the VM was born. */
  ghost predicate ChildKnows(ch: Child, cancelCalls: set<JobId>, takenAt: map<JobId, nat>) {
    && (forall f :: f in ch.inbox ==> FrameKnown(f, ch.born, cancelCalls, takenAt))
    && (forall x :: x in ch.channel ==> TakenBy(takenAt, x, ch.born))
    && (!ch.lua.Idle? ==> TakenBy(takenAt, ch.lua.id, ch.born))
    && (ch.lua.Running? && ch.flag ==> ch.lua.id in cancelCalls)
    && (forall d :: d in ch.outbox ==> (d.ending.Cancelled? ==> d.id in cancelCalls) && !d.ending.Refused? && d.id in takenAt)
  }

  ghost predicate Known(children: map<ChildId, Child>, cancelCalls: set<JobId>, takenAt: map<JobId, nat>) {
    forall c :: c in children ==> ChildKnows(children[c], cancelCalls, takenAt)
  }

  ghost predicate WorkerEpoch(w: Worker, takenAt: map<JobId, nat>, epoch: nat) {
    && (Hand(w.pc).Some? ==> TakenBy(takenAt, w.pc.id, epoch))
    && (w.pc.Loaded? || w.pc.Stale? || w.pc.Deciding? || w.pc.Spawning? || w.pc.Shaking? ==>
          TakenBy(takenAt, w.pc.id, w.pc.current) && w.pc.current <= epoch)
    && (w.pc.Sending? && w.atEpoch.Some? ==> TakenBy(takenAt, w.pc.id, w.atEpoch.value))
  }

  ghost predicate Epochs(workers: seq<Worker>, takenAt: map<JobId, nat>, epoch: nat) {
    forall n :: 0 <= n < |workers| ==> WorkerEpoch(workers[n], takenAt, epoch)
  }

  // ---------------------------------------------------- where an ending came from

  ghost predicate WorkerOutcome(pc: HostPc, cancelCalls: set<JobId>) {
    pc.Checking? || pc.Shutting? || pc.Answering? ==>
      (pc.out.Cancelled? ==> pc.id in cancelCalls) && !pc.out.Refused?
  }

  ghost predicate Outcomes(workers: seq<Worker>, cancelCalls: set<JobId>) {
    forall n :: 0 <= n < |workers| ==> WorkerOutcome(workers[n].pc, cancelCalls)
  }

  /** A `Cancelled` was asked for; a `Refused` never reached the queue. */
  ghost predicate Justified(
    d: Done, cancelCalls: set<JobId>, takenAt: map<JobId, nat>, queue: seq<JobId>, submits: map<JobId, Submission>)
  {
    && (d.ending.Cancelled? ==> d.id in cancelCalls)
    && (d.ending.Refused? ==> d.id !in takenAt && d.id !in queue && d.id !in submits)
  }

  ghost predicate Reasons(
    claims: map<JobId, Claim>, results: seq<Done>,
    cancelCalls: set<JobId>, takenAt: map<JobId, nat>, queue: seq<JobId>, submits: map<JobId, Submission>)
  {
    && (forall id :: id in claims ==> Justified(Done(id, claims[id].ending), cancelCalls, takenAt, queue, submits))
    && (forall i :: 0 <= i < |results| ==> Justified(results[i], cancelCalls, takenAt, queue, submits))
  }

  // --------------------------------------------------------------- the watchdog

  /** Every id of a snapshot is still to be handled, being handled, or no longer live. */
  ghost predicate ReaperOk(p: Reaper, nextId: JobId, submits: map<JobId, Submission>, live: map<JobId, Live>) {
    && (!p.snapped ==> p.snapshot == {} && p.todo == map[] && p.phase.Choosing?)
    && (forall id :: id in p.snapshot ==> 1 <= id < nextId && !Unborn(submits, id))
    && (forall id :: id in p.snapshot && id in live ==>
                       id in p.todo || (!p.phase.Choosing? && p.phase.id == id))
  }

  ghost predicate Reaping(
    reapers: map<nat, Reaper>, nextId: JobId, submits: map<JobId, Submission>, live: map<JobId, Live>)
  {
    forall r :: r in reapers ==> ReaperOk(reapers[r], nextId, submits, live)
  }

  // ---------------------------------------------------------------- the counters

  function Uncounted(submits: map<JobId, Submission>): set<JobId> {
    set id | id in submits && submits[id].Inserted?
  }

  function Unclaimed(claims: map<JobId, Claim>): set<JobId> {
    set id | id in claims && !claims[id].counted
  }

  function Answered(st: Stats): nat {
    st.completed + st.failed + st.timedOut + st.cancelled + st.refused
  }

  lemma ClaimsCount(claims: map<JobId, Claim>, id: JobId, ending: Ending)
    ensures id !in claims ==> |Unclaimed(claims[id := Claim(ending, false)])| == |Unclaimed(claims)| + 1
    ensures id in claims && !claims[id].counted ==> |Unclaimed(claims[id := Claim(ending, true)])| == |Unclaimed(claims)| - 1
    ensures id in claims && claims[id].counted ==> |Unclaimed(claims - {id})| == |Unclaimed(claims)|
  {
    if id !in claims {
      assert Unclaimed(claims[id := Claim(ending, false)]) == Unclaimed(claims) + {id};
    } else if !claims[id].counted {
      assert Unclaimed(claims[id := Claim(ending, true)]) == Unclaimed(claims) - {id};
    } else {
      assert Unclaimed(claims - {id}) == Unclaimed(claims);
    }
  }

  lemma SubmitsCount(submits: map<JobId, Submission>, id: JobId, p: Submission)
    requires id in submits
    ensures !submits[id].Inserted? && p.Inserted? ==> |Uncounted(submits[id := p])| == |Uncounted(submits)| + 1
    ensures submits[id].Inserted? && !p.Inserted? ==> |Uncounted(submits[id := p])| == |Uncounted(submits)| - 1
    ensures !submits[id].Inserted? && !p.Inserted? ==> |Uncounted(submits[id := p])| == |Uncounted(submits)|
    ensures !submits[id].Inserted? ==> |Uncounted(submits - {id})| == |Uncounted(submits)|
  {
    UncountedPut(submits, id, p);
    UncountedDrop(submits, id);
  }

  lemma UncountedPut(submits: map<JobId, Submission>, id: JobId, p: Submission)
    ensures Uncounted(submits[id := p]) == if p.Inserted? then Uncounted(submits) + {id} else Uncounted(submits) - {id}
  {
  }

  lemma UncountedDrop(submits: map<JobId, Submission>, id: JobId)
    ensures Uncounted(submits - {id}) == Uncounted(submits) - {id}
  {
  }

  lemma LiveCount(live: map<JobId, Live>, id: JobId, e: Live)
    ensures id in live ==> |live - {id}| == |live| - 1 && |live[id := e]| == |live|
    ensures id !in live ==> |live[id := e]| == |live| + 1
  {
    assert (live - {id}).Keys == live.Keys - {id};
    assert live[id := e].Keys == live.Keys + {id};
  }

  ghost predicate Conserved(
    stats: Stats, submits: map<JobId, Submission>, claims: map<JobId, Claim>, live: map<JobId, Live>)
  {
    stats.submitted + |Uncounted(submits)| == Answered(stats) + |Unclaimed(claims)| + |live|
  }

  /** The bookkeeping: ids, entries, reasons, watchdog passes and counters. */
  ghost predicate Ledger(s: State) {
    && Queued(s.nextId, s.queue, s.submits, s.takenAt)
    && ExactlyOnce(s.nextId, s.submits, s.live, s.claims, s.results)
    && Reasons(s.claims, s.results, s.cancelCalls, s.takenAt, s.queue, s.submits)
    && Reaping(s.reapers, s.nextId, s.submits, s.live)
    && Conserved(s.stats, s.submits, s.claims, s.live)
  }

  /** The machinery: host threads, pipes and children. */
  ghost predicate Machine(
    workers: seq<Worker>, children: map<ChildId, Child>, cancelCalls: set<JobId>, takenAt: map<JobId, nat>, epoch: nat)
  {
    && Hands(workers, takenAt)
    && Pipes(workers, children)
    && Known(children, cancelCalls, takenAt)
    && Epochs(workers, takenAt, epoch)
    && Outcomes(workers, cancelCalls)
  }

  ghost predicate Inv(s: State) {
    && Ledger(s)
    && Machine(s.workers, s.children, s.cancelCalls, s.takenAt, s.epoch)
    && Started(s.live, s.workers)
    && Locked(s.liveLock, s.live, s.cancelCalls)
  }

  lemma InitInv(s: State)
    requires Init(s)
    ensures Inv(s)
  {
    assert Uncounted(s.submits) == {} && Unclaimed(s.claims) == {};
  }

  // ------------------------------------------------------- claiming an entry

  lemma ClaimKeepsEntries(s: State, id: JobId, ending: Ending)
    requires ExactlyOnce(s.nextId, s.submits, s.live, s.claims, s.results)
    ensures var t := ClaimEntry(s, id, ending); ExactlyOnce(t.nextId, t.submits, t.live, t.claims, t.results)
  {
    var t := ClaimEntry(s, id, ending);
    forall x: JobId | true
      ensures Stages(t.submits, t.live, t.claims, t.results, x) == Stages(s.submits, s.live, s.claims, s.results, x)
    {
      assert Stages(s.submits, s.live, s.claims, s.results, x) <= 1;
    }
  }

  lemma ClaimKeepsConserved(s: State, id: JobId, ending: Ending)
    requires ExactlyOnce(s.nextId, s.submits, s.live, s.claims, s.results)
    requires Conserved(s.stats, s.submits, s.claims, s.live)
    ensures var t := ClaimEntry(s, id, ending); Conserved(t.stats, t.submits, t.claims, t.live)
  {
    var t := ClaimEntry(s, id, ending);
    if id in s.live {
      assert Stages(s.submits, s.live, s.claims, s.results, id) <= 1;
      ClaimsCount(s.claims, id, ending);
      LiveCount(s.live, id, s.live[id]);
    }
  }

  /** Whoever removes an entry records one claim; every invariant survives it. */
  lemma ClaimKeepsInv(s: State, id: JobId, ending: Ending)
    requires Inv(s) && LiveFree(s)
    requires Justified(Done(id, ending), s.cancelCalls, s.takenAt, s.queue, s.submits)
    ensures Inv(ClaimEntry(s, id, ending))
  {
    ClaimKeepsEntries(s, id, ending);
    ClaimKeepsConserved(s, id, ending);
    var t := ClaimEntry(s, id, ending);
    ReapingShrinks(s.reapers, s.nextId, s.submits, s.live, t.live);
    ReasonsClaim(s, id, ending);
    StartedShrinks(s.live, t.live, s.workers);
  }

  lemma ReapingShrinks(reapers: map<nat, Reaper>, nextId: JobId, submits: map<JobId, Submission>,
                       live: map<JobId, Live>, live': map<JobId, Live>)
    requires Reaping(reapers, nextId, submits, live) && live'.Keys <= live.Keys
    ensures Reaping(reapers, nextId, submits, live')
  {
  }

  lemma StartedShrinks(live: map<JobId, Live>, live': map<JobId, Live>, workers: seq<Worker>)
    requires Started(live, workers)
    requires forall id :: id in live' ==> id in live && live'[id] == live[id]
    ensures Started(live', workers)
  {
  }

  lemma ReasonsClaim(s: State, id: JobId, ending: Ending)
    requires Reasons(s.claims, s.results, s.cancelCalls, s.takenAt, s.queue, s.submits)
    requires Justified(Done(id, ending), s.cancelCalls, s.takenAt, s.queue, s.submits)
    ensures var t := ClaimEntry(s, id, ending);
            Reasons(t.claims, t.results, t.cancelCalls, t.takenAt, t.queue, t.submits)
  {
  }

  // ------------------------------------------------------------- submitters

  lemma SubmitKeepsInv(s: State, step: SubmitStep)
    requires Inv(s) && SubmitEnabled(s, step)
    ensures Inv(SubmitApply(s, step))
  {
    if step.Refuse? {
      RefuseKeepsInv(s, step.id);
    } else {
      SubmitKeepsLedger(s, step);
      SubmitKeepsStarted(s, step);
    }
  }

  lemma RefuseKeepsInv(s: State, id: JobId)
    requires Inv(s) && LiveFree(s) && id in s.submits && s.submits[id].Rejected?
    ensures Inv(RefuseJob(s, id))
  {
    ForgetKeepsInv(s, id);
    ClaimKeepsInv(s.(submits := s.submits - {id}), id, Refused);
  }

  lemma SubmitKeepsLedger(s: State, step: SubmitStep)
    requires Ledger(s) && SubmitEnabled(s, step) && !step.Refuse?
    ensures Ledger(SubmitApply(s, step))
  {
    match step
    case Allocate(ms) => AllocateKeepsLedger(s, ms);
    case Insert(id) => InsertKeepsLedger(s, id);
    case CountSubmit(id) => CountSubmissionKeepsLedger(s, id);
    case Enqueue(id) => TrySendKeepsLedger(s, id);
  }

  lemma SubmitKeepsStarted(s: State, step: SubmitStep)
    requires ExactlyOnce(s.nextId, s.submits, s.live, s.claims, s.results)
    requires Started(s.live, s.workers) && Locked(s.liveLock, s.live, s.cancelCalls)
    requires SubmitEnabled(s, step) && !step.Refuse?
    ensures var t := SubmitApply(s, step);
            && Started(t.live, t.workers) && Locked(t.liveLock, t.live, t.cancelCalls)
            && t.workers == s.workers && t.children == s.children
            && t.cancelCalls == s.cancelCalls && t.takenAt == s.takenAt && t.epoch == s.epoch
  {
    if step.Insert? {
      assert Stages(s.submits, s.live, s.claims, s.results, step.id) <= 1;
    }
  }

  /** A refused job's submitter lets go of it. */
  lemma ForgetKeepsInv(s: State, id: JobId)
    requires Inv(s) && id in s.submits && s.submits[id].Rejected?
    ensures var s1 := s.(submits := s.submits - {id});
            Inv(s1) && Justified(Done(id, Refused), s1.cancelCalls, s1.takenAt, s1.queue, s1.submits)
  {
    var s1 := s.(submits := s.submits - {id});
    SubmitsCount(s.submits, id, Rejected);
    ForgetKeepsEntries(s, id);
    ReasonsForget(s, id);
  }

  lemma ForgetKeepsEntries(s: State, id: JobId)
    requires ExactlyOnce(s.nextId, s.submits, s.live, s.claims, s.results)
    requires Reaping(s.reapers, s.nextId, s.submits, s.live)
    requires id in s.submits && s.submits[id].Rejected?
    ensures ExactlyOnce(s.nextId, s.submits - {id}, s.live, s.claims, s.results)
    ensures Reaping(s.reapers, s.nextId, s.submits - {id}, s.live)
  {
    SameUnborn(s.nextId, s.submits, s.submits - {id}, s.live, s.claims, s.results);
  }

  lemma ReasonsForget(s: State, id: JobId)
    requires Reasons(s.claims, s.results, s.cancelCalls, s.takenAt, s.queue, s.submits)
    ensures Reasons(s.claims, s.results, s.cancelCalls, s.takenAt, s.queue, s.submits - {id})
  {
  }

  lemma TimesOf(rs: seq<Done>, i: nat)
    requires i < |rs|
    ensures Times(rs, rs[i].id) >= 1
  {
    if i < |rs| - 1 {
      TimesOf(rs[..|rs| - 1], i);
    }
  }

  /** Claimed and reported ids are old ones, and not live. */
  lemma Settled(s: State)
    requires ExactlyOnce(s.nextId, s.submits, s.live, s.claims, s.results)
    ensures forall id :: id in s.live ==> 1 <= id < s.nextId && !Unborn(s.submits, id) && id !in s.claims
    ensures forall id :: id in s.claims ==> 1 <= id < s.nextId && !Unborn(s.submits, id)
    ensures forall i :: 0 <= i < |s.results| ==>
                          var id := s.results[i].id; 1 <= id < s.nextId && !Unborn(s.submits, id) && id !in s.live && id !in s.claims
  {
    forall id: JobId | id in s.live || id in s.claims
      ensures 1 <= id < s.nextId && !Unborn(s.submits, id) && !(id in s.live && id in s.claims)
    {
      assert Stages(s.submits, s.live, s.claims, s.results, id) <= 1;
    }
    forall i | 0 <= i < |s.results|
      ensures var id := s.results[i].id; 1 <= id < s.nextId && !Unborn(s.submits, id) && id !in s.live && id !in s.claims
    {
      TimesOf(s.results, i);
      assert Stages(s.submits, s.live, s.claims, s.results, s.results[i].id) <= 1;
    }
  }

  lemma SameUnborn(nextId: JobId, submits: map<JobId, Submission>, submits': map<JobId, Submission>,
                   live: map<JobId, Live>, claims: map<JobId, Claim>, results: seq<Done>)
    requires ExactlyOnce(nextId, submits, live, claims, results)
    requires forall x: JobId :: Unborn(submits', x) == Unborn(submits, x)
    ensures ExactlyOnce(nextId, submits', live, claims, results)
  {
    forall x: JobId | true ensures Stages(submits', live, claims, results, x) == One(1 <= x < nextId) {
      assert Stages(submits, live, claims, results, x) == One(1 <= x < nextId);
    }
  }

  lemma AllocateKeepsReasons(s: State, p: Submission)
    requires ExactlyOnce(s.nextId, s.submits, s.live, s.claims, s.results)
    requires Reasons(s.claims, s.results, s.cancelCalls, s.takenAt, s.queue, s.submits)
    ensures Reasons(s.claims, s.results, s.cancelCalls, s.takenAt, s.queue, s.submits[s.nextId := p])
  {
    Settled(s);
  }

  lemma AllocateKeepsEntries(s: State, p: Submission)
    requires Queued(s.nextId, s.queue, s.submits, s.takenAt)
    requires ExactlyOnce(s.nextId, s.submits, s.live, s.claims, s.results) && p.Allocated?
    ensures ExactlyOnce(s.nextId + 1, s.submits[s.nextId := p], s.live, s.claims, s.results)
  {
    var submits' := s.submits[s.nextId := p];
    forall x: JobId | true
      ensures Stages(submits', s.live, s.claims, s.results, x) == One(1 <= x < s.nextId + 1)
    {
      assert Stages(s.submits, s.live, s.claims, s.results, x) == One(1 <= x < s.nextId);
    }
  }

  lemma AllocateKeepsRest(s: State, p: Submission)
    requires Queued(s.nextId, s.queue, s.submits, s.takenAt)
    requires Reaping(s.reapers, s.nextId, s.submits, s.live)
    requires Conserved(s.stats, s.submits, s.claims, s.live) && p.Allocated?
    ensures Queued(s.nextId + 1, s.queue, s.submits[s.nextId := p], s.takenAt)
    ensures Reaping(s.reapers, s.nextId + 1, s.submits[s.nextId := p], s.live)
    ensures Conserved(s.stats, s.submits[s.nextId := p], s.claims, s.live)
  {
    assert Uncounted(s.submits[s.nextId := p]) == Uncounted(s.submits);
  }

  lemma AllocateKeepsLedger(s: State, ms: nat)
    requires Ledger(s)
    ensures Ledger(AllocateId(s, ms))
  {
    var p := Allocated(s.clock + ms);
    var t := AllocateId(s, ms);
    assert t.submits == s.submits[s.nextId := p] && t.nextId == s.nextId + 1;
    AllocateKeepsReasons(s, p);
    AllocateKeepsEntries(s, p);
    AllocateKeepsRest(s, p);
  }

  lemma InsertKeepsStages(s: State, id: JobId)
    requires ExactlyOnce(s.nextId, s.submits, s.live, s.claims, s.results) && Unborn(s.submits, id)
    ensures id !in s.live && id !in s.claims && 1 <= id < s.nextId
    ensures var t := InsertEntry(s, id); ExactlyOnce(t.nextId, t.submits, t.live, t.claims, t.results)
  {
    var t := InsertEntry(s, id);
    forall x: JobId | true ensures Stages(t.submits, t.live, t.claims, t.results, x) == One(1 <= x < t.nextId) {
      assert Stages(s.submits, s.live, s.claims, s.results, x) == One(1 <= x < s.nextId);
    }
    assert Stages(s.submits, s.live, s.claims, s.results, id) == 1;
  }

  lemma InsertKeepsLedger(s: State, id: JobId)
    requires Ledger(s) && Unborn(s.submits, id)
    ensures Ledger(InsertEntry(s, id))
  {
    hide Uncounted, Unclaimed, ExactlyOnce, Stages;
    var t := InsertEntry(s, id);
    InsertKeepsStages(s, id);
    SubmitsCount(s.submits, id, Inserted);
    LiveCount(s.live, id, t.live[id]);
  }

  lemma CountSubmissionKeepsLedger(s: State, id: JobId)
    requires Ledger(s) && id in s.submits && s.submits[id].Inserted?
    ensures Ledger(CountSubmission(s, id))
  {
    var t := CountSubmission(s, id);
    SameUnborn(s.nextId, s.submits, t.submits, s.live, s.claims, s.results);
    SubmitsCount(s.submits, id, Counted);
  }

  lemma QueuedAppend(s: State, id: JobId)
    requires Queued(s.nextId, s.queue, s.submits, s.takenAt)
    requires Reasons(s.claims, s.results, s.cancelCalls, s.takenAt, s.queue, s.submits)
    requires id in s.submits
    ensures Queued(s.nextId, s.queue + [id], s.submits - {id}, s.takenAt)
    ensures Reasons(s.claims, s.results, s.cancelCalls, s.takenAt, s.queue + [id], s.submits - {id})
  {
  }

  lemma TrySendKeepsLedger(s: State, id: JobId)
    requires Ledger(s) && id in s.submits && s.submits[id].Counted?
    ensures Ledger(TrySend(s, id))
  {
    var t := TrySend(s, id);
    if |s.queue| < s.capacity {
      QueuedAppend(s, id);
    }
    SameUnborn(s.nextId, s.submits, t.submits, s.live, s.claims, s.results);
    SubmitsCount(s.submits, id, Rejected);
  }

  // ------------------------------------------------------ the rest of `answer`

  lemma AnswerKeepsInv(s: State, step: AnswerStep)
    requires Inv(s) && AnswerEnabled(s, step)
    ensures Inv(AnswerApply(s, step))
  {
    AnswerKeepsEntries(s, step);
    AnswerKeepsConserved(s, step);
    AnswerKeepsReasons(s, step);
  }

  lemma AnswerKeepsEntries(s: State, step: AnswerStep)
    requires ExactlyOnce(s.nextId, s.submits, s.live, s.claims, s.results)
    requires AnswerEnabled(s, step)
    ensures var t := AnswerApply(s, step); ExactlyOnce(t.nextId, t.submits, t.live, t.claims, t.results)
  {
    var t := AnswerApply(s, step);
    forall x: JobId | true
      ensures Stages(t.submits, t.live, t.claims, t.results, x) == Stages(s.submits, s.live, s.claims, s.results, x)
    {
      if step.SendResult? {
        assert t.results[..|t.results| - 1] == s.results;
      }
    }
  }

  lemma AnswerKeepsConserved(s: State, step: AnswerStep)
    requires Conserved(s.stats, s.submits, s.claims, s.live)
    requires AnswerEnabled(s, step)
    ensures var t := AnswerApply(s, step); Conserved(t.stats, t.submits, t.claims, t.live)
  {
    var t := AnswerApply(s, step);
    ClaimsCount(s.claims, step.id, s.claims[step.id].ending);
  }

  lemma AnswerKeepsReasons(s: State, step: AnswerStep)
    requires Reasons(s.claims, s.results, s.cancelCalls, s.takenAt, s.queue, s.submits)
    requires AnswerEnabled(s, step)
    ensures var t := AnswerApply(s, step);
            Reasons(t.claims, t.results, t.cancelCalls, t.takenAt, t.queue, t.submits)
  {
    assert Justified(Done(step.id, s.claims[step.id].ending), s.cancelCalls, s.takenAt, s.queue, s.submits);
  }

  // ------------------------------------------------ one worker and its child

  /** One worker and the child it has, or gets, may change; nothing else about the pipes does. */
  lemma PipesMove(
    workers: seq<Worker>, children: map<ChildId, Child>, n: nat, w: Worker, children': map<ChildId, Child>)
    requires Pipes(workers, children) && n < |workers|
    requires forall c :: c in children ==> c in children' && (Attached(workers[n]) != Some(c) ==> children'[c] == children[c])
    requires forall c :: c in children' ==> c in children || Attached(w) == Some(c)
    requires Attached(w) == Attached(workers[n]) || Attached(w).None? || Attached(w).value !in children
    requires WorkerPipe(w, children')
    requires Attached(workers[n]).Some? && Attached(w) != Attached(workers[n]) ==>
               var ch := children'[Attached(workers[n]).value];
               !ch.alive || (Quiet(ch) && ch.inbox == [])
    ensures Pipes(workers[n := w], children')
  {
    var ws := workers[n := w];
    forall m | 0 <= m < |ws|
      ensures WorkerPipe(ws[m], children')
    {
      if m != n {
        assert WorkerPipe(workers[m], children);
      }
    }
    forall c | c in children' && children'[c].alive && Orphan(ws, c)
      ensures Quiet(children'[c]) && children'[c].inbox == []
    {
      assert Attached(ws[n]) != Some(c);
      if Attached(workers[n]) != Some(c) {
        assert Orphan(workers, c) by {
          forall m | 0 <= m < |workers| ensures Attached(workers[m]) != Some(c) {
            assert m != n ==> ws[m] == workers[m];
          }
        }
      }
    }
  }

  lemma HandsMove(workers: seq<Worker>, takenAt: map<JobId, nat>, n: nat, w: Worker)
    requires Hands(workers, takenAt) && n < |workers|
    requires Hand(w.pc) == Hand(workers[n].pc) || Hand(w.pc).None?
    ensures Hands(workers[n := w], takenAt)
  {
  }

  /** A host thread that keeps its job past the mark keeps the entry that names it. */
  lemma StartedMove(live: map<JobId, Live>, workers: seq<Worker>, n: nat, w: Worker)
    requires Started(live, workers) && n < |workers|
    requires (Hand(w.pc) == Hand(workers[n].pc) && !w.pc.Got?) ||
             (forall id :: id in live ==> live[id].worker != Some(n))
    ensures Started(live, workers[n := w])
  {
  }

  lemma EpochsMove(workers: seq<Worker>, takenAt: map<JobId, nat>, epoch: nat, n: nat, w: Worker)
    requires Epochs(workers, takenAt, epoch) && n < |workers| && WorkerEpoch(w, takenAt, epoch)
    ensures Epochs(workers[n := w], takenAt, epoch)
  {
  }

  lemma OutcomesMove(workers: seq<Worker>, cancelCalls: set<JobId>, n: nat, w: Worker)
    requires Outcomes(workers, cancelCalls) && n < |workers| && WorkerOutcome(w.pc, cancelCalls)
    ensures Outcomes(workers[n := w], cancelCalls)
  {
  }

  /** The worker keeps its job; it and its child move as the pipes allow. */
  lemma MoveKeepsInv(s: State, n: nat, w: Worker, children': map<ChildId, Child>)
    requires Inv(s) && n < |s.workers|
    requires Hand(w.pc) == Hand(s.workers[n].pc) && (w.pc.Got? ==> s.workers[n].pc.Got?)
    requires WorkerEpoch(w, s.takenAt, s.epoch) && WorkerOutcome(w.pc, s.cancelCalls)
    requires Pipes(s.workers[n := w], children')
    requires Known(children', s.cancelCalls, s.takenAt)
    ensures Inv(s.(workers := s.workers[n := w], children := children'))
  {
    HandsMove(s.workers, s.takenAt, n, w);
    EpochsMove(s.workers, s.takenAt, s.epoch, n, w);
    OutcomesMove(s.workers, s.cancelCalls, n, w);
    StartedMove(s.live, s.workers, n, w);
  }

  // ------------------------------------------------------------------ `cancel`

  lemma MarkKeepsInv(s: State, id: JobId)
    requires Inv(s) && LiveFree(s)
    ensures Inv(MarkCancelled(s, id))
  {
    MarkKeepsLedger(s, id);
    MarkKeepsMachine(s, id);
    MarkKeepsStarted(s, id);
  }

  lemma MarkKeepsLedger(s: State, id: JobId)
    requires Ledger(s)
    ensures Ledger(MarkCancelled(s, id))
  {
    if id in s.live {
      var t := MarkCancelled(s, id);
      LiveCount(s.live, id, t.live[id]);
      assert t.live.Keys == s.live.Keys;
      SameLiveKeys(s, t.live);
    }
  }

  lemma SameLiveKeys(s: State, live': map<JobId, Live>)
    requires ExactlyOnce(s.nextId, s.submits, s.live, s.claims, s.results)
    requires Reaping(s.reapers, s.nextId, s.submits, s.live)
    requires live'.Keys == s.live.Keys
    ensures ExactlyOnce(s.nextId, s.submits, live', s.claims, s.results)
    ensures Reaping(s.reapers, s.nextId, s.submits, live')
  {
    forall x: JobId | true ensures Stages(s.submits, live', s.claims, s.results, x) == One(1 <= x < s.nextId) {
      assert x in live' <==> x in s.live;
      assert Stages(s.submits, s.live, s.claims, s.results, x) == One(1 <= x < s.nextId);
    }
    assert forall x :: x in live' <==> x in s.live;
  }

  lemma MarkKeepsMachine(s: State, id: JobId)
    requires Machine(s.workers, s.children, s.cancelCalls, s.takenAt, s.epoch)
    ensures Machine(s.workers, s.children, s.cancelCalls + {id}, s.takenAt, s.epoch)
  {
  }

  lemma MarkKeepsStarted(s: State, id: JobId)
    requires Started(s.live, s.workers) && LiveFree(s)
    ensures var t := MarkCancelled(s, id); Started(t.live, t.workers) && Locked(t.liveLock, t.live, t.cancelCalls)
  {
    if id in s.live {
      StartedUpdate(s.live, s.workers, id, s.live[id].(cancelled := true));
    }
  }

  lemma StartedUpdate(live: map<JobId, Live>, workers: seq<Worker>, id: JobId, e: Live)
    requires Started(live, workers) && id in live
    requires e.started == live[id].started && e.worker == live[id].worker
    ensures Started(live[id := e], workers)
  {
  }

  /** A frame appended to a quiet child's pipe, or to the pipe of the child that carries that very job. */
  lemma AppendCancel(ch: Child, x: JobId)
    ensures var ch' := ch.(inbox := ch.inbox + [CancelFrame(x)]);
            && (Quiet(ch) ==> Quiet(ch'))
            && (Carrying(ch, x) ==> Carrying(ch', x))
  {
    hide OnPipe, AllCancels;
    OnPipeCancel(ch.inbox, x);
    AllCancelsCancel(ch.inbox, x);
  }

  lemma OnPipeCancel(fs: seq<Frame>, x: JobId)
    ensures OnPipe(fs, x) ==> OnPipe(fs + [CancelFrame(x)], x)
  {
    hide NoJobs, AllCancels;
    if OnPipe(fs, x) {
      var fs' := fs + [CancelFrame(x)];
      var i :| 0 <= i < |fs| && fs[i] == JobFrame(x) && NoJobs(fs[..i]) && AllCancels(fs[i + 1..], x);
      assert fs'[..i] == fs[..i] && fs'[i + 1..] == fs[i + 1..] + [CancelFrame(x)];
      AllCancelsCancel(fs[i + 1..], x);
    }
  }

  lemma AllCancelsCancel(fs: seq<Frame>, x: JobId)
    ensures AllCancels(fs, x) ==> AllCancels(fs + [CancelFrame(x)], x)
  {
  }

  /** The canceller's write: whatever the pipe holds, the cancel is for the job in that worker's hand. */
  lemma WriteCancelKeepsInv(s: State, ok: bool)
    requires Inv(s) && s.liveLock.Some?
    ensures Inv(SendCancel(s, ok))
  {
    hide Stages, Queued, Reasons, Reaping, Conserved, Hands, Epochs, Outcomes, Carrying, OnPipe, FrameKnown;
    var u := s.(liveLock := None);
    var (id, n) := s.liveLock.value;
    assert Hand(s.workers[n].pc) == Some(id) && !s.workers[n].pc.Got?;
    assert WorkerPipe(s.workers[n], s.children);
    if s.workers[n].slot.Some? {
      if ok {
        CancelFrameKeepsInv(u, n, id);
      } else {
        BreakKeepsInv(u, n);
      }
    }
  }

  lemma CancelFrameKeepsInv(s: State, n: nat, id: JobId)
    requires Inv(s) && n < |s.workers| && s.workers[n].slot.Some? && id in s.cancelCalls
    requires Hand(s.workers[n].pc) == Some(id) && s.workers[n].slot.value.child in s.children
    ensures Inv(s.(children := Appended(s.children, s.workers[n].slot.value.child, CancelFrame(id))))
  {
    hide Ledger, Hands, Epochs, Outcomes, Started, Locked, Carrying, OnPipe, Known;
    var w := s.workers[n];
    var c := w.slot.value.child;
    var children' := Appended(s.children, c, CancelFrame(id));
    assert WorkerPipe(w, s.children);
    AppendCancel(s.children[c], id);
    PipesMove(s.workers, s.children, n, w, children');
    assert s.workers[n := w] == s.workers;
    KnownAppended(s.children, c, CancelFrame(id), s.cancelCalls, s.takenAt);
    ChildrenChangeKeepsInv(s, children');
  }

  lemma ChildrenChangeKeepsInv(s: State, children': map<ChildId, Child>)
    requires Inv(s) && Pipes(s.workers, children') && Known(children', s.cancelCalls, s.takenAt)
    ensures Inv(s.(children := children'))
  {
    hide Pipes, Known, Stages, Queued, Reasons, Reaping, Conserved, Hands, Epochs, Outcomes;
  }

  lemma KnownAppended(
    children: map<ChildId, Child>, c: ChildId, f: Frame, cancelCalls: set<JobId>, takenAt: map<JobId, nat>)
    requires Known(children, cancelCalls, takenAt) && c in children && FrameKnown(f, children[c].born, cancelCalls, takenAt)
    ensures Known(Appended(children, c, f), cancelCalls, takenAt)
  {
    hide FrameKnown, TakenBy;
    assert ChildKnows(children[c], cancelCalls, takenAt);
  }

  /** Marking a slot broken disturbs nothing. */
  lemma BreakKeepsInv(s: State, n: nat)
    requires Inv(s) && n < |s.workers|
    ensures Inv(WithWorker(s, n, Break(s.workers[n])))
  {
    var w := s.workers[n];
    assert WorkerPipe(w, s.children);
    PipesMove(s.workers, s.children, n, Break(w), s.children);
    assert WorkerEpoch(w, s.takenAt, s.epoch) && WorkerOutcome(w.pc, s.cancelCalls);
    MoveKeepsInv(s, n, Break(w), s.children);
  }

  lemma CancelKeepsInv(s: State, step: CancelStep)
    requires Inv(s) && CancelEnabled(s, step)
    ensures Inv(CancelApply(s, step))
  {
    match step
    case Mark(id) => MarkKeepsInv(s, id);
    case WriteCancel(ok) => WriteCancelKeepsInv(s, ok);
  }

  // ------------------------------------------------------------ `reap_expired`

  lemma ReapKeepsInv(s: State, r: nat, step: ReapStep)
    requires Inv(s) && ReapEnabled(s, r, step)
    ensures Inv(ReapApply(s, r, step))
  {
    match step
    case Expire => ExpireKeepsInv(s, r);
    case Kill => KillKeepsInv(s, r);
    case Finish => ReaperLeaves(s, r);
    case Start => ReaperMoves(s, r, Reaper(s.clock, false, {}, map[], Choosing));
    case Snapshot => SnapshotKeepsInv(s, r);
    case Pick(id) => PickKeepsInv(s, r, id);
    case CountWedged => WedgedKeepsInv(s, r);
  }

  lemma KillKeepsInv(s: State, r: nat)
    requires Inv(s) && ReapEnabled(s, r, Kill)
    ensures Inv(ReapApply(s, r, Kill))
  {
    var p := s.reapers[r];
    ReaperMoves(s, r, p.(phase := Expiring(p.phase.id)));
    if p.phase.n < |s.workers| {
      BreakKeepsInv(WithReaper(s, r, p.(phase := Expiring(p.phase.id))), p.phase.n);
    }
  }

  lemma PickKeepsInv(s: State, r: nat, id: JobId)
    requires Inv(s) && ReapEnabled(s, r, Pick(id))
    ensures Inv(ReapApply(s, r, Pick(id)))
  {
    var p := s.reapers[r];
    assert ReaperOk(p, s.nextId, s.submits, s.live);
    ReaperMoves(s, r, PickExpired(p, id));
  }

  lemma WedgedKeepsInv(s: State, r: nat)
    requires Inv(s) && ReapEnabled(s, r, CountWedged)
    ensures Inv(ReapApply(s, r, CountWedged))
  {
    var p := s.reapers[r];
    assert ReaperOk(p, s.nextId, s.submits, s.live);
    ReaperMoves(s, r, p.(phase := Killing(p.phase.id, p.phase.n)));
  }

  lemma ReaperMoves(s: State, r: nat, p: Reaper)
    requires Inv(s) && ReaperOk(p, s.nextId, s.submits, s.live)
    ensures Inv(WithReaper(s, r, p))
  {
  }

  lemma ReaperLeaves(s: State, r: nat)
    requires Inv(s)
    ensures Inv(s.(reapers := s.reapers - {r}))
  {
  }

  lemma SnapshotKeepsInv(s: State, r: nat)
    requires Inv(s) && r in s.reapers && s.reapers[r].phase.Choosing?
    ensures Inv(WithReaper(s, r, TakeSnapshot(s.reapers[r], s.live)))
  {
    Settled(s);
    ReaperMoves(s, r, TakeSnapshot(s.reapers[r], s.live));
  }

  lemma ExpireKeepsInv(s: State, r: nat)
    requires Inv(s) && LiveFree(s) && r in s.reapers && s.reapers[r].phase.Expiring?
    ensures Inv(ReapApply(s, r, Expire))
  {
    var p := s.reapers[r];
    var id := p.phase.id;
    ClaimKeepsInv(s, id, Timeout);
    var u := ClaimEntry(s, id, Timeout);
    assert ReaperOk(p, s.nextId, s.submits, u.live);
    ReaperMoves(u, r, p.(phase := Choosing));
    assert ReapApply(s, r, Expire) == WithReaper(u, r, p.(phase := Choosing));
  }

  // ------------------------------------------------------------------ a child

  lemma ChildKeepsQuiet(ch: Child, step: ChildStep)
    requires ChildEnabled(ch, step)
    requires Quiet(ch)
    ensures Quiet(ChildApply(ch, step))
  {
    if step.ReadStdin? {
      assert ch.inbox[0] in ch.inbox;
      assert forall f :: f in ch.inbox[1..] ==> f in ch.inbox;
    }
  }

  /** However the child moves, the one job it carries moves to exactly one next place. */
  lemma ChildKeepsCarrying(ch: Child, step: ChildStep, x: JobId)
    requires ChildEnabled(ch, step)
    requires Carrying(ch, x)
    ensures Carrying(ChildApply(ch, step), x)
  {
    hide OnPipe, AllCancels;
    if step.ReadStdin? {
      if OnPipe(ch.inbox, x) {
        OnPipeTail(ch.inbox, x);
      }
      if AllCancels(ch.inbox, x) {
        AllCancelsTail(ch.inbox, x);
      }
    }
  }

  lemma AllCancelsTail(fs: seq<Frame>, x: JobId)
    requires fs != [] && AllCancels(fs, x)
    ensures fs[0] == CancelFrame(x) && AllCancels(fs[1..], x)
  {
    assert fs[0] in fs && forall f :: f in fs[1..] ==> f in fs;
  }

  lemma OnPipeTail(fs: seq<Frame>, x: JobId)
    requires fs != [] && OnPipe(fs, x)
    ensures fs[0].CancelFrame? ==> OnPipe(fs[1..], x)
    ensures fs[0].JobFrame? ==> fs[0] == JobFrame(x) && AllCancels(fs[1..], x)
  {
    var i :| 0 <= i < |fs| && fs[i] == JobFrame(x) && NoJobs(fs[..i]) && AllCancels(fs[i + 1..], x);
    if i > 0 {
      assert fs[0] == fs[..i][0] && fs[..i][0] in fs[..i];
      var t := fs[1..];
      assert t[i - 1] == JobFrame(x) && t[i..] == fs[i + 1..];
      assert t[..i - 1] == fs[..i][1..];
      assert forall f :: f in t[..i - 1] ==> f in fs[..i];
      assert NoJobs(t[..i - 1]) && AllCancels(t[i - 1 + 1..], x);
      assert OnPipe(t, x);
    } else {
      assert fs[i + 1..] == fs[1..];
    }
  }

  /** A flag set under a running job was set by a cancel of that very job. */
  lemma ChildKeepsKnowledge(ch: Child, step: ChildStep, cancelCalls: set<JobId>, takenAt: map<JobId, nat>)
    requires ChildEnabled(ch, step)
    requires ChildKnows(ch, cancelCalls, takenAt)
    requires step.Die? || Quiet(ch) || exists x :: Carrying(ch, x)
    ensures ChildKnows(ChildApply(ch, step), cancelCalls, takenAt)
  {
    if step.ReadStdin? {
      assert ch.inbox[0] in ch.inbox;
    }
  }

  /** A child nobody is attached to has nothing to do but die. */
  lemma OrphanKeepsInv(s: State, c: ChildId, step: ChildStep)
    requires Inv(s) && c in s.children && ChildEnabled(s.children[c], step) && Orphan(s.workers, c)
    ensures Inv(s.(children := s.children[c := ChildApply(s.children[c], step)]))
  {
    assert step.Die?;
    OrphanDies(s.workers, s.children, c);
    assert ChildKnows(s.children[c], s.cancelCalls, s.takenAt);
  }

  lemma OrphanDies(workers: seq<Worker>, children: map<ChildId, Child>, c: ChildId)
    requires Pipes(workers, children) && c in children && Orphan(workers, c)
    ensures Pipes(workers, children[c := children[c].(alive := false)])
  {
    var children' := children[c := children[c].(alive := false)];
    forall n | 0 <= n < |workers| ensures WorkerPipe(workers[n], children') {
      assert WorkerPipe(workers[n], children);
      assert Attached(workers[n]) != Some(c);
    }
  }

  lemma AttachedKeepsInv(s: State, n: nat, c: ChildId, step: ChildStep)
    requires Inv(s) && c in s.children && ChildEnabled(s.children[c], step)
    requires n < |s.workers| && Attached(s.workers[n]) == Some(c)
    ensures Inv(s.(children := s.children[c := ChildApply(s.children[c], step)]))
  {
    hide Ledger, Hands, Epochs, Outcomes, Started, Locked, Carrying, OnPipe, ChildKnows;
    var w := s.workers[n];
    var ch := s.children[c];
    var children' := s.children[c := ChildApply(ch, step)];
    assert WorkerPipe(w, s.children);
    AttachedKeepsPipe(w, s.children, c, step);
    PipesMove(s.workers, s.children, n, w, children');
    assert s.workers[n := w] == s.workers;
    assert ChildKnows(ch, s.cancelCalls, s.takenAt);
    ChildKeepsKnowledge(ch, step, s.cancelCalls, s.takenAt);
    ChildrenChangeKeepsInv(s, children');
  }

  lemma AttachedKeepsPipe(w: Worker, children: map<ChildId, Child>, c: ChildId, step: ChildStep)
    requires WorkerPipe(w, children) && Attached(w) == Some(c) && ChildEnabled(children[c], step)
    ensures WorkerPipe(w, children[c := ChildApply(children[c], step)])
    ensures step.Die? || Quiet(children[c]) || exists x :: Carrying(children[c], x)
  {
    if w.pc.Reading? {
      ChildKeepsCarrying(children[c], step, w.pc.id);
    } else if Quiet(children[c]) {
      ChildKeepsQuiet(children[c], step);
    }
  }

  lemma ChildKeepsInv(s: State, c: ChildId, step: ChildStep)
    requires Inv(s) && c in s.children && ChildEnabled(s.children[c], step)
    ensures Inv(s.(children := s.children[c := ChildApply(s.children[c], step)]))
  {
    var ch := s.children[c];
    if Orphan(s.workers, c) {
      OrphanKeepsInv(s, c, step);
    } else {
      var n :| 0 <= n < |s.workers| && Attached(s.workers[n]) == Some(c);
      AttachedKeepsInv(s, n, c, step);
    }
  }

  // ------------------------------------------------------------ a host thread

  lemma LocalKeepsInv(s: State, n: nat, step: LocalStep)
    requires Inv(s) && n < |s.workers| && LocalEnabled(s, s.workers[n], step)
    ensures Inv(WithWorker(s, n, LocalNext(s, s.workers[n], step)))
  {
    var w := s.workers[n];
    var w' := LocalNext(s, w, step);
    assert WorkerPipe(w, s.children) && WorkerEpoch(w, s.takenAt, s.epoch) && WorkerOutcome(w.pc, s.cancelCalls);
    LocalKeepsPipe(s, w, step);
    PipesMove(s.workers, s.children, n, w', s.children);
    MoveKeepsInv(s, n, w', s.children);
  }

  lemma LocalKeepsPipe(s: State, w: Worker, step: LocalStep)
    requires LocalEnabled(s, w, step)
    requires WorkerPipe(w, s.children) && WorkerEpoch(w, s.takenAt, s.epoch) && WorkerOutcome(w.pc, s.cancelCalls)
    ensures var w' := LocalNext(s, w, step);
            && WorkerPipe(w', s.children) && WorkerEpoch(w', s.takenAt, s.epoch) && WorkerOutcome(w'.pc, s.cancelCalls)
            && (Attached(w') == Attached(w) || (Attached(w').None? && step == Handshake(false)))
  {
  }

  /** A job taken off the queue was in nobody's hand. */
  lemma TakeKeepsInv(s: State, n: nat)
    requires Inv(s) && n < |s.workers| && s.workers[n].pc.Receiving? && s.queue != []
    ensures Inv(TakeJob(s, n))
  {
    var w := s.workers[n].(pc := Got(s.queue[0]));
    var takenAt' := s.takenAt[s.queue[0] := s.epoch];
    TakeKeepsLedger(s, n);
    TakeKeepsHands(s, n);
    assert WorkerPipe(s.workers[n], s.children);
    PipesMove(s.workers, s.children, n, w, s.children);
    KnownGrows(s, takenAt');
    EpochsMove(s.workers, takenAt', s.epoch, n, w);
    OutcomesMove(s.workers, s.cancelCalls, n, w);
    StartedTake(s.live, s.workers, n, w);
  }

  lemma StartedTake(live: map<JobId, Live>, workers: seq<Worker>, n: nat, w: Worker)
    requires Started(live, workers) && n < |workers| && workers[n].pc.Receiving?
    ensures Started(live, workers[n := w])
  {
  }

  lemma TakeKeepsLedger(s: State, n: nat)
    requires Ledger(s) && n < |s.workers| && s.queue != []
    ensures Ledger(TakeJob(s, n))
  {
    var t := TakeJob(s, n);
    assert forall i :: 0 <= i < |t.queue| ==> t.queue[i] == s.queue[i + 1];
    TakeKeepsReasons(s);
  }

  lemma TakeKeepsReasons(s: State)
    requires Reasons(s.claims, s.results, s.cancelCalls, s.takenAt, s.queue, s.submits) && s.queue != []
    ensures Reasons(s.claims, s.results, s.cancelCalls, s.takenAt[s.queue[0] := s.epoch], s.queue[1..], s.submits)
  {
    assert s.queue[0] in s.queue;
    assert forall x :: x in s.queue[1..] ==> x in s.queue;
  }

  lemma TakeKeepsHands(s: State, n: nat)
    requires Queued(s.nextId, s.queue, s.submits, s.takenAt) && Hands(s.workers, s.takenAt)
    requires n < |s.workers| && s.queue != []
    ensures Hands(s.workers[n := s.workers[n].(pc := Got(s.queue[0]))], s.takenAt[s.queue[0] := s.epoch])
  {
    assert s.queue[0] !in s.takenAt;
  }

  lemma KnownGrows(s: State, takenAt': map<JobId, nat>)
    requires Known(s.children, s.cancelCalls, s.takenAt) && Epochs(s.workers, s.takenAt, s.epoch)
    requires forall x :: x in s.takenAt ==> x in takenAt' && takenAt'[x] == s.takenAt[x]
    ensures Known(s.children, s.cancelCalls, takenAt')
    ensures Epochs(s.workers, takenAt', s.epoch)
  {
    forall c | c in s.children ensures ChildKnows(s.children[c], s.cancelCalls, takenAt') {
      var ch := s.children[c];
      assert ChildKnows(ch, s.cancelCalls, s.takenAt);
      forall f | f in ch.inbox ensures FrameKnown(f, ch.born, s.cancelCalls, takenAt') {
        assert FrameKnown(f, ch.born, s.cancelCalls, s.takenAt);
      }
    }
  }

  lemma MarkStartedKeepsInv(s: State, n: nat)
    requires Inv(s) && LiveFree(s) && n < |s.workers| && s.workers[n].pc.Got?
    ensures Inv(MarkJob(s, n))
  {
    var w := s.workers[n];
    var id := w.pc.id;
    assert WorkerPipe(w, s.children) && WorkerEpoch(w, s.takenAt, s.epoch);
    if id in s.live && !s.live[id].cancelled {
      var w' := w.(pc := Wanted(id));
      var e := s.live[id].(started := true, worker := Some(n));
      MarkStartedKeepsLedger(s, id, e);
      PipesMove(s.workers, s.children, n, w', s.children);
      HandsMove(s.workers, s.takenAt, n, w');
      EpochsMove(s.workers, s.takenAt, s.epoch, n, w');
      OutcomesMove(s.workers, s.cancelCalls, n, w');
      StartedMark(s.live, s.workers, n, w', e);
    } else {
      ReleaseKeepsInv(s, n);
    }
  }

  lemma MarkStartedKeepsLedger(s: State, id: JobId, e: Live)
    requires Ledger(s) && id in s.live
    ensures Ledger(s.(live := s.live[id := e]))
  {
    LiveCount(s.live, id, e);
    assert s.live[id := e].Keys == s.live.Keys;
    SameLiveKeys(s, s.live[id := e]);
  }

  lemma StartedMark(live: map<JobId, Live>, workers: seq<Worker>, n: nat, w: Worker, e: Live)
    requires Started(live, workers) && n < |workers| && workers[n].pc.Got?
    requires w.pc == Wanted(workers[n].pc.id) && e.started && e.worker == Some(n)
    ensures Started(live[w.pc.id := e], workers[n := w])
  {
  }

  /** A host thread lets go of a job no entry names it for. */
  lemma ReleaseKeepsInv(s: State, n: nat)
    requires Inv(s) && n < |s.workers|
    requires forall id :: id in s.live ==> s.live[id].worker != Some(n)
    requires !s.workers[n].pc.Reading? && !s.workers[n].pc.Shaking? && !s.workers[n].pc.Checking? && !s.workers[n].pc.Shutting?
    ensures Inv(WithPc(s, n, Receiving))
  {
    var w' := s.workers[n].(pc := Receiving);
    assert WorkerPipe(s.workers[n], s.children);
    PipesMove(s.workers, s.children, n, w', s.children);
    HandsMove(s.workers, s.takenAt, n, w');
    EpochsMove(s.workers, s.takenAt, s.epoch, n, w');
    OutcomesMove(s.workers, s.cancelCalls, n, w');
    StartedMove(s.live, s.workers, n, w');
  }

  /** The end of the loop: the entry is gone before the thread lets go of the job. */
  lemma AnswerJobKeepsInv(s: State, n: nat)
    requires Inv(s) && LiveFree(s) && n < |s.workers| && s.workers[n].pc.Answering?
    ensures Inv(AnswerJob(s, n))
  {
    var pc := s.workers[n].pc;
    assert WorkerOutcome(pc, s.cancelCalls);
    ClaimKeepsInv(s, pc.id, pc.out);
    var u := ClaimEntry(s, pc.id, pc.out);
    assert forall id :: id in u.live ==> u.live[id].worker != Some(n);
    ReleaseKeepsInv(u, n);
  }

  /** Dropping a child: it is dead, and nobody reads from it again. */
  lemma DropKeepsInv(s: State, n: nat, pc: HostPc)
    requires Inv(s) && n < |s.workers|
    requires (s.workers[n].pc.Stale? && pc == Deciding(s.workers[n].pc.id, s.workers[n].pc.current)) ||
             (s.workers[n].pc.Shutting? && pc == Answering(s.workers[n].pc.id, s.workers[n].pc.out))
    ensures Inv(DropChild(s, n, pc))
  {
    hide Ledger, Hands, Started, Locked, Carrying, OnPipe, Known;
    var w := s.workers[n];
    assert WorkerPipe(w, s.children) && WorkerEpoch(w, s.takenAt, s.epoch) && WorkerOutcome(w.pc, s.cancelCalls);
    var w' := Worker(pc, None, None, None);
    var children' := if w.slot.Some? then Killed(s.children, w.slot.value.child) else s.children;
    PipesMove(s.workers, s.children, n, w', children');
    KnownKilled(s, children');
    MoveKeepsInv(s, n, w', children');
  }

  lemma KnownKilled(s: State, children': map<ChildId, Child>)
    requires Known(s.children, s.cancelCalls, s.takenAt)
    requires children' == s.children || exists c :: children' == Killed(s.children, c)
    ensures Known(children', s.cancelCalls, s.takenAt)
  {
    forall c | c in children' ensures ChildKnows(children'[c], s.cancelCalls, s.takenAt) {
      assert ChildKnows(s.children[c], s.cancelCalls, s.takenAt);
    }
  }

  lemma DecideKeepsInv(s: State, n: nat)
    requires Inv(s) && n < |s.workers| && s.workers[n].pc.Deciding?
    ensures Inv(DecideSpawn(s, n))
  {
    var w := s.workers[n];
    assert WorkerPipe(w, s.children) && WorkerEpoch(w, s.takenAt, s.epoch);
    var w' := w.(pc := if w.reader.None? then Spawning(w.pc.id, w.pc.current) else Sending(w.pc.id));
    PipesMove(s.workers, s.children, n, w', s.children);
    MoveKeepsInv(s, n, w', s.children);
  }

  lemma SpawnKeepsInv(s: State, n: nat, c: ChildId)
    requires Inv(s) && n < |s.workers| && s.workers[n].pc.Spawning? && c !in s.children
    ensures Inv(SpawnChild(s, n, c))
  {
    var w := s.workers[n];
    assert WorkerPipe(w, s.children) && WorkerEpoch(w, s.takenAt, s.epoch);
    var w' := w.(pc := Shaking(w.pc.id, w.pc.current, c));
    var children' := s.children[c := FreshChild(s.epoch)];
    PipesMove(s.workers, s.children, n, w', children');
    MoveKeepsInv(s, n, w', children');
  }

  /** The job frame goes to a quiet child, so the child carries that job and no other. */
  lemma AppendJob(ch: Child, x: JobId)
    requires Quiet(ch)
    ensures Carrying(ch.(inbox := ch.inbox + [JobFrame(x)]), x)
  {
    var fs := ch.inbox + [JobFrame(x)];
    assert fs[..|ch.inbox|] == ch.inbox && fs[|ch.inbox| + 1..] == [];
    assert OnPipe(fs, x);
  }

  lemma WriteJobKeepsInv(s: State, n: nat, ok: bool)
    requires Inv(s) && n < |s.workers| && s.workers[n].pc.Sending?
    ensures Inv(SendJob(s, n, ok))
  {
    hide Ledger, Hands, Outcomes, Started, Locked, Carrying, OnPipe, Known;
    var w := s.workers[n];
    assert WorkerPipe(w, s.children) && WorkerEpoch(w, s.takenAt, s.epoch);
    if ok {
      var c := w.slot.value.child;
      var w' := w.(pc := Reading(w.pc.id));
      var children' := Appended(s.children, c, JobFrame(w.pc.id));
      AppendJob(s.children[c], w.pc.id);
      PipesMove(s.workers, s.children, n, w', children');
      KnownAppended(s.children, c, JobFrame(w.pc.id), s.cancelCalls, s.takenAt);
      MoveKeepsInv(s, n, w', children');
    } else {
      var w' := Break(w).(pc := Checking(w.pc.id, Error));
      PipesMove(s.workers, s.children, n, w', s.children);
      MoveKeepsInv(s, n, w', s.children);
    }
  }

  /** What the host reads is the answer to the job it sent; if it cannot be decoded the worker is dropped next. */
  lemma ReadDoneKeepsInv(s: State, n: nat, readable: bool)
    requires Inv(s) && n < |s.workers| && CanReadDone(s, s.workers[n])
    ensures Inv(TakeDone(s, n, readable))
  {
    hide Ledger, Hands, Started, Locked;
    var w := s.workers[n];
    assert WorkerPipe(w, s.children) && WorkerEpoch(w, s.takenAt, s.epoch);
    var c := w.reader.value;
    var ch := s.children[c];
    assert ChildKnows(ch, s.cancelCalls, s.takenAt);
    var done := ch.outbox[0];
    assert done in ch.outbox && done.id == w.pc.id;
    var w' := if readable then w.(pc := Checking(w.pc.id, done.ending)) else Break(w).(pc := Checking(w.pc.id, Error));
    var children' := s.children[c := ch.(outbox := ch.outbox[1..])];
    assert Quiet(children'[c]);
    PipesMove(s.workers, s.children, n, w', children');
    MoveKeepsInv(s, n, w', children');
  }

  lemma HostKeepsInv(s: State, n: nat, step: HostStep)
    requires Inv(s) && HostEnabled(s, n, step)
    ensures Inv(HostApply(s, n, step))
  {
    match step
    case Local(local) => LocalKeepsInv(s, n, local);
    case Take => TakeKeepsInv(s, n);
    case MarkStarted => MarkStartedKeepsInv(s, n);
    case DropStale => DropKeepsInv(s, n, Deciding(s.workers[n].pc.id, s.workers[n].pc.current));
    case Decide => DecideKeepsInv(s, n);
    case Spawn(c) => SpawnKeepsInv(s, n, c);
    case WriteJob(ok) => WriteJobKeepsInv(s, n, ok);
    case ReadDone(readable) => ReadDoneKeepsInv(s, n, readable);
    case DropBroken => DropKeepsInv(s, n, Answering(s.workers[n].pc.id, s.workers[n].pc.out));
    case Answer => AnswerJobKeepsInv(s, n);
  }

  // ------------------------------------------------------------------ every run

  lemma RecycleKeepsInv(s: State)
    requires Inv(s)
    ensures Inv(s.(epoch := s.epoch + 1))
  {
  }

  /** Whatever happens next keeps the invariant. */
  lemma StepKeepsInv(s: State, step: Step)
    requires Inv(s) && Enabled(s, step)
    ensures Inv(Apply(s, step))
  {
    match step
    case Tick =>
    case Recycle => RecycleKeepsInv(s);
    case BySubmitter(sub) => SubmitKeepsInv(s, sub);
    case ByAnswerer(ans) => AnswerKeepsInv(s, ans);
    case ByCanceller(can) => CancelKeepsInv(s, can);
    case ByWatchdog(r, reap) => ReapKeepsInv(s, r, reap);
    case ByHost(n, host) => HostKeepsInv(s, n, host);
    case ByChild(c, kid) => ChildKeepsInv(s, c, kid);
  }

  lemma {:induction false} RunKeepsInv(s: State, steps: seq<Step>)
    requires Inv(s) && Runs(s, steps)
    ensures Inv(After(s, steps))
    decreases |steps|
  {
    if steps != [] {
      StepKeepsInv(s, steps[0]);
      RunKeepsInv(Apply(s, steps[0]), steps[1..]);
    }
  }

  lemma ReachableInv(s: State)
    requires Reachable(s)
    ensures Inv(s)
  {
    var s0, steps :| Init(s0) && Runs(s0, steps) && After(s0, steps) == s;
    InitInv(s0);
    RunKeepsInv(s0, steps);
  }
}
