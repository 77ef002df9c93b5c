/** What the compute pool promises, for every reachable state and every run. */
module ComputeTheorems {
  import opened Wrappers
  import opened ComputeProtocol
  import opened ComputeInvariants

  // -------------------------------------------------------------- cancellation

  /**
   A cancel never stops another job: a running job that sees the flag set was itself cancelled,
   although the child never compares the id of a cancel with the job it runs.
   */
  lemma CancelHitsItsOwnJob(s: State, c: ChildId)
    requires Reachable(s) && c in s.children
    ensures s.children[c].lua.Running? && s.children[c].flag ==> s.children[c].lua.id in s.cancelCalls
  {
    ReachableInv(s);
    assert ChildKnows(s.children[c], s.cancelCalls, s.takenAt);
  }

  /** So "cancelled" is only ever reported for a job somebody cancelled. */
  lemma CancelledWasAskedFor(s: State, i: nat)
    requires Reachable(s) && i < |s.results| && s.results[i].ending.Cancelled?
    ensures s.results[i].id in s.cancelCalls
  {
    ReachableInv(s);
    assert Justified(s.results[i], s.cancelCalls, s.takenAt, s.queue, s.submits);
  }

  /** Nothing of this job is anywhere in a child or on its pipes. */
  ghost predicate Untouched(ch: Child, id: JobId) {
    && JobFrame(id) !in ch.inbox && id !in ch.channel && (!ch.lua.Idle? ==> ch.lua.id != id)
    && forall d :: d in ch.outbox ==> d.id != id
  }

  /** A refused job is in no child, on no pipe and in no host thread's hand: it never left its submitter. */
  lemma RefusedNeverRan(s: State, i: nat)
    requires Reachable(s) && i < |s.results| && s.results[i].ending.Refused?
    ensures var id := s.results[i].id;
            && id !in s.takenAt && id !in s.queue
            && (forall n :: 0 <= n < |s.workers| ==> Hand(s.workers[n].pc) != Some(id))
            && (forall c :: c in s.children ==> Untouched(s.children[c], id))
  {
    ReachableInv(s);
    var id := s.results[i].id;
    assert Justified(s.results[i], s.cancelCalls, s.takenAt, s.queue, s.submits);
    forall c | c in s.children ensures Untouched(s.children[c], id) {
      UntakenIsUntouched(s.children[c], s.cancelCalls, s.takenAt, id);
    }
  }

  lemma UntakenIsUntouched(ch: Child, cancelCalls: set<JobId>, takenAt: map<JobId, nat>, id: JobId)
    requires ChildKnows(ch, cancelCalls, takenAt) && id !in takenAt
    ensures Untouched(ch, id)
  {
    assert JobFrame(id) in ch.inbox ==> FrameKnown(JobFrame(id), ch.born, cancelCalls, takenAt);
  }

  // ---------------------------------------------------------- exactly one result

  /**
   Once `submit` has let go of an id (or merely inserted its entry), the id is live, or claimed, or
   reported: in exactly one of the three, and reported at most once.
   */
  lemma ExactlyOneResult(s: State, id: JobId)
    requires Reachable(s) && 1 <= id < s.nextId && !Unborn(s.submits, id)
    ensures One(id in s.live) + One(id in s.claims) + Times(s.results, id) == 1
  {
    ReachableInv(s);
    assert Stages(s.submits, s.live, s.claims, s.results, id) == 1;
  }

  /** No result is ever sent for an id that was not handed out. */
  lemma NoResultWithoutId(s: State, id: JobId)
    requires Reachable(s) && !(1 <= id < s.nextId)
    ensures Times(s.results, id) == 0 && id !in s.live && id !in s.claims
  {
    ReachableInv(s);
    assert Stages(s.submits, s.live, s.claims, s.results, id) == 0;
  }

  /**
   When a pass of the watchdog ends, nothing it found expired is still live, not even a cancelled
   job that every worker skips: each was answered, by this pass or by somebody else.
   */
  lemma ReapLeavesNothingExpired(s: State, r: nat, id: JobId)
    requires Reachable(s) && ReapEnabled(s, r, Finish) && id in s.reapers[r].snapshot
    ensures id !in s.live && One(id in s.claims) + Times(s.results, id) == 1
  {
    ReachableInv(s);
    assert ReaperOk(s.reapers[r], s.nextId, s.submits, s.live);
    assert Stages(s.submits, s.live, s.claims, s.results, id) == One(1 <= id < s.nextId);
  }

  // -------------------------------------------------------------- the counters

  /**
   Submissions are conserved, and once no submission and no answer is under way the counters
   balance: everything submitted has been counted under an ending or is still live.
   */
  lemma CountersBalance(s: State)
    requires Reachable(s)
    ensures s.stats.submitted + |Uncounted(s.submits)| == Answered(s.stats) + |Unclaimed(s.claims)| + |s.live|
    ensures s.submits == map[] && s.claims == map[] ==> s.stats.submitted == Answered(s.stats) + |s.live|
  {
    ReachableInv(s);
    if s.submits == map[] && s.claims == map[] {
      assert Uncounted(s.submits) == {} && Unclaimed(s.claims) == {};
    }
  }

  // ------------------------------------------------------- request and response

  /** The jobs between the server and a child, in the order in which they will be answered. */
  function JobsOf(fs: seq<Frame>): seq<JobId> {
    if fs == [] then []
    else if fs[|fs| - 1].JobFrame? then JobsOf(fs[..|fs| - 1]) + [fs[|fs| - 1].id]
    else JobsOf(fs[..|fs| - 1])
  }

  function Ids(ds: seq<Done>): seq<JobId> {
    seq(|ds|, i requires 0 <= i < |ds| => ds[i].id)
  }

  function Outstanding(ch: Child): seq<JobId> {
    Ids(ch.outbox) + (if ch.lua.Idle? then [] else [ch.lua.id]) + ch.channel + JobsOf(ch.inbox)
  }

  lemma {:induction false} NoJobsOf(fs: seq<Frame>)
    requires NoJobs(fs)
    ensures JobsOf(fs) == []
  {
    if fs != [] {
      assert fs[|fs| - 1] in fs && forall f :: f in fs[..|fs| - 1] ==> f in fs;
      NoJobsOf(fs[..|fs| - 1]);
    }
  }

  lemma {:induction false} OneJobOf(fs: seq<Frame>, x: JobId)
    requires OnPipe(fs, x)
    ensures JobsOf(fs) == [x]
  {
    var i :| 0 <= i < |fs| && fs[i] == JobFrame(x) && NoJobs(fs[..i]) && AllCancels(fs[i + 1..], x);
    var k := |fs| - 1;
    if i == k {
      NoJobsOf(fs[..k]);
    } else {
      assert fs[i + 1..][k - i - 1] == fs[k] && fs[k] in fs[i + 1..];
      var gs := fs[..k];
      assert gs[..i] == fs[..i] && gs[i + 1..] == fs[i + 1..][..k - i - 1];
      var tail, shorter := fs[i + 1..], gs[i + 1..];
      assert forall f :: f in shorter ==> f in tail;
      assert OnPipe(gs, x);
      OneJobOf(gs, x);
    }
  }

  /**
   A worker that waits for an answer has exactly its own job outstanding; a worker between jobs has
   none, unless the child is dead and marked, and then it is dropped before the next job.
   */
  lemma OneOutstandingJob(s: State, n: nat)
    requires Reachable(s) && n < |s.workers| && s.workers[n].reader.Some?
    ensures s.workers[n].reader.value in s.children
    ensures var w := s.workers[n];
            var ch := s.children[w.reader.value];
            if w.pc.Reading? then Outstanding(ch) == [w.pc.id]
            else Outstanding(ch) == [] || (!ch.alive && w.slot.Some? && w.slot.value.broken && (w.pc.Checking? || w.pc.Shutting?))
  {
    ReachableInv(s);
    var w := s.workers[n];
    assert WorkerPipe(w, s.children);
    var ch := s.children[w.reader.value];
    assert Paired(w, ch);
    if w.pc.Reading? {
      CarryingIsOne(ch, w.pc.id);
    } else if Quiet(ch) {
      NoJobsOf(ch.inbox);
    }
  }

  lemma CarryingIsOne(ch: Child, x: JobId)
    requires Carrying(ch, x)
    ensures Outstanding(ch) == [x]
  {
    if OnPipe(ch.inbox, x) && ch.lua.Idle? && ch.channel == [] && ch.outbox == [] {
      OneJobOf(ch.inbox, x);
      assert Ids(ch.outbox) == [];
    } else {
      assert NoJobs(ch.inbox);
      NoJobsOf(ch.inbox);
      assert Ids(ch.outbox) == if ch.outbox == [] then [] else [x];
    }
  }

  /** The answer for another job than the one being run is never read. */
  lemma AnswersMatchRequests(s: State, n: nat)
    requires Reachable(s) && n < |s.workers| && CanReadDone(s, s.workers[n])
    ensures s.children[s.workers[n].reader.value].outbox[0].id == s.workers[n].pc.id
  {
    ReachableInv(s);
    assert WorkerPipe(s.workers[n], s.children);
  }

  // ------------------------------------------------------- what only ever grows

  ghost predicate TakenLater(takenAt: map<JobId, nat>, takenAt': map<JobId, nat>, epoch: nat) {
    && (forall x :: x in takenAt ==> x in takenAt')
    && (forall x :: x in takenAt' ==> (x in takenAt && takenAt'[x] == takenAt[x]) || epoch <= takenAt'[x])
  }

  ghost predicate ChildrenLater(children: map<ChildId, Child>, children': map<ChildId, Child>, epoch: nat, epoch': nat) {
    && (forall c :: c in children ==> c in children' && children'[c].born == children[c].born)
    && (forall c :: c in children' ==> c in children || epoch <= children'[c].born <= epoch')
  }

  ghost predicate OrphansLater(workers: seq<Worker>, children: map<ChildId, Child>, workers': seq<Worker>) {
    forall c :: c in children && Orphan(workers, c) ==> Orphan(workers', c)
  }

  /** How a step, or a whole run, may change what is remembered: jobs taken, children born, children dropped. */
  ghost predicate Later(s: State, t: State) {
    && s.epoch <= t.epoch
    && TakenLater(s.takenAt, t.takenAt, s.epoch)
    && ChildrenLater(s.children, t.children, s.epoch, t.epoch)
    && OrphansLater(s.workers, s.children, t.workers)
  }

  lemma OrphansMove(workers: seq<Worker>, children: map<ChildId, Child>, n: nat, w: Worker)
    requires n < |workers|
    requires Attached(w) == Attached(workers[n]) || Attached(w).None? || Attached(w).value !in children
    ensures OrphansLater(workers, children, workers[n := w])
  {
  }

  lemma ChildrenPut(children: map<ChildId, Child>, c: ChildId, ch: Child, epoch: nat)
    requires if c in children then ch.born == children[c].born else ch.born == epoch
    ensures ChildrenLater(children, children[c := ch], epoch, epoch)
  {
  }

  /** A step that changes one worker, and at most one child. */
  lemma LaterMove(s: State, t: State, n: nat)
    requires n < |s.workers| && |t.workers| == |s.workers| && t.workers == s.workers[n := t.workers[n]]
    requires var a := Attached(t.workers[n]); a == Attached(s.workers[n]) || a.None? || a.value !in s.children
    requires t.epoch == s.epoch && TakenLater(s.takenAt, t.takenAt, s.epoch)
    requires ChildrenLater(s.children, t.children, s.epoch, s.epoch)
    ensures Later(s, t)
  {
    OrphansMove(s.workers, s.children, n, t.workers[n]);
  }

  lemma LaterBreak(s: State, n: nat)
    requires n < |s.workers|
    ensures Later(s, WithWorker(s, n, Break(s.workers[n])))
  {
    LaterMove(s, WithWorker(s, n, Break(s.workers[n])), n);
  }

  lemma LaterLocal(s: State, n: nat, step: LocalStep)
    requires n < |s.workers| && LocalEnabled(s, s.workers[n], step) && WorkerPipe(s.workers[n], s.children)
    ensures Later(s, WithWorker(s, n, LocalNext(s, s.workers[n], step)))
  {
    LaterMove(s, WithWorker(s, n, LocalNext(s, s.workers[n], step)), n);
  }

  lemma LaterTake(s: State, n: nat)
    requires n < |s.workers| && s.queue != [] && s.queue[0] !in s.takenAt && s.workers[n].pc.Receiving?
    ensures Later(s, TakeJob(s, n))
  {
    LaterMove(s, TakeJob(s, n), n);
  }

  lemma LaterMark(s: State, n: nat)
    requires n < |s.workers| && s.workers[n].pc.Got?
    ensures Later(s, MarkJob(s, n))
  {
    LaterMove(s, MarkJob(s, n), n);
  }

  lemma LaterDrop(s: State, n: nat, pc: HostPc)
    requires n < |s.workers| && !pc.Shaking?
    ensures Later(s, DropChild(s, n, pc))
  {
    var w := s.workers[n];
    if w.slot.Some? {
      LaterKilled(s, n, pc, w.slot.value.child);
    } else {
      LaterMove(s, WithWorker(s, n, Worker(pc, None, None, None)), n);
    }
  }

  lemma LaterKilled(s: State, n: nat, pc: HostPc, c: ChildId)
    requires n < |s.workers| && !pc.Shaking?
    ensures Later(s, WithWorker(s, n, Worker(pc, None, None, None)).(children := Killed(s.children, c)))
  {
    if c in s.children {
      ChildrenPut(s.children, c, s.children[c].(alive := false), s.epoch);
    }
    LaterMove(s, WithWorker(s, n, Worker(pc, None, None, None)).(children := Killed(s.children, c)), n);
  }

  lemma LaterSpawn(s: State, n: nat, c: ChildId)
    requires n < |s.workers| && s.workers[n].pc.Spawning? && c !in s.children
    ensures Later(s, SpawnChild(s, n, c))
  {
    ChildrenPut(s.children, c, FreshChild(s.epoch), s.epoch);
    LaterMove(s, SpawnChild(s, n, c), n);
  }

  lemma LaterDecide(s: State, n: nat)
    requires n < |s.workers| && s.workers[n].pc.Deciding?
    ensures Later(s, DecideSpawn(s, n))
  {
    LaterMove(s, DecideSpawn(s, n), n);
  }

  lemma LaterWriteJob(s: State, n: nat, ok: bool)
    requires n < |s.workers| && s.workers[n].pc.Sending?
    ensures Later(s, SendJob(s, n, ok))
  {
    var w := s.workers[n];
    if w.slot.Some? && w.slot.value.child in s.children {
      var c := w.slot.value.child;
      ChildrenPut(s.children, c, s.children[c].(inbox := s.children[c].inbox + [JobFrame(w.pc.id)]), s.epoch);
    }
    LaterMove(s, SendJob(s, n, ok), n);
  }

  lemma LaterReadDone(s: State, n: nat, readable: bool)
    requires n < |s.workers| && CanReadDone(s, s.workers[n])
    ensures Later(s, TakeDone(s, n, readable))
  {
    var c := s.workers[n].reader.value;
    ChildrenPut(s.children, c, s.children[c].(outbox := s.children[c].outbox[1..]), s.epoch);
    LaterMove(s, TakeDone(s, n, readable), n);
  }

  lemma LaterAnswer(s: State, n: nat)
    requires n < |s.workers| && s.workers[n].pc.Answering?
    ensures Later(s, AnswerJob(s, n))
  {
    LaterMove(s, AnswerJob(s, n), n);
  }

  lemma LaterHost(s: State, n: nat, step: HostStep)
    requires HostEnabled(s, n, step)
    requires WorkerPipe(s.workers[n], s.children) && (s.queue != [] ==> s.queue[0] !in s.takenAt)
    ensures Later(s, HostApply(s, n, step))
  {
    match step
    case Local(local) => LaterLocal(s, n, local);
    case Take => LaterTake(s, n);
    case MarkStarted => LaterMark(s, n);
    case DropStale => LaterDrop(s, n, Deciding(s.workers[n].pc.id, s.workers[n].pc.current));
    case Decide => LaterDecide(s, n);
    case Spawn(c) => LaterSpawn(s, n, c);
    case WriteJob(ok) => LaterWriteJob(s, n, ok);
    case ReadDone(readable) => LaterReadDone(s, n, readable);
    case DropBroken => LaterDrop(s, n, Answering(s.workers[n].pc.id, s.workers[n].pc.out));
    case Answer => LaterAnswer(s, n);
  }

  lemma LaterCancel(s: State, step: CancelStep)
    requires CancelEnabled(s, step)
    ensures Later(s, CancelApply(s, step))
  {
    if step.WriteCancel? {
      LaterWriteCancel(s, step.ok);
    }
  }

  lemma LaterWriteCancel(s: State, ok: bool)
    requires s.liveLock.Some?
    ensures Later(s, SendCancel(s, ok))
  {
    var (id, n) := s.liveLock.value;
    if n < |s.workers| && s.workers[n].slot.Some? {
      var c := s.workers[n].slot.value.child;
      if ok && c in s.children {
        ChildrenPut(s.children, c, s.children[c].(inbox := s.children[c].inbox + [CancelFrame(id)]), s.epoch);
      } else {
        LaterBreak(s, n);
      }
    }
  }

  lemma LaterReap(s: State, r: nat, step: ReapStep)
    requires ReapEnabled(s, r, step)
    ensures Later(s, ReapApply(s, r, step))
  {
    if step.Kill? && s.reapers[r].phase.n < |s.workers| {
      OrphansMove(s.workers, s.children, s.reapers[r].phase.n, Break(s.workers[s.reapers[r].phase.n]));
    }
  }

  lemma LaterChild(s: State, c: ChildId, step: ChildStep)
    requires c in s.children && ChildEnabled(s.children[c], step)
    ensures Later(s, s.(children := s.children[c := ChildApply(s.children[c], step)]))
  {
    ChildrenPut(s.children, c, ChildApply(s.children[c], step), s.epoch);
  }

  lemma LaterStep(s: State, step: Step)
    requires Inv(s) && Enabled(s, step)
    ensures Later(s, Apply(s, step))
  {
    match step
    case Tick =>
    case Recycle =>
    case BySubmitter(sub) => LaterSubmit(s, sub);
    case ByAnswerer(ans) => LaterAnswerer(s, ans);
    case ByCanceller(can) => LaterCancel(s, can);
    case ByWatchdog(r, reap) => LaterReap(s, r, reap);
    case ByHost(n, host) => LaterHostInv(s, n, host);
    case ByChild(c, kid) => LaterChild(s, c, kid);
  }

  lemma LaterHostInv(s: State, n: nat, step: HostStep)
    requires Inv(s) && HostEnabled(s, n, step)
    ensures Later(s, HostApply(s, n, step))
  {
    assert WorkerPipe(s.workers[n], s.children);
    LaterHost(s, n, step);
  }

  lemma LaterSubmit(s: State, step: SubmitStep)
    requires SubmitEnabled(s, step)
    ensures Later(s, SubmitApply(s, step))
  {
  }

  lemma LaterAnswerer(s: State, step: AnswerStep)
    requires AnswerEnabled(s, step)
    ensures Later(s, AnswerApply(s, step))
  {
  }

  lemma LaterTransitive(s: State, t: State, u: State)
    requires Later(s, t) && Later(t, u)
    ensures Later(s, u)
  {
  }

  lemma {:induction false} RunLater(s: State, steps: seq<Step>)
    requires Inv(s) && Runs(s, steps)
    ensures Later(s, After(s, steps))
    decreases |steps|
  {
    if steps != [] {
      var t := Apply(s, steps[0]);
      LaterStep(s, steps[0]);
      StepKeepsInv(s, steps[0]);
      RunLater(t, steps[1..]);
      LaterTransitive(s, t, After(s, steps));
    }
  }

  /** No child is older than the present. */
  lemma BornBeforeNow(s: State)
    requires Reachable(s)
    ensures forall c :: c in s.children ==> s.children[c].born <= s.epoch
  {
    var s0, steps :| Init(s0) && Runs(s0, steps) && After(s0, steps) == s;
    InitInv(s0);
    RunLater(s0, steps);
  }

  /**
   After a reload, no job taken from the queue runs in an old VM: whatever happens after `recycle`
   (failed starts, kills, respawns), a job taken since then is only ever held by a child that did
   not exist when `recycle` returned.
   */
  lemma ReloadReachesEveryLaterJob(s: State, steps: seq<Step>, c: ChildId)
    requires Reachable(s)
    requires Runs(Apply(s, Recycle), steps)
    requires var t := After(Apply(s, Recycle), steps);
             c in t.children && !t.children[c].lua.Idle? && t.children[c].lua.id !in s.takenAt
    ensures c !in s.children
  {
    var s1 := Apply(s, Recycle);
    var t := After(s1, steps);
    ReachableInv(s);
    BornBeforeNow(s);
    StepKeepsInv(s, Recycle);
    RunKeepsInv(s1, steps);
    RunLater(s1, steps);
    assert ChildKnows(t.children[c], t.cancelCalls, t.takenAt);
  }

  /** A discarded child is never read from again: its late answer reaches nobody. */
  lemma DroppedForGood(s: State, steps: seq<Step>, c: ChildId, n: nat)
    requires Reachable(s) && Runs(s, steps)
    requires c in s.children && Orphan(s.workers, c)
    requires n < |After(s, steps).workers| && CanReadDone(After(s, steps), After(s, steps).workers[n])
    ensures After(s, steps).workers[n].reader != Some(c)
  {
    ReachableInv(s);
    RunLater(s, steps);
    assert Attached(After(s, steps).workers[n]) != Some(c);
  }

  // ----------------------------------------------------- a result is for good

  lemma TimesGrow(rs: seq<Done>, d: Done, id: JobId)
    ensures Times(rs + [d], id) >= Times(rs, id)
  {
    assert (rs + [d])[..|rs|] == rs;
  }

  /** Results are only ever appended, and only by the last step of an answer. */
  ghost predicate OnlyAppends(s: State, t: State) {
    s.nextId <= t.nextId && (t.results == s.results || exists d :: t.results == s.results + [d])
  }

  lemma HostSendsNothing(s: State, n: nat, step: HostStep)
    requires HostEnabled(s, n, step)
    ensures OnlyAppends(s, HostApply(s, n, step))
  {
    hide DropChild, SendJob, TakeDone, LocalNext;
    var w := s.workers[n];
    match step
    case DropStale => DropSendsNothing(s, n, Deciding(w.pc.id, w.pc.current));
    case DropBroken => DropSendsNothing(s, n, Answering(w.pc.id, w.pc.out));
    case WriteJob(ok) => PipeSendsNothing(s, n, ok);
    case ReadDone(readable) => PipeSendsNothing(s, n, readable);
    case _ =>
  }

  lemma DropSendsNothing(s: State, n: nat, pc: HostPc)
    requires n < |s.workers|
    ensures OnlyAppends(s, DropChild(s, n, pc))
  {
  }

  lemma PipeSendsNothing(s: State, n: nat, ok: bool)
    requires n < |s.workers|
    ensures s.workers[n].pc.Sending? ==> OnlyAppends(s, SendJob(s, n, ok))
    ensures CanReadDone(s, s.workers[n]) ==> OnlyAppends(s, TakeDone(s, n, ok))
  {
  }

  lemma WatchdogSendsNothing(s: State, r: nat, step: ReapStep)
    requires ReapEnabled(s, r, step)
    ensures OnlyAppends(s, ReapApply(s, r, step))
  {
  }

  lemma SubmitterSendsNothing(s: State, step: SubmitStep)
    requires SubmitEnabled(s, step)
    ensures OnlyAppends(s, SubmitApply(s, step))
  {
  }

  lemma CancellerSendsNothing(s: State, step: CancelStep)
    requires CancelEnabled(s, step)
    ensures OnlyAppends(s, CancelApply(s, step))
  {
    hide MarkCancelled, SendCancel;
    match step
    case Mark(id) => MarkSendsNothing(s, id);
    case WriteCancel(ok) => WriteSendsNothing(s, ok);
  }

  lemma MarkSendsNothing(s: State, id: JobId)
    ensures MarkCancelled(s, id).results == s.results && MarkCancelled(s, id).nextId == s.nextId
  {
    var asked := s.(cancelCalls := s.cancelCalls + {id});
    if id in s.live {
      var marked := s.live[id := s.live[id].(cancelled := true)];
      assert MarkCancelled(s, id) == asked.(live := marked, liveLock := MarkCancelled(s, id).liveLock);
    } else {
      assert MarkCancelled(s, id) == asked;
    }
  }

  lemma WriteSendsNothing(s: State, ok: bool)
    requires s.liveLock.Some?
    ensures SendCancel(s, ok).results == s.results && SendCancel(s, ok).nextId == s.nextId
  {
    var (id, n) := s.liveLock.value;
    var free := s.(liveLock := None);
    if n < |s.workers| && s.workers[n].slot.Some? {
      var c := s.workers[n].slot.value.child;
      if ok && c in s.children {
        assert SendCancel(s, ok) == free.(children := Appended(s.children, c, CancelFrame(id)));
      } else {
        assert SendCancel(s, ok) == free.(workers := s.workers[n := Break(s.workers[n])]);
      }
    } else {
      assert SendCancel(s, ok) == free;
    }
  }

  lemma StepOnlyAppends(s: State, step: Step)
    requires Enabled(s, step)
    ensures OnlyAppends(s, Apply(s, step))
  {
    match step
    case Tick =>
    case Recycle =>
    case BySubmitter(sub) => SubmitterSendsNothing(s, sub);
    case ByAnswerer(_) =>
    case ByCanceller(can) => CancellerSendsNothing(s, can);
    case ByWatchdog(r, reap) => WatchdogSendsNothing(s, r, reap);
    case ByHost(n, host) => HostSendsNothing(s, n, host);
    case ByChild(_, _) =>
  }

  lemma {:induction false} RunOnlyAppends(s: State, steps: seq<Step>, id: JobId)
    requires Runs(s, steps)
    ensures s.nextId <= After(s, steps).nextId
    ensures Times(s.results, id) <= Times(After(s, steps).results, id)
    decreases |steps|
  {
    if steps != [] {
      var t := Apply(s, steps[0]);
      StepOnlyAppends(s, steps[0]);
      if t.results != s.results {
        var d :| t.results == s.results + [d];
        TimesGrow(s.results, d, id);
      }
      RunOnlyAppends(t, steps[1..], id);
    }
  }

  /** A reported id stays reported, exactly once, and is never live or claimed again, in every continuation. */
  lemma ReportedForGood(s: State, steps: seq<Step>, id: JobId)
    requires Reachable(s) && Runs(s, steps) && Times(s.results, id) >= 1
    ensures var t := After(s, steps); Times(t.results, id) == 1 && id !in t.live && id !in t.claims
  {
    var t := After(s, steps);
    ReachableInv(s);
    RunKeepsInv(s, steps);
    RunOnlyAppends(s, steps, id);
    assert Stages(t.submits, t.live, t.claims, t.results, id) <= 1;
  }
}
