/**
 What the pool can still do, and what its watchdog does not do: from every reachable state every job
 handed out can come to its result, and only jobs past their deadline are timed out by the watchdog.
 */
module ComputeProgress {
  import opened Wrappers
  import opened Endings
  import opened ComputeProtocol
  import opened ComputeInvariants

  // ------------------------------------------------------------------ progress

  /** The worker a canceller is about to write to has a live child, so the write succeeds. */
  predicate CancelLands(s: State) {
    s.liveLock.Some? &&
    var n := s.liveLock.value.1;
    && n < |s.workers| && s.workers[n].slot.Some?
    && s.workers[n].slot.value.child in s.children && s.children[s.workers[n].slot.value.child].alive
  }

  /**
   A step as the program takes it: there is one watchdog, so no pass begins while one is under way, and a
   cancel fails to be written only if there is no live child to take it.
   */
  predicate AsTheProgram(s: State, step: Step) {
    match step
    case ByWatchdog(_, Start) => s.reapers == map[]
    case ByCanceller(WriteCancel(ok)) => ok == CancelLands(s)
    case _ => true
  }

  ghost predicate Played(s: State, steps: seq<Step>)
    requires Runs(s, steps)
    decreases |steps|
  {
    steps != [] ==> AsTheProgram(s, steps[0]) && Played(Apply(s, steps[0]), steps[1..])
  }

  ghost predicate Reports(s: State, steps: seq<Step>, id: JobId) {
    Runs(s, steps) && Played(s, steps) && Times(After(s, steps).results, id) >= 1
  }

  lemma StepThen(s: State, step: Step, rest: seq<Step>, id: JobId)
    requires Enabled(s, step) && AsTheProgram(s, step) && Reports(Apply(s, step), rest, id)
    ensures Reports(s, [step] + rest, id)
  {
    hide Apply, Enabled, AsTheProgram;
    assert ([step] + rest)[1..] == rest;
  }

  function NextAnswer(s: State, id: JobId): Step
    requires id in s.claims
  {
    ByAnswerer(if s.claims[id].counted then SendResult(id) else CountEnding(id))
  }

  /** A claimed entry: it is counted, and its result is sent. */
  lemma ClaimedReports(s: State, id: JobId) returns (steps: seq<Step>)
    requires id in s.claims
    ensures Reports(s, steps, id)
    decreases if s.claims[id].counted then 0 else 1
  {
    var step := NextAnswer(s, id);
    var t := Apply(s, step);
    var rest := [];
    if s.claims[id].counted {
      assert t.results[..|s.results|] == s.results;
      assert Reports(t, [], id);
    } else {
      rest := ClaimedReports(t, id);
    }
    StepThen(s, step, rest, id);
    steps := [step] + rest;
  }

  // ------------------------------------------------- a pass that meets this job

  /** A live job that a pass of the watchdog has still to answer for. */
  predicate Pending(s: State, r: nat, id: JobId) {
    && LiveFree(s) && id in s.live && r in s.reapers && s.reapers[r].snapped
    && if s.reapers[r].phase.Choosing? then id in s.reapers[r].todo else s.reapers[r].phase.id == id
  }

  function ReapStage(p: ReapPhase): nat {
    match p
    case Choosing => 0
    case Wedging(_, _) => 3
    case Killing(_, _) => 2
    case Expiring(_) => 1
  }

  /** The step of a pass between two choices. */
  function WithinEntry(p: ReapPhase): ReapStep
    requires !p.Choosing?
  {
    match p
    case Wedging(_, _) => CountWedged
    case Killing(_, _) => Kill
    case Expiring(_) => Expire
  }

  lemma PendingStep(s: State, r: nat, id: JobId)
    requires Pending(s, r, id) && !s.reapers[r].phase.Choosing?
    ensures var step := ByWatchdog(r, WithinEntry(s.reapers[r].phase));
            && Enabled(s, step)
            && if s.reapers[r].phase.Expiring? then id in Apply(s, step).claims
               else Pending(Apply(s, step), r, id) && !Apply(s, step).reapers[r].phase.Choosing?
                    && ReapStage(Apply(s, step).reapers[r].phase) < ReapStage(s.reapers[r].phase)
  {
    hide Break;
  }

  lemma {:induction false} PendingReports(s: State, r: nat, id: JobId) returns (steps: seq<Step>)
    requires Pending(s, r, id) && !s.reapers[r].phase.Choosing?
    ensures Reports(s, steps, id)
    decreases ReapStage(s.reapers[r].phase)
  {
    hide Reports, Apply, ReapStage;
    var step := ByWatchdog(r, WithinEntry(s.reapers[r].phase));
    var t := Apply(s, step);
    PendingStep(s, r, id);
    var rest;
    if s.reapers[r].phase.Expiring? {
      rest := ClaimedReports(t, id);
    } else {
      rest := PendingReports(t, r, id);
    }
    StepThen(s, step, rest, id);
    steps := [step] + rest;
  }

  lemma PickedReports(s: State, r: nat, id: JobId) returns (steps: seq<Step>)
    requires Pending(s, r, id) && s.reapers[r].phase.Choosing?
    ensures Reports(s, steps, id)
  {
    hide Reports;
    var step := ByWatchdog(r, Pick(id));
    var rest := PendingReports(Apply(s, step), r, id);
    StepThen(s, step, rest, id);
    steps := [step] + rest;
  }

  /** A live job whose deadline has passed: the next pass of the watchdog answers for it. */
  lemma ExpiredReports(s: State, id: JobId) returns (steps: seq<Step>)
    requires LiveFree(s) && id in s.live && s.live[id].deadline <= s.clock && s.reapers == map[]
    ensures Reports(s, steps, id)
  {
    hide Reports;
    var start, snap := ByWatchdog(0, Start), ByWatchdog(0, Snapshot);
    var started := Apply(s, start);
    var rest := PickedReports(Apply(started, snap), 0, id);
    StepThen(started, snap, rest, id);
    StepThen(s, start, [snap] + rest, id);
    steps := [start] + ([snap] + rest);
  }

  lemma {:induction false} LiveReports(s: State, id: JobId) returns (steps: seq<Step>)
    requires LiveFree(s) && id in s.live && s.reapers == map[]
    ensures Reports(s, steps, id)
    decreases if s.live[id].deadline > s.clock then s.live[id].deadline - s.clock else 0
  {
    hide Reports;
    if s.live[id].deadline <= s.clock {
      steps := ExpiredReports(s, id);
    } else {
      var rest := LiveReports(Apply(s, Tick), id);
      StepThen(s, Tick, rest, id);
      steps := [Tick] + rest;
    }
  }

  // ------------------------------------------------------- what is under way

  /** The job has not been lost: it is still to be inserted, or live, or claimed, or reported. */
  predicate Waiting(s: State, id: JobId) {
    Unborn(s.submits, id) || id in s.live || id in s.claims || Times(s.results, id) >= 1
  }

  /** With no pass under way. */
  lemma RestingReports(s: State, id: JobId) returns (steps: seq<Step>)
    requires LiveFree(s) && s.reapers == map[] && Waiting(s, id)
    ensures Reports(s, steps, id)
  {
    if Unborn(s.submits, id) {
      var step := BySubmitter(Insert(id));
      var rest := LiveReports(Apply(s, step), id);
      StepThen(s, step, rest, id);
      steps := [step] + rest;
    } else if id in s.live {
      steps := LiveReports(s, id);
    } else if id in s.claims {
      steps := ClaimedReports(s, id);
    } else {
      steps := [];
    }
  }

  /** What a pass under way does next. */
  ghost function NextReap(p: Reaper): ReapStep {
    if !p.phase.Choosing? then WithinEntry(p.phase)
    else if p.todo != map[] then var id :| id in p.todo; Pick(id)
    else if !p.snapped then Snapshot
    else Finish
  }

  /** How much of a pass is left: its snapshot, its choices, the steps of the entry in hand. */
  ghost predicate Shorter(p: Reaper, q: Reaper) {
    || (p.snapped && !q.snapped)
    || (p.snapped == q.snapped && |p.todo| < |q.todo|)
    || (p.snapped == q.snapped && |p.todo| == |q.todo| && ReapStage(p.phase) < ReapStage(q.phase))
  }

  lemma PickShortens(p: Reaper, id: JobId)
    requires id in p.todo
    ensures Shorter(PickExpired(p, id), p)
  {
    assert (p.todo - {id}).Keys == p.todo.Keys - {id};
  }

  /** What a step makes of the pass it belongs to. */
  function Reaped(p: Reaper, step: ReapStep, live: map<JobId, Live>): Reaper
    requires (step.CountWedged? ==> p.phase.Wedging?) && (step.Kill? ==> p.phase.Killing?)
    requires step.Pick? ==> step.id in p.todo
  {
    match step
    case Snapshot => TakeSnapshot(p, live)
    case Pick(id) => PickExpired(p, id)
    case CountWedged => p.(phase := Killing(p.phase.id, p.phase.n))
    case Kill => p.(phase := Expiring(p.phase.id))
    case Expire => p.(phase := Choosing)
    case _ => p
  }

  /** The rest of the state, as far as jobs go. */
  ghost predicate SameJobs(s: State, t: State) {
    && t.liveLock == s.liveLock && t.submits == s.submits && t.live == s.live
    && t.claims == s.claims && t.results == s.results
  }

  lemma SameJobsWait(s: State, t: State, id: JobId)
    requires SameJobs(s, t) && Waiting(s, id)
    ensures Waiting(t, id)
  {
  }

  lemma KillEffect(s: State, n: nat)
    ensures SameJobs(s, KillWorker(s, n)) && KillWorker(s, n).reapers == s.reapers
  {
    hide Break;
  }

  lemma ClaimEffect(s: State, x: JobId, ending: Ending, id: JobId)
    ensures var t := ClaimEntry(s, x, ending);
            t.liveLock == s.liveLock && t.reapers == s.reapers && (Waiting(s, id) ==> Waiting(t, id))
  {
  }

  lemma ReapEffect(s: State, r: nat, step: ReapStep, id: JobId)
    requires r in s.reapers && ReapEnabled(s, r, step) && !step.Finish? && Waiting(s, id)
    ensures var t := ReapApply(s, r, step);
            t.reapers == s.reapers[r := Reaped(s.reapers[r], step, s.live)] && t.liveLock == s.liveLock && Waiting(t, id)
  {
    hide Waiting, KillWorker, ClaimEntry, TakeSnapshot, PickExpired;
    var p := s.reapers[r];
    var moved := WithReaper(s, r, Reaped(p, step, s.live));
    SameJobsWait(s, moved, id);
    match step
    case Kill => KillEffect(moved, p.phase.n); SameJobsWait(moved, KillWorker(moved, p.phase.n), id);
    case Expire => ClaimEffect(moved, p.phase.id, Timeout, id);
    case CountWedged => SameJobsWait(s, ReapApply(s, r, step), id);
    case _ =>
  }

  lemma ReapShortens(p: Reaper, live: map<JobId, Live>)
    requires !NextReap(p).Finish?
    ensures Shorter(Reaped(p, NextReap(p), live), p)
  {
    match NextReap(p)
    case Pick(id) => PickShortens(p, id);
    case _ =>
  }

  lemma NextReapIsEnabled(s: State, r: nat)
    requires LiveFree(s) && r in s.reapers
    ensures ReapEnabled(s, r, NextReap(s.reapers[r])) && !NextReap(s.reapers[r]).Start?
  {
  }

  /** One step of a pass under way. */
  lemma PassGoesOn(s: State, r: nat, id: JobId)
    requires LiveFree(s) && r in s.reapers && Waiting(s, id)
    ensures var step := ByWatchdog(r, NextReap(s.reapers[r]));
            && Enabled(s, step) && AsTheProgram(s, step)
            && var t := Apply(s, step);
            && LiveFree(t) && Waiting(t, id)
            && if r in t.reapers then |t.reapers| == |s.reapers| && Shorter(t.reapers[r], s.reapers[r])
               else |t.reapers| < |s.reapers|
  {
    hide Waiting, NextReap, Reaped, ReapApply, ReapEnabled, Shorter;
    NextReapIsEnabled(s, r);
    var step := NextReap(s.reapers[r]);
    if step.Finish? {
      FinishEffect(s, r, id);
    } else {
      ReapEffect(s, r, step, id);
      ReapShortens(s.reapers[r], s.live);
      assert s.reapers[r := Reaped(s.reapers[r], step, s.live)].Keys == s.reapers.Keys;
    }
  }

  lemma FinishEffect(s: State, r: nat, id: JobId)
    requires r in s.reapers && ReapEnabled(s, r, Finish) && Waiting(s, id)
    ensures var t := ReapApply(s, r, Finish);
            t.reapers == s.reapers - {r} && |t.reapers| < |s.reapers| && t.liveLock == s.liveLock && Waiting(t, id)
  {
    assert (s.reapers - {r}).Keys == s.reapers.Keys - {r};
  }

  lemma SendShrinks(s: State, x: JobId, id: JobId)
    requires x in s.claims && Waiting(s, id)
    ensures var t := SendClaim(s, x);
            Waiting(t, id) && t.liveLock == s.liveLock && t.reapers == s.reapers && |t.claims| < |s.claims|
  {
    var t := SendClaim(s, x);
    assert t.results[..|s.results|] == s.results;
    assert (s.claims - {x}).Keys == s.claims.Keys - {x};
  }

  lemma CountShrinks(s: State, x: JobId, id: JobId)
    requires x in s.claims && !s.claims[x].counted && Waiting(s, id)
    ensures var t := CountClaim(s, x);
            && Waiting(t, id) && t.liveLock == s.liveLock && t.reapers == s.reapers
            && |t.claims| == |s.claims| && |Unclaimed(t.claims)| < |Unclaimed(s.claims)|
  {
    hide CountIn;
    ClaimsCount(s.claims, x, s.claims[x].ending);
    assert CountClaim(s, x).claims == s.claims[x := Claim(s.claims[x].ending, true)];
    assert CountClaim(s, x).claims.Keys == s.claims.Keys;
  }

  /** One step of an answer under way. */
  lemma AnswerGoesOn(s: State, x: JobId, id: JobId)
    requires LiveFree(s) && x in s.claims && Waiting(s, id)
    ensures var t := Apply(s, NextAnswer(s, x));
            && Enabled(s, NextAnswer(s, x)) && AsTheProgram(s, NextAnswer(s, x))
            && LiveFree(t) && Waiting(t, id) && t.reapers == s.reapers
            && (|t.claims| < |s.claims| || (|t.claims| == |s.claims| && |Unclaimed(t.claims)| < |Unclaimed(s.claims)|))
  {
    hide Waiting, SendClaim, CountClaim, Unclaimed;
    if s.claims[x].counted {
      SendShrinks(s, x, id);
    } else {
      CountShrinks(s, x, id);
    }
  }

  /** Answers under way are sent, then a pass under way goes on, until there is none. */
  lemma {:induction false} UnderWayReports(s: State, r: nat, id: JobId) returns (steps: seq<Step>)
    requires LiveFree(s) && r in s.reapers && Waiting(s, id)
    ensures Reports(s, steps, id)
    decreases |s.reapers|, if s.reapers[r].snapped then 0 else 1, |s.reapers[r].todo|, ReapStage(s.reapers[r].phase),
              |s.claims|, |Unclaimed(s.claims)|
  {
    hide Reports, Apply, Enabled, AsTheProgram, Waiting, NextReap, Unclaimed, ReapStage;
    var step, rest;
    if s.claims != map[] {
      var x :| x in s.claims;
      step := NextAnswer(s, x);
      AnswerGoesOn(s, x, id);
      rest := UnderWayReports(Apply(s, step), r, id);
    } else {
      step := ByWatchdog(r, NextReap(s.reapers[r]));
      PassGoesOn(s, r, id);
      var t := Apply(s, step);
      if r in t.reapers {
        rest := UnderWayReports(t, r, id);
      } else if t.reapers == map[] {
        rest := RestingReports(t, id);
      } else {
        var q :| q in t.reapers;
        rest := UnderWayReports(t, q, id);
      }
    }
    StepThen(s, step, rest, id);
    steps := [step] + rest;
  }

  /**
   From every reachable state every id handed out has a continuation in which it is reported, with one
   watchdog and no needless failure: no interleaving and no dead child leaves a job that nothing can
   answer for any more. A canceller that holds the lock on `live` ends its write: this is a model of pipes that
   never fill. One that does would hold up the watchdog, which needs that lock.
   */
  lemma EveryJobCanBeReported(s: State, id: JobId) returns (steps: seq<Step>)
    requires Reachable(s) && 1 <= id < s.nextId
    ensures Runs(s, steps) && Played(s, steps) && Times(After(s, steps).results, id) == 1
  {
    ReachableInv(s);
    assert Stages(s.submits, s.live, s.claims, s.results, id) == 1;
    steps := SomeReports(s, id);
    RunKeepsInv(s, steps);
    var t := After(s, steps);
    assert Stages(t.submits, t.live, t.claims, t.results, id) <= 1;
  }

  lemma SomeReports(s: State, id: JobId) returns (steps: seq<Step>)
    requires Waiting(s, id)
    ensures Reports(s, steps, id)
  {
    hide Reports, Waiting;
    if s.liveLock.Some? {
      var step := ByCanceller(WriteCancel(CancelLands(s)));
      Unlocked(s, CancelLands(s), id);
      var rest := FreeReports(Apply(s, step), id);
      StepThen(s, step, rest, id);
      steps := [step] + rest;
    } else {
      steps := FreeReports(s, id);
    }
  }

  lemma Unlocked(s: State, ok: bool, id: JobId)
    requires s.liveLock.Some?
    ensures var t := SendCancel(s, ok); LiveFree(t) && (Waiting(s, id) ==> Waiting(t, id))
  {
    var (x, n) := s.liveLock.value;
    var free := s.(liveLock := None);
    if n < |s.workers| && s.workers[n].slot.Some? {
      var c := s.workers[n].slot.value.child;
      if ok && c in s.children {
        assert SendCancel(s, ok) == free.(children := Appended(s.children, c, CancelFrame(x)));
      } else {
        assert SendCancel(s, ok) == free.(workers := s.workers[n := Break(s.workers[n])]);
      }
    } else {
      assert SendCancel(s, ok) == free;
    }
  }

  lemma FreeReports(s: State, id: JobId) returns (steps: seq<Step>)
    requires LiveFree(s) && Waiting(s, id)
    ensures Reports(s, steps, id)
  {
    if s.reapers == map[] {
      steps := RestingReports(s, id);
    } else {
      var r :| r in s.reapers;
      steps := UnderWayReports(s, r, id);
    }
  }

  // ------------------------------------------------------- only past the deadline

  /** A pass of the watchdog lies in the past, and what it still has to answer for was expired by then. */
  ghost predicate OnlyLate(p: Reaper, clock: nat, live: map<JobId, Live>) {
    && p.now <= clock
    && (!p.snapped ==> p.phase.Choosing? && p.todo == map[])
    && p.todo.Keys <= p.snapshot && (!p.phase.Choosing? ==> p.phase.id in p.snapshot)
    && forall id :: id in p.snapshot && id in live ==> live[id].deadline <= p.now
  }

  ghost predicate AllOnlyLate(reapers: map<nat, Reaper>, clock: nat, live: map<JobId, Live>) {
    forall r :: r in reapers ==> OnlyLate(reapers[r], clock, live)
  }

  /** Entries are only removed, or changed but for their deadline. */
  ghost predicate DeadlinesStay(live: map<JobId, Live>, live': map<JobId, Live>) {
    forall id :: id in live' ==> id in live && live'[id].deadline == live[id].deadline
  }

  lemma StayingIsLate(reapers: map<nat, Reaper>, clock: nat, live: map<JobId, Live>, clock': nat, live': map<JobId, Live>)
    requires AllOnlyLate(reapers, clock, live) && clock <= clock' && DeadlinesStay(live, live')
    ensures AllOnlyLate(reapers, clock', live')
  {
  }

  /** What a step that is neither a submitter's nor a watchdog's may do to the entries. */
  ghost predicate Stays(s: State, t: State) {
    t.reapers == s.reapers && t.clock == s.clock && DeadlinesStay(s.live, t.live)
  }

  lemma DropStays(s: State, n: nat, pc: HostPc)
    requires n < |s.workers|
    ensures Stays(s, DropChild(s, n, pc))
  {
  }

  lemma SendStays(s: State, n: nat, ok: bool)
    requires n < |s.workers| && s.workers[n].pc.Sending?
    ensures Stays(s, SendJob(s, n, ok))
  {
  }

  lemma TakeDoneStays(s: State, n: nat, readable: bool)
    requires n < |s.workers| && CanReadDone(s, s.workers[n])
    ensures Stays(s, TakeDone(s, n, readable))
  {
  }

  lemma MarkJobStays(s: State, n: nat)
    requires n < |s.workers| && s.workers[n].pc.Got?
    ensures Stays(s, MarkJob(s, n))
  {
  }

  lemma ClaimStays(s: State, id: JobId, ending: Ending)
    ensures Stays(s, ClaimEntry(s, id, ending))
  {
  }

  lemma AnswerStays(s: State, n: nat)
    requires n < |s.workers| && s.workers[n].pc.Answering?
    ensures Stays(s, AnswerJob(s, n))
  {
    ClaimStays(s, s.workers[n].pc.id, s.workers[n].pc.out);
  }

  lemma HostStays(s: State, n: nat, step: HostStep)
    requires HostEnabled(s, n, step)
    ensures Stays(s, HostApply(s, n, step))
  {
    hide DropChild, SendJob, TakeDone, MarkJob, AnswerJob, LocalNext;
    var w := s.workers[n];
    match step
    case DropStale => DropStays(s, n, Deciding(w.pc.id, w.pc.current));
    case DropBroken => DropStays(s, n, Answering(w.pc.id, w.pc.out));
    case WriteJob(ok) => SendStays(s, n, ok);
    case ReadDone(readable) => TakeDoneStays(s, n, readable);
    case MarkStarted => MarkJobStays(s, n);
    case Answer => AnswerStays(s, n);
    case _ =>
  }

  lemma MarkStays(s: State, id: JobId)
    ensures Stays(s, MarkCancelled(s, id))
  {
  }

  lemma WriteStays(s: State, ok: bool)
    requires s.liveLock.Some?
    ensures Stays(s, SendCancel(s, ok))
  {
    hide Break;
  }

  /** The entry of a new id is in no snapshot. */
  lemma InsertIsLate(s: State, id: JobId)
    requires AllOnlyLate(s.reapers, s.clock, s.live) && Reaping(s.reapers, s.nextId, s.submits, s.live)
    requires id in s.submits && s.submits[id].Allocated?
    ensures var t := InsertEntry(s, id); AllOnlyLate(t.reapers, t.clock, t.live)
  {
    forall r | r in s.reapers ensures id !in s.reapers[r].snapshot {
      assert ReaperOk(s.reapers[r], s.nextId, s.submits, s.live);
    }
  }

  lemma SubmitIsLate(s: State, step: SubmitStep)
    requires AllOnlyLate(s.reapers, s.clock, s.live) && Reaping(s.reapers, s.nextId, s.submits, s.live)
    requires SubmitEnabled(s, step)
    ensures var t := SubmitApply(s, step); AllOnlyLate(t.reapers, t.clock, t.live)
  {
    hide AllOnlyLate, Reaping, ClaimEntry;
    match step
    case Insert(id) => InsertIsLate(s, id);
    case Refuse(id) =>
      ClaimStays(s, id, Refused);
      StayingIsLate(s.reapers, s.clock, s.live, s.clock, ClaimEntry(s, id, Refused).live);
    case _ =>
  }

  lemma ReaperIsLate(s: State, r: nat, p: Reaper)
    requires AllOnlyLate(s.reapers, s.clock, s.live) && OnlyLate(p, s.clock, s.live)
    ensures AllOnlyLate(s.reapers[r := p], s.clock, s.live)
  {
  }

  lemma PickIsLate(p: Reaper, id: JobId, clock: nat, live: map<JobId, Live>)
    requires OnlyLate(p, clock, live) && id in p.todo && p.snapped
    ensures OnlyLate(PickExpired(p, id), clock, live)
  {
    assert (p.todo - {id}).Keys <= p.todo.Keys;
  }

  lemma SnapshotIsLate(p: Reaper, clock: nat, live: map<JobId, Live>)
    requires OnlyLate(p, clock, live) && !p.snapped
    ensures OnlyLate(TakeSnapshot(p, live), clock, live)
  {
  }

  lemma ReapIsLate(s: State, r: nat, step: ReapStep)
    requires AllOnlyLate(s.reapers, s.clock, s.live) && ReapEnabled(s, r, step)
    ensures var t := ReapApply(s, r, step); AllOnlyLate(t.reapers, t.clock, t.live)
  {
    hide AllOnlyLate, ClaimEntry, TakeSnapshot, PickExpired, KillWorker;
    assert r in s.reapers ==> OnlyLate(s.reapers[r], s.clock, s.live) by { LateReaper(s, r); }
    match step
    case Start => ReaperIsLate(s, r, Reaper(s.clock, false, {}, map[], Choosing));
    case Snapshot =>
      SnapshotIsLate(s.reapers[r], s.clock, s.live);
      ReaperIsLate(s, r, TakeSnapshot(s.reapers[r], s.live));
    case Pick(id) =>
      PickIsLate(s.reapers[r], id, s.clock, s.live);
      ReaperIsLate(s, r, PickExpired(s.reapers[r], id));
    case CountWedged =>
      var p := s.reapers[r];
      ReaperIsLate(s, r, p.(phase := Killing(p.phase.id, p.phase.n)));
    case Kill =>
      var p := s.reapers[r];
      ReaperIsLate(s, r, p.(phase := Expiring(p.phase.id)));
      KillStays(WithReaper(s, r, p.(phase := Expiring(p.phase.id))), p.phase.n);
    case Expire =>
      var p := s.reapers[r].(phase := Choosing);
      var t := WithReaper(s, r, p);
      ReaperIsLate(s, r, p);
      ClaimStays(t, s.reapers[r].phase.id, Timeout);
      StayingIsLate(t.reapers, t.clock, t.live, t.clock, ClaimEntry(t, s.reapers[r].phase.id, Timeout).live);
    case Finish => FinishIsLate(s, r);
  }

  lemma LateReaper(s: State, r: nat)
    requires AllOnlyLate(s.reapers, s.clock, s.live)
    ensures r in s.reapers ==> OnlyLate(s.reapers[r], s.clock, s.live)
  {
  }

  lemma FinishIsLate(s: State, r: nat)
    requires AllOnlyLate(s.reapers, s.clock, s.live)
    ensures AllOnlyLate(s.reapers - {r}, s.clock, s.live)
  {
  }

  lemma KillStays(s: State, n: nat)
    ensures var t := KillWorker(s, n); t.reapers == s.reapers && t.clock == s.clock && t.live == s.live
  {
  }

  lemma StepIsLate(s: State, step: Step)
    requires AllOnlyLate(s.reapers, s.clock, s.live) && Reaping(s.reapers, s.nextId, s.submits, s.live)
    requires Enabled(s, step)
    ensures var t := Apply(s, step); AllOnlyLate(t.reapers, t.clock, t.live)
  {
    hide AllOnlyLate, Reaping, HostApply, HostEnabled, SubmitApply, ReapApply, ReapEnabled, SubmitEnabled, SendCancel, MarkCancelled, ChildApply;
    match step {
      case BySubmitter(sub) => SubmitIsLate(s, sub);
      case ByWatchdog(r, reap) => ReapIsLate(s, r, reap);
      case ByHost(n, host) => HostStays(s, n, host);
      case ByCanceller(Mark(id)) => MarkStays(s, id);
      case ByCanceller(WriteCancel(ok)) => WriteStays(s, ok);
      case _ =>
    }
    if step.ByHost? || step.ByCanceller? || step.Tick? {
      var t := Apply(s, step);
      StayingIsLate(s.reapers, s.clock, s.live, t.clock, t.live);
    }
  }

  lemma {:induction false} RunIsLate(s: State, steps: seq<Step>)
    requires Inv(s) && AllOnlyLate(s.reapers, s.clock, s.live) && Runs(s, steps)
    ensures var t := After(s, steps); AllOnlyLate(t.reapers, t.clock, t.live)
    decreases |steps|
  {
    hide AllOnlyLate, Apply, Enabled;
    if steps != [] {
      StepKeepsInv(s, steps[0]);
      StepIsLate(s, steps[0]);
      RunIsLate(Apply(s, steps[0]), steps[1..]);
    }
  }

  /**
   In every reachable state: when a pass of the watchdog claims a job to time it out, the job's deadline
   had passed when that pass began. A job taken up by a worker meanwhile, or cancelled, is no exception.
   */
  lemma OnlyExpiredAreTimedOut(s: State, r: nat)
    requires Reachable(s) && ReapEnabled(s, r, Expire)
    ensures var p := s.reapers[r];
            p.now <= s.clock && (p.phase.id in s.live ==> s.live[p.phase.id].deadline <= p.now)
  {
    var s0, steps :| Init(s0) && Runs(s0, steps) && After(s0, steps) == s;
    InitInv(s0);
    RunIsLate(s0, steps);
  }
}
