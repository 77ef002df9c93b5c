/**
 What a cancel does. A job cancelled before a worker took it up never reaches a child; for one that a worker has, the
 cancel reaches that worker's child, and a child that runs the job can stop it for that.
 */
module ComputeCancel {
  import opened Wrappers
  import opened Endings
  import opened ComputeProtocol
  import opened ComputeInvariants
  import opened ComputeTheorems

  // ------------------------------------------------------- cancelled in the queue

  /** The entry of the job, if it is still there, is marked. */
  predicate Marked(live: map<JobId, Live>, id: JobId) {
    id in live ==> live[id].cancelled
  }

  /** No host thread has more of the job than the job itself, not yet looked at. */
  ghost predicate Unbegun(workers: seq<Worker>, id: JobId) {
    forall n :: 0 <= n < |workers| && Hand(workers[n].pc) == Some(id) ==> workers[n].pc.Got?
  }

  ghost predicate NoChildHas(children: map<ChildId, Child>, id: JobId) {
    forall c :: c in children ==> Untouched(children[c], id)
  }

  /** The job was cancelled before a worker took it up. */
  ghost predicate CalledOff(s: State, id: JobId) {
    && id < s.nextId && !Unborn(s.submits, id)
    && Marked(s.live, id) && Unbegun(s.workers, id) && NoChildHas(s.children, id)
  }

  lemma UnbegunMove(workers: seq<Worker>, n: nat, w: Worker, id: JobId)
    requires Unbegun(workers, id) && n < |workers| && (Hand(w.pc) == Some(id) ==> w.pc.Got?)
    ensures Unbegun(workers[n := w], id)
  {
  }

  lemma NoChildPut(children: map<ChildId, Child>, c: ChildId, ch: Child, id: JobId)
    requires NoChildHas(children, id) && Untouched(ch, id)
    ensures NoChildHas(children[c := ch], id)
  {
    hide Untouched;
  }

  lemma TakeKeepsOff(s: State, n: nat, id: JobId)
    requires CalledOff(s, id) && n < |s.workers| && s.queue != []
    ensures CalledOff(TakeJob(s, n), id)
  {
    hide NoChildHas;
    UnbegunMove(s.workers, n, s.workers[n].(pc := Got(s.queue[0])), id);
  }

  lemma MarkKeepsOff(s: State, n: nat, id: JobId)
    requires CalledOff(s, id) && n < |s.workers| && s.workers[n].pc.Got?
    ensures CalledOff(MarkJob(s, n), id)
  {
    hide NoChildHas;
  }

  lemma LocalKeepsOff(s: State, n: nat, step: LocalStep, id: JobId)
    requires CalledOff(s, id) && n < |s.workers| && LocalEnabled(s, s.workers[n], step)
    ensures CalledOff(WithWorker(s, n, LocalNext(s, s.workers[n], step)), id)
  {
    hide NoChildHas;
    UnbegunMove(s.workers, n, LocalNext(s, s.workers[n], step), id);
  }

  lemma DropKeepsOff(s: State, n: nat, pc: HostPc, id: JobId)
    requires CalledOff(s, id) && n < |s.workers| && (Hand(pc) == Some(id) ==> pc.Got?)
    ensures CalledOff(DropChild(s, n, pc), id)
  {
    UnbegunMove(s.workers, n, Worker(pc, None, None, None), id);
    if s.workers[n].slot.Some? && s.workers[n].slot.value.child in s.children {
      var c := s.workers[n].slot.value.child;
      NoChildPut(s.children, c, s.children[c].(alive := false), id);
    }
  }

  lemma DecideKeepsOff(s: State, n: nat, id: JobId)
    requires CalledOff(s, id) && n < |s.workers| && s.workers[n].pc.Deciding?
    ensures CalledOff(DecideSpawn(s, n), id)
  {
    hide NoChildHas;
  }

  lemma SpawnKeepsOff(s: State, n: nat, c: ChildId, id: JobId)
    requires CalledOff(s, id) && n < |s.workers| && s.workers[n].pc.Spawning?
    ensures CalledOff(SpawnChild(s, n, c), id)
  {
    var w := s.workers[n];
    NoChildPut(s.children, c, FreshChild(s.epoch), id);
    UnbegunMove(s.workers, n, w.(pc := Shaking(w.pc.id, w.pc.current, c)), id);
  }

  lemma SendKeepsOff(s: State, n: nat, ok: bool, id: JobId)
    requires CalledOff(s, id) && n < |s.workers| && s.workers[n].pc.Sending?
    ensures CalledOff(SendJob(s, n, ok), id)
  {
    hide Break;
    var w := s.workers[n];
    if w.slot.Some? && ok && w.slot.value.child in s.children {
      var c := w.slot.value.child;
      var ch := s.children[c];
      assert Untouched(ch.(inbox := ch.inbox + [JobFrame(w.pc.id)]), id);
      NoChildPut(s.children, c, ch.(inbox := ch.inbox + [JobFrame(w.pc.id)]), id);
      UnbegunMove(s.workers, n, w.(pc := Reading(w.pc.id)), id);
    } else {
      UnbegunMove(s.workers, n, Break(w).(pc := Checking(w.pc.id, Error)), id);
    }
  }

  lemma ReadKeepsOff(s: State, n: nat, readable: bool, id: JobId)
    requires CalledOff(s, id) && n < |s.workers| && CanReadDone(s, s.workers[n])
    ensures CalledOff(TakeDone(s, n, readable), id)
  {
    hide Break;
    var t, c := TakeDone(s, n, readable), s.workers[n].reader.value;
    var ch := s.children[c];
    assert Untouched(ch.(outbox := ch.outbox[1..]), id);
    NoChildPut(s.children, c, ch.(outbox := ch.outbox[1..]), id);
    UnbegunMove(s.workers, n, t.workers[n], id);
  }

  lemma ClaimKeepsOff(s: State, x: JobId, ending: Ending, id: JobId)
    requires CalledOff(s, id)
    ensures CalledOff(ClaimEntry(s, x, ending), id)
  {
    hide NoChildHas, Unbegun;
  }

  lemma AnswerKeepsOff(s: State, n: nat, id: JobId)
    requires CalledOff(s, id) && n < |s.workers| && s.workers[n].pc.Answering?
    ensures CalledOff(AnswerJob(s, n), id)
  {
    hide NoChildHas;
    var w := s.workers[n];
    ClaimKeepsOff(s, w.pc.id, w.pc.out, id);
    UnbegunMove(s.workers, n, w.(pc := Receiving), id);
  }

  lemma HostKeepsOff(s: State, n: nat, step: HostStep, id: JobId)
    requires CalledOff(s, id) && HostEnabled(s, n, step)
    ensures CalledOff(HostApply(s, n, step), id)
  {
    hide CalledOff, TakeJob, MarkJob, DropChild, DecideSpawn, SpawnChild, SendJob, TakeDone, AnswerJob, LocalNext;
    var w := s.workers[n];
    match step
    case Local(local) => LocalKeepsOff(s, n, local, id);
    case Take => TakeKeepsOff(s, n, id);
    case MarkStarted => MarkKeepsOff(s, n, id);
    case DropStale => NotBegun(s, n, id); DropKeepsOff(s, n, Deciding(w.pc.id, w.pc.current), id);
    case Decide => DecideKeepsOff(s, n, id);
    case Spawn(c) => SpawnKeepsOff(s, n, c, id);
    case WriteJob(ok) => SendKeepsOff(s, n, ok, id);
    case ReadDone(readable) => ReadKeepsOff(s, n, readable, id);
    case DropBroken => NotBegun(s, n, id); DropKeepsOff(s, n, Answering(w.pc.id, w.pc.out), id);
    case Answer => AnswerKeepsOff(s, n, id);
  }

  lemma NotBegun(s: State, n: nat, id: JobId)
    requires CalledOff(s, id) && n < |s.workers| && !s.workers[n].pc.Got?
    ensures Hand(s.workers[n].pc) != Some(id)
  {
  }

  lemma SubmitKeepsOff(s: State, step: SubmitStep, id: JobId)
    requires CalledOff(s, id) && SubmitEnabled(s, step)
    ensures CalledOff(SubmitApply(s, step), id)
  {
    hide NoChildHas, Unbegun;
    if step.Refuse? {
      ClaimKeepsOff(s, step.id, Refused, id);
    }
  }

  lemma MarkCancelKeepsOff(s: State, x: JobId, id: JobId)
    requires CalledOff(s, id)
    ensures CalledOff(MarkCancelled(s, x), id)
  {
    hide NoChildHas, Unbegun;
  }

  lemma BreakKeepsOff(s: State, n: nat, id: JobId)
    requires CalledOff(s, id) && n < |s.workers|
    ensures CalledOff(WithWorker(s, n, Break(s.workers[n])), id)
  {
    hide NoChildHas;
    UnbegunMove(s.workers, n, Break(s.workers[n]), id);
  }

  lemma WriteCancelKeepsOff(s: State, ok: bool, id: JobId)
    requires CalledOff(s, id) && s.liveLock.Some?
    ensures CalledOff(SendCancel(s, ok), id)
  {
    var (x, n) := s.liveLock.value;
    var free := s.(liveLock := None);
    if n < |s.workers| && s.workers[n].slot.Some? {
      var c := s.workers[n].slot.value.child;
      if ok && c in s.children {
        assert SendCancel(s, ok) == free.(children := Appended(s.children, c, CancelFrame(x)));
        var ch := s.children[c];
        assert Untouched(ch.(inbox := ch.inbox + [CancelFrame(x)]), id);
        NoChildPut(s.children, c, ch.(inbox := ch.inbox + [CancelFrame(x)]), id);
      } else {
        assert SendCancel(s, ok) == WithWorker(free, n, Break(s.workers[n]));
        BreakKeepsOff(free, n, id);
      }
    } else {
      assert SendCancel(s, ok) == free;
    }
  }

  lemma ReapKeepsOff(s: State, r: nat, step: ReapStep, id: JobId)
    requires CalledOff(s, id) && ReapEnabled(s, r, step)
    ensures CalledOff(ReapApply(s, r, step), id)
  {
    hide Unbegun, NoChildHas, KillWorker, ClaimEntry, TakeSnapshot, PickExpired;
    match step
    case Kill => KillKeepsOff(WithReaper(s, r, s.reapers[r].(phase := Expiring(s.reapers[r].phase.id))), s.reapers[r].phase.n, id);
    case Expire => ClaimKeepsOff(WithReaper(s, r, s.reapers[r].(phase := Choosing)), s.reapers[r].phase.id, Timeout, id);
    case _ =>
  }

  lemma KillKeepsOff(s: State, n: nat, id: JobId)
    requires CalledOff(s, id)
    ensures CalledOff(KillWorker(s, n), id)
  {
    if n < |s.workers| {
      BreakKeepsOff(s, n, id);
    }
  }

  lemma ChildKeepsOff(s: State, c: ChildId, step: ChildStep, id: JobId)
    requires CalledOff(s, id) && c in s.children && ChildEnabled(s.children[c], step)
    ensures CalledOff(Apply(s, ByChild(c, step)), id)
  {
    hide Unbegun;
    assert Untouched(ChildApply(s.children[c], step), id) by { UntouchedStays(s.children[c], step, id); }
    NoChildPut(s.children, c, ChildApply(s.children[c], step), id);
  }

  lemma UntouchedStays(ch: Child, step: ChildStep, id: JobId)
    requires Untouched(ch, id) && ChildEnabled(ch, step)
    ensures Untouched(ChildApply(ch, step), id)
  {
    if step.ReadStdin? {
      assert ch.inbox[0] in ch.inbox;
      assert forall f :: f in ch.inbox[1..] ==> f in ch.inbox;
    }
  }

  lemma StepKeepsOff(s: State, step: Step, id: JobId)
    requires CalledOff(s, id) && Enabled(s, step)
    ensures CalledOff(Apply(s, step), id)
  {
    hide CalledOff, HostApply, SubmitApply, AnswerApply, MarkCancelled, SendCancel, ReapApply, ChildApply;
    match step
    case Tick => OnlyTime(s, id);
    case Recycle => OnlyTime(s, id);
    case BySubmitter(sub) => SubmitKeepsOff(s, sub, id);
    case ByAnswerer(ans) => AnswererKeepsOff(s, ans, id);
    case ByCanceller(Mark(x)) => MarkCancelKeepsOff(s, x, id);
    case ByCanceller(WriteCancel(ok)) => WriteCancelKeepsOff(s, ok, id);
    case ByWatchdog(r, reap) => ReapKeepsOff(s, r, reap, id);
    case ByHost(n, host) => HostKeepsOff(s, n, host, id);
    case ByChild(c, kid) => ChildKeepsOff(s, c, kid, id);
  }

  lemma OnlyTime(s: State, id: JobId)
    requires CalledOff(s, id)
    ensures CalledOff(s.(clock := s.clock + 1), id) && CalledOff(s.(epoch := s.epoch + 1), id)
  {
  }

  lemma AnswererKeepsOff(s: State, step: AnswerStep, id: JobId)
    requires CalledOff(s, id) && AnswerEnabled(s, step)
    ensures CalledOff(AnswerApply(s, step), id)
  {
    hide NoChildHas, Unbegun;
  }

  lemma {:induction false} RunKeepsOff(s: State, steps: seq<Step>, id: JobId)
    requires CalledOff(s, id) && Runs(s, steps)
    ensures CalledOff(After(s, steps), id)
    decreases |steps|
  {
    hide CalledOff, Apply, Enabled;
    if steps != [] {
      StepKeepsOff(s, steps[0], id);
      RunKeepsOff(Apply(s, steps[0]), steps[1..], id);
    }
  }

  /**
   A job whose cancel came while it was still queued is in no child at the end of any continuation: not on a pipe, not
   waiting there, not running, not answered; and no host thread has got further with it than taking it.
   */
  lemma CancelledInQueueNeverRuns(s: State, id: JobId, steps: seq<Step>)
    requires Reachable(s) && LiveFree(s) && id in s.live && id in s.queue
    requires Runs(Apply(s, ByCanceller(Mark(id))), steps)
    ensures var t := After(Apply(s, ByCanceller(Mark(id))), steps);
            NoChildHas(t.children, id) && Unbegun(t.workers, id)
  {
    ReachableInv(s);
    QueuedIsUnbegun(s, id);
    MarkedIsCalledOff(s, id);
    RunKeepsOff(Apply(s, ByCanceller(Mark(id))), steps, id);
  }

  lemma MarkedIsCalledOff(s: State, id: JobId)
    requires id in s.live && id < s.nextId && !Unborn(s.submits, id) && Unbegun(s.workers, id) && NoChildHas(s.children, id)
    ensures CalledOff(MarkCancelled(s, id), id)
  {
    hide Unbegun, NoChildHas;
  }

  lemma QueuedIsUnbegun(s: State, id: JobId)
    requires Inv(s) && id in s.live && id in s.queue
    ensures id < s.nextId && !Unborn(s.submits, id) && Unbegun(s.workers, id) && NoChildHas(s.children, id)
  {
    hide Reasons, Reaping, Conserved, Started, Locked, Epochs, Outcomes;
    assert Stages(s.submits, s.live, s.claims, s.results, id) <= 1;
    forall c | c in s.children ensures Untouched(s.children[c], id) {
      UntakenIsUntouched(s.children[c], s.cancelCalls, s.takenAt, id);
    }
  }

  // ---------------------------------------------------- cancelled while a worker has it

  /** A live job that a host thread has taken up is found by its entry, on that worker. */
  ghost predicate Findable(live: map<JobId, Live>, workers: seq<Worker>) {
    forall n :: 0 <= n < |workers| && Hand(workers[n].pc).Some? && !workers[n].pc.Got? && workers[n].pc.id in live ==>
                  live[workers[n].pc.id].started && live[workers[n].pc.id].worker == Some(n)
  }

  /** Entries go, or keep what they say of their worker; and host threads get no further with a job than they were. */
  ghost predicate Keeps(s: State, t: State) {
    && |t.workers| == |s.workers|
    && (forall n :: 0 <= n < |s.workers| && Hand(t.workers[n].pc).Some? && !t.workers[n].pc.Got? ==>
                      Hand(t.workers[n].pc) == Hand(s.workers[n].pc) && !s.workers[n].pc.Got?)
    && (forall id :: id in t.live && id in s.live ==>
                       t.live[id].started == s.live[id].started && t.live[id].worker == s.live[id].worker)
    && (forall id :: id in t.live && id !in s.live ==> Unborn(s.submits, id))
  }

  /** No job in a hand is still to be inserted. */
  lemma HandIsBorn(s: State, n: nat)
    requires Inv(s) && n < |s.workers| && Hand(s.workers[n].pc).Some?
    ensures !Unborn(s.submits, s.workers[n].pc.id)
  {
    hide Reasons, Reaping, Conserved, ExactlyOnce, Pipes, Known;
    assert Hand(s.workers[n].pc).value in s.takenAt;
  }

  lemma KeepingIsFindable(s: State, t: State)
    requires Inv(s) && Findable(s.live, s.workers) && Keeps(s, t)
    ensures Findable(t.live, t.workers)
  {
    hide Inv;
    forall n | 0 <= n < |t.workers| && Hand(t.workers[n].pc).Some? && !t.workers[n].pc.Got? && t.workers[n].pc.id in t.live
      ensures t.live[t.workers[n].pc.id].started && t.live[t.workers[n].pc.id].worker == Some(n)
    {
      HandIsBorn(s, n);
    }
  }

  lemma MarkIsFindable(s: State, n: nat)
    requires Inv(s) && Findable(s.live, s.workers) && n < |s.workers| && s.workers[n].pc.Got?
    ensures Findable(MarkJob(s, n).live, MarkJob(s, n).workers)
  {
    hide Ledger, Pipes, Known, Epochs, Outcomes, Started, Locked;
    var id, t := s.workers[n].pc.id, MarkJob(s, n);
    forall m | 0 <= m < |t.workers| && Hand(t.workers[m].pc).Some? && !t.workers[m].pc.Got? && t.workers[m].pc.id in t.live
      ensures t.live[t.workers[m].pc.id].started && t.live[t.workers[m].pc.id].worker == Some(m)
    {
      if m != n {
        assert Hand(s.workers[m].pc) != Hand(s.workers[n].pc);
      }
    }
  }

  lemma DropKeeps(s: State, n: nat, pc: HostPc)
    requires n < |s.workers| && Hand(pc) == Hand(s.workers[n].pc) && !s.workers[n].pc.Got?
    ensures Keeps(s, DropChild(s, n, pc))
  {
  }

  lemma SendKeeps(s: State, n: nat, ok: bool)
    requires n < |s.workers| && s.workers[n].pc.Sending?
    ensures Keeps(s, SendJob(s, n, ok))
  {
  }

  lemma ReadKeeps(s: State, n: nat, readable: bool)
    requires n < |s.workers| && CanReadDone(s, s.workers[n])
    ensures Keeps(s, TakeDone(s, n, readable))
  {
  }

  lemma LocalKeeps(s: State, n: nat, step: LocalStep)
    requires n < |s.workers| && LocalEnabled(s, s.workers[n], step)
    ensures Keeps(s, WithWorker(s, n, LocalNext(s, s.workers[n], step)))
  {
    LocalKeepsHand(s, s.workers[n], step);
    hide LocalNext;
  }

  lemma LocalKeepsHand(s: State, w: Worker, step: LocalStep)
    requires LocalEnabled(s, w, step)
    ensures Hand(LocalNext(s, w, step).pc) == Hand(w.pc) && !w.pc.Got?
  {
  }

  lemma DecideKeeps(s: State, n: nat)
    requires n < |s.workers| && s.workers[n].pc.Deciding?
    ensures Keeps(s, DecideSpawn(s, n))
  {
    var w := s.workers[n];
    var pc := if w.reader.None? then Spawning(w.pc.id, w.pc.current) else Sending(w.pc.id);
    assert DecideSpawn(s, n) == s.(workers := s.workers[n := w.(pc := pc)], stats := DecideSpawn(s, n).stats);
  }

  lemma ClaimKeeps(s: State, id: JobId, ending: Ending)
    ensures Keeps(s, ClaimEntry(s, id, ending))
  {
  }

  lemma AnswerKeeps(s: State, n: nat)
    requires n < |s.workers| && s.workers[n].pc.Answering?
    ensures Keeps(s, AnswerJob(s, n))
  {
    ClaimKeeps(s, s.workers[n].pc.id, s.workers[n].pc.out);
  }

  lemma HostKeeps(s: State, n: nat, step: HostStep)
    requires HostEnabled(s, n, step) && !step.MarkStarted?
    ensures Keeps(s, HostApply(s, n, step))
  {
    hide Keeps, DropChild, SendJob, TakeDone, AnswerJob, LocalNext, DecideSpawn, TakeJob, SpawnChild;
    var w := s.workers[n];
    match step
    case Local(local) => LocalKeeps(s, n, local);
    case DropStale => DropKeeps(s, n, Deciding(w.pc.id, w.pc.current));
    case DropBroken => DropKeeps(s, n, Answering(w.pc.id, w.pc.out));
    case WriteJob(ok) => SendKeeps(s, n, ok);
    case ReadDone(readable) => ReadKeeps(s, n, readable);
    case Answer => AnswerKeeps(s, n);
    case Decide => DecideKeeps(s, n);
    case Take => TakeKeeps(s, n);
    case Spawn(c) => SpawnKeeps(s, n, c);
  }

  lemma TakeKeeps(s: State, n: nat)
    requires n < |s.workers| && s.queue != []
    ensures Keeps(s, TakeJob(s, n))
  {
  }

  lemma SpawnKeeps(s: State, n: nat, c: ChildId)
    requires n < |s.workers| && s.workers[n].pc.Spawning?
    ensures Keeps(s, SpawnChild(s, n, c))
  {
  }

  lemma SubmitKeeps(s: State, step: SubmitStep)
    requires Inv(s) && SubmitEnabled(s, step)
    ensures Keeps(s, SubmitApply(s, step))
  {
    hide Inv, ClaimEntry, InsertEntry;
    if step.Refuse? {
      ClaimKeeps(s, step.id, Refused);
    } else if step.Insert? {
      InsertKeeps(s, step.id);
    }
  }

  lemma InsertKeeps(s: State, id: JobId)
    requires Inv(s) && id in s.submits && s.submits[id].Allocated?
    ensures Keeps(s, InsertEntry(s, id))
  {
    assert Stages(s.submits, s.live, s.claims, s.results, id) <= 1;
    hide Inv;
    assert id !in s.live && Unborn(s.submits, id);
  }

  lemma CancelKeeps(s: State, step: CancelStep)
    requires CancelEnabled(s, step)
    ensures Keeps(s, CancelApply(s, step))
  {
    hide MarkCancelled, SendCancel;
    match step
    case Mark(id) => MarkCancelKeeps(s, id);
    case WriteCancel(ok) => WriteCancelKeeps(s, ok);
  }

  lemma MarkCancelKeeps(s: State, id: JobId)
    ensures Keeps(s, MarkCancelled(s, id))
  {
  }

  lemma WriteCancelKeeps(s: State, ok: bool)
    requires s.liveLock.Some?
    ensures Keeps(s, SendCancel(s, ok))
  {
    var (id, n) := s.liveLock.value;
    var free := s.(liveLock := None);
    if n < |s.workers| && s.workers[n].slot.Some? {
      var c := s.workers[n].slot.value.child;
      if ok && c in s.children {
        assert SendCancel(s, ok) == free.(children := Appended(s.children, c, CancelFrame(id)));
      } else {
        assert SendCancel(s, ok) == free.(workers := s.workers[n := Break(s.workers[n])]);
      }
    } else {
      assert SendCancel(s, ok) == free;
    }
  }

  lemma ReapKeeps(s: State, r: nat, step: ReapStep)
    requires ReapEnabled(s, r, step)
    ensures Keeps(s, ReapApply(s, r, step))
  {
    hide ClaimEntry, TakeSnapshot, PickExpired;
    if step.Expire? {
      ClaimKeeps(WithReaper(s, r, s.reapers[r].(phase := Choosing)), s.reapers[r].phase.id, Timeout);
    }
  }

  lemma StepIsFindable(s: State, step: Step)
    requires Inv(s) && Findable(s.live, s.workers) && Enabled(s, step)
    ensures Findable(Apply(s, step).live, Apply(s, step).workers)
  {
    hide Inv, Findable, Keeps, HostApply, SubmitApply, CancelApply, ReapApply, MarkJob;
    if step.ByHost? && step.host.MarkStarted? {
      MarkIsFindable(s, step.n);
      assert Apply(s, step) == MarkJob(s, step.n) by { MarkStartedApplies(s, step.n); }
    } else {
      match step {
        case BySubmitter(sub) => SubmitKeeps(s, sub);
        case ByCanceller(can) => CancelKeeps(s, can);
        case ByWatchdog(r, reap) => ReapKeeps(s, r, reap);
        case ByHost(n, host) => HostKeeps(s, n, host);
        case _ => OthersKeep(s, step);
      }
      KeepingIsFindable(s, Apply(s, step));
    }
  }

  lemma MarkStartedApplies(s: State, n: nat)
    requires HostEnabled(s, n, MarkStarted)
    ensures HostApply(s, n, MarkStarted) == MarkJob(s, n)
  {
  }

  lemma OthersKeep(s: State, step: Step)
    requires Enabled(s, step) && (step.Tick? || step.Recycle? || step.ByAnswerer? || step.ByChild?)
    ensures Keeps(s, Apply(s, step))
  {
    hide CountIn;
  }

  lemma {:induction false} RunIsFindable(s: State, steps: seq<Step>)
    requires Inv(s) && Findable(s.live, s.workers) && Runs(s, steps)
    ensures Findable(After(s, steps).live, After(s, steps).workers)
    decreases |steps|
  {
    hide Inv, Findable, Apply, Enabled;
    if steps != [] {
      StepKeepsInv(s, steps[0]);
      StepIsFindable(s, steps[0]);
      RunIsFindable(Apply(s, steps[0]), steps[1..]);
    }
  }

  lemma ReachableIsFindable(s: State)
    requires Reachable(s)
    ensures Findable(s.live, s.workers)
  {
    var s0, steps :| Init(s0) && Runs(s0, steps) && After(s0, steps) == s;
    InitInv(s0);
    RunIsFindable(s0, steps);
  }

  /**
   A cancel of a live job that a host thread has taken up marks the entry and, if that worker has a child and the
   write succeeds, puts the cancel for that job at the end of that child's pipe; and changes nothing else.
   */
  lemma CancelReachesItsWorker(s: State, n: nat)
    requires Reachable(s) && LiveFree(s) && n < |s.workers| && Hand(s.workers[n].pc).Some? && !s.workers[n].pc.Got?
    requires s.workers[n].pc.id in s.live
    ensures var id := s.workers[n].pc.id;
            var marked := Apply(s, ByCanceller(Mark(id)));
            && marked.live == s.live[id := s.live[id].(cancelled := true)]
            && Enabled(marked, ByCanceller(WriteCancel(true)))
            && var t := Apply(marked, ByCanceller(WriteCancel(true)));
            && LiveFree(t) && t.live == marked.live && t.workers == s.workers
            && (s.workers[n].slot.Some? && s.workers[n].slot.value.child in s.children ==>
                  var c := s.workers[n].slot.value.child;
                  t.children == s.children[c := s.children[c].(inbox := s.children[c].inbox + [CancelFrame(id)])])
  {
    ReachableIsFindable(s);
    PipeIsKnown(s, n);
    var id := s.workers[n].pc.id;
    MarkTakesTheLock(s, n, id);
  }

  /** A slot's child is one that exists. */
  lemma PipeIsKnown(s: State, n: nat)
    requires Reachable(s) && n < |s.workers|
    ensures s.workers[n].slot.Some? ==> s.workers[n].slot.value.child in s.children
  {
    ReachableInv(s);
    assert WorkerPipe(s.workers[n], s.children);
  }

  lemma MarkTakesTheLock(s: State, n: nat, id: JobId)
    requires LiveFree(s) && n < |s.workers| && id in s.live && s.live[id].worker == Some(n)
    requires s.workers[n].slot.Some? ==> s.workers[n].slot.value.child in s.children
    ensures var marked := MarkCancelled(s, id);
            && marked.live == s.live[id := s.live[id].(cancelled := true)] && marked.liveLock == Some((id, n))
            && var t := SendCancel(marked, true);
            && LiveFree(t) && t.live == marked.live && t.workers == s.workers
            && t.children == if s.workers[n].slot.Some? then Appended(s.children, s.workers[n].slot.value.child, CancelFrame(id))
                             else s.children
  {
    var marked := MarkCancelled(s, id);
    assert marked == s.(cancelCalls := s.cancelCalls + {id}, live := s.live[id := s.live[id].(cancelled := true)], liveLock := Some((id, n)));
  }

  /**
   A child that runs a job and reads a cancel can stop the job for it: its Lua thread sees the flag, and may end the
   job as cancelled, which is what it then tells the server.
   */
  lemma CancelCanStop(s: State, c: ChildId)
    requires c in s.children && s.children[c].alive && s.children[c].lua.Running?
    requires s.children[c].inbox != [] && s.children[c].inbox[0].CancelFrame?
    ensures var ch := s.children[c];
            var read, end := ByChild(c, ReadStdin), ByChild(c, EndJob(Cancelled));
            && Enabled(s, read) && Enabled(Apply(s, read), end)
            && var t := Apply(Apply(s, read), end).children[c];
            t.outbox == ch.outbox + [Done(ch.lua.id, Cancelled)] && t.inbox == ch.inbox[1..]
  {
    hide Complete;
    var ch := s.children[c];
    var read := ReadFrame(ch);
    assert read == ch.(inbox := ch.inbox[1..], flag := true);
    var s1 := s.(children := s.children[c := read]);
    assert Apply(s, ByChild(c, ReadStdin)) == s1 && s1.children[c] == read;
    CompleteWrites(read, Cancelled);
    assert Apply(s1, ByChild(c, EndJob(Cancelled))).children[c] == Complete(read, Cancelled);
  }

  lemma CompleteWrites(ch: Child, ending: Ending)
    requires CanFinish(ch, ending)
    ensures Complete(ch, ending).outbox == ch.outbox + [Done(ch.lua.id, ending)] && Complete(ch, ending).inbox == ch.inbox
  {
  }
}
