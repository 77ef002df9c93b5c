/**
 What the pool does when nothing goes wrong: a job at the head of the queue can be run by any idle worker and reported
 with whatever ending its child gives it, in a child of the current epoch, which is kept for the next job.
 */
module ComputeServing {
  import opened Wrappers
  import opened Endings
  import opened ComputeProtocol
  import opened ComputeInvariants
  import opened ComputeTheorems

  /** A step of the usual course: no failure, no death, no cancel and no watchdog. */
  predicate Usual(step: Step) {
    match step
    case ByHost(_, Local(local)) => local.LoadEpoch? || local.Compare? || local.CheckBroken? || (local.Handshake? && local.ok)
    case ByHost(_, WriteJob(ok)) => ok
    case ByHost(_, ReadDone(readable)) => readable
    case ByHost(_, _) => true
    case ByChild(_, kid) => !kid.Die?
    case ByAnswerer(_) => true
    case _ => false
  }

  /** Where a run is to end: the results, the queue, the number of children started, the epoch, and worker `n` idle again. */
  datatype Goal = Goal(n: nat, id: JobId, ending: Ending, results: seq<Done>, queue: seq<JobId>, spawned: nat, epoch: nat)

  /** The worker has a child of this epoch, alive, in a slot that is not marked. */
  predicate HasGoodChild(s: State, w: Worker, epoch: nat) {
    && w.atEpoch == Some(epoch) && w.slot.Some? && !w.slot.value.broken && w.reader == Some(w.slot.value.child)
    && w.reader.value in s.children && s.children[w.reader.value].alive
  }

  predicate Reached(t: State, g: Goal) {
    && t.results == g.results && t.queue == g.queue && t.stats.spawned == g.spawned
    && g.n < |t.workers| && t.workers[g.n].pc == Receiving && HasGoodChild(t, t.workers[g.n], g.epoch) && t.epoch == g.epoch
  }

  ghost predicate Serves(s: State, steps: seq<Step>, g: Goal) {
    && Runs(s, steps) && Reached(After(s, steps), g)
    && forall i :: 0 <= i < |steps| ==> Usual(steps[i])
  }

  lemma StepServes(s: State, step: Step, rest: seq<Step>, g: Goal)
    requires Enabled(s, step) && Usual(step) && Serves(Apply(s, step), rest, g)
    ensures Serves(s, [step] + rest, g)
  {
    hide Apply, Enabled, Usual, Reached;
    assert ([step] + rest)[1..] == rest;
  }

  /** What stays as it is while the job is served: it is live and not reported, and the lock on `live` is free. */
  predicate OnTheWay(s: State, g: Goal) {
    && LiveFree(s) && g.n < |s.workers| && g.id in s.live && s.queue == g.queue && s.epoch == g.epoch
    && s.results + [Done(g.id, g.ending)] == g.results
  }

  // --------------------------------------------------------------- answering, backwards

  lemma SendServes(s: State, g: Goal) returns (steps: seq<Step>)
    requires g.id in s.claims && s.claims[g.id] == Claim(g.ending, true) && s.stats.spawned == g.spawned && s.queue == g.queue
    requires s.results + [Done(g.id, g.ending)] == g.results && g.n < |s.workers| && s.workers[g.n].pc == Receiving
    requires HasGoodChild(s, s.workers[g.n], g.epoch) && s.epoch == g.epoch
    ensures Serves(s, steps, g)
  {
    var step := ByAnswerer(SendResult(g.id));
    assert Reached(Apply(s, step), g);
    assert Serves(Apply(s, step), [], g);
    StepServes(s, step, [], g);
    steps := [step] + [];
  }

  lemma CountServes(s: State, g: Goal) returns (steps: seq<Step>)
    requires g.id in s.claims && s.claims[g.id] == Claim(g.ending, false) && s.stats.spawned == g.spawned && s.queue == g.queue
    requires s.results + [Done(g.id, g.ending)] == g.results && g.n < |s.workers| && s.workers[g.n].pc == Receiving
    requires HasGoodChild(s, s.workers[g.n], g.epoch) && s.epoch == g.epoch
    ensures Serves(s, steps, g)
  {
    hide Serves;
    var step := ByAnswerer(CountEnding(g.id));
    var rest := SendServes(Apply(s, step), g);
    StepServes(s, step, rest, g);
    steps := [step] + rest;
  }

  lemma AnswerServes(s: State, g: Goal) returns (steps: seq<Step>)
    requires OnTheWay(s, g) && s.workers[g.n].pc == Answering(g.id, g.ending) && s.stats.spawned == g.spawned
    requires HasGoodChild(s, s.workers[g.n], g.epoch)
    ensures Serves(s, steps, g)
  {
    hide Serves;
    var step := ByHost(g.n, Answer);
    var rest := CountServes(Apply(s, step), g);
    StepServes(s, step, rest, g);
    steps := [step] + rest;
  }

  lemma CheckServes(s: State, g: Goal) returns (steps: seq<Step>)
    requires OnTheWay(s, g) && s.workers[g.n].pc == Checking(g.id, g.ending) && s.stats.spawned == g.spawned
    requires HasGoodChild(s, s.workers[g.n], g.epoch)
    ensures Serves(s, steps, g)
  {
    hide Serves;
    var step := ByHost(g.n, Local(CheckBroken));
    var rest := AnswerServes(Apply(s, step), g);
    StepServes(s, step, rest, g);
    steps := [step] + rest;
  }

  // ------------------------------------------------------------------- in the child

  /** The worker has this child, and its slot is not marked. */
  predicate HasChild(s: State, g: Goal, c: ChildId) {
    && g.n < |s.workers| && s.workers[g.n].slot == Some(Slot(c, false)) && s.workers[g.n].reader == Some(c)
    && s.workers[g.n].atEpoch == Some(g.epoch) && c in s.children && s.children[c].alive
  }

  predicate Waits(s: State, g: Goal, c: ChildId) {
    OnTheWay(s, g) && HasChild(s, g, c) && s.workers[g.n].pc == Reading(g.id) && s.stats.spawned == g.spawned
  }

  lemma ReadServes(s: State, g: Goal, c: ChildId) returns (steps: seq<Step>)
    requires Waits(s, g, c) && s.children[c].outbox == [Done(g.id, g.ending)]
    ensures Serves(s, steps, g)
  {
    hide Serves;
    var step := ByHost(g.n, ReadDone(true));
    var rest := CheckServes(Apply(s, step), g);
    StepServes(s, step, rest, g);
    steps := [step] + rest;
  }

  /** A step of the child leaves the rest as it was. */
  lemma ChildStepWaits(s: State, g: Goal, c: ChildId, step: ChildStep)
    requires Waits(s, g, c) && ChildEnabled(s.children[c], step) && !step.Die?
    ensures Enabled(s, ByChild(c, step)) && Waits(Apply(s, ByChild(c, step)), g, c)
    ensures Apply(s, ByChild(c, step)).children[c] == ChildApply(s.children[c], step)
  {
  }

  lemma EndServes(s: State, g: Goal, c: ChildId) returns (steps: seq<Step>)
    requires Waits(s, g, c) && s.children[c].lua == Running(g.id) && s.children[c].outbox == []
    requires !g.ending.Refused? && (g.ending.Cancelled? ==> s.children[c].flag)
    ensures Serves(s, steps, g)
  {
    hide Serves, Waits;
    var step := EndJob(g.ending);
    ChildIsAlive(s, g, c);
    ChildStepWaits(s, g, c, step);
    var rest := ReadServes(Apply(s, ByChild(c, step)), g, c);
    StepServes(s, ByChild(c, step), rest, g);
    steps := [ByChild(c, step)] + rest;
  }

  lemma ChildIsAlive(s: State, g: Goal, c: ChildId)
    requires Waits(s, g, c)
    ensures c in s.children && s.children[c].alive
  {
  }

  lemma BeginServes(s: State, g: Goal, c: ChildId) returns (steps: seq<Step>)
    requires Waits(s, g, c) && s.children[c].lua == Fetched(g.id) && s.children[c].outbox == []
    requires !g.ending.Refused? && !g.ending.Cancelled?
    ensures Serves(s, steps, g)
  {
    hide Serves, Waits;
    ChildIsAlive(s, g, c);
    ChildStepWaits(s, g, c, BeginJob);
    var rest := EndServes(Apply(s, ByChild(c, BeginJob)), g, c);
    StepServes(s, ByChild(c, BeginJob), rest, g);
    steps := [ByChild(c, BeginJob)] + rest;
  }

  lemma FetchServes(s: State, g: Goal, c: ChildId) returns (steps: seq<Step>)
    requires Waits(s, g, c) && s.children[c].lua == Idle && s.children[c].channel == [g.id] && s.children[c].outbox == []
    requires !g.ending.Refused? && !g.ending.Cancelled?
    ensures Serves(s, steps, g)
  {
    hide Serves, Waits;
    ChildIsAlive(s, g, c);
    ChildStepWaits(s, g, c, FetchJob);
    var rest := BeginServes(Apply(s, ByChild(c, FetchJob)), g, c);
    StepServes(s, ByChild(c, FetchJob), rest, g);
    steps := [ByChild(c, FetchJob)] + rest;
  }

  lemma NoJobsBehind(fs: seq<Frame>)
    requires NoJobs(fs) && fs != []
    ensures NoJobs(fs[1..])
  {
    var rest := fs[1..];
    assert forall f :: f in rest ==> f in fs;
  }

  /** What was left of cancels for earlier jobs is read first, then the job. */
  lemma {:induction false} StdinServes(s: State, g: Goal, c: ChildId) returns (steps: seq<Step>)
    requires Waits(s, g, c) && s.children[c].lua == Idle && s.children[c].channel == [] && s.children[c].outbox == []
    requires var fs := s.children[c].inbox; fs != [] && fs[|fs| - 1] == JobFrame(g.id) && NoJobs(fs[..|fs| - 1])
    requires !g.ending.Refused? && !g.ending.Cancelled?
    ensures Serves(s, steps, g)
    decreases |s.children[c].inbox|
  {
    hide Serves, Waits;
    ChildIsAlive(s, g, c);
    var fs := s.children[c].inbox;
    ChildStepWaits(s, g, c, ReadStdin);
    var t := Apply(s, ByChild(c, ReadStdin));
    var rest;
    if |fs| == 1 {
      rest := FetchServes(t, g, c);
    } else {
      assert fs[0] == fs[..|fs| - 1][0] && fs[0] in fs[..|fs| - 1];
      assert fs[1..][..|fs| - 2] == fs[..|fs| - 1][1..];
      NoJobsBehind(fs[..|fs| - 1]);
      rest := StdinServes(t, g, c);
    }
    StepServes(s, ByChild(c, ReadStdin), rest, g);
    steps := [ByChild(c, ReadStdin)] + rest;
  }

  // -------------------------------------------------------------- to the child

  lemma WriteServes(s: State, g: Goal, c: ChildId) returns (steps: seq<Step>)
    requires OnTheWay(s, g) && HasChild(s, g, c) && s.workers[g.n].pc == Sending(g.id) && s.stats.spawned == g.spawned
    requires Quiet(s.children[c]) && !g.ending.Refused? && !g.ending.Cancelled?
    ensures Serves(s, steps, g)
  {
    hide Serves;
    var step := ByHost(g.n, WriteJob(true));
    var ch := s.children[c];
    var t := s.(workers := s.workers[g.n := s.workers[g.n].(pc := Reading(g.id))],
    children := s.children[c := ch.(inbox := ch.inbox + [JobFrame(g.id)])]);
    assert Apply(s, step) == t;
    assert (ch.inbox + [JobFrame(g.id)])[..|ch.inbox|] == ch.inbox;
    var rest := StdinServes(t, g, c);
    StepServes(s, step, rest, g);
    steps := [step] + rest;
  }

  /** A number that no child has. */
  lemma FreshChildId(taken: set<ChildId>) returns (c: ChildId)
    ensures c !in taken
  {
    c := 0;
    var rest := taken;
    while rest != {}
      invariant rest <= taken && forall x :: x in taken && x !in rest ==> x < c
      decreases |rest|
    {
      var x :| x in rest;
      c := if x < c then c else x + 1;
      rest := rest - {x};
    }
  }

  lemma HandshakeServes(s: State, g: Goal, c: ChildId) returns (steps: seq<Step>)
    requires OnTheWay(s, g) && s.workers[g.n].pc == Shaking(g.id, g.epoch, c) && s.stats.spawned == g.spawned
    requires c in s.children && s.children[c].alive && Quiet(s.children[c]) && !g.ending.Refused? && !g.ending.Cancelled?
    ensures Serves(s, steps, g)
  {
    hide Serves;
    var step := ByHost(g.n, Local(Handshake(true)));
    var rest := WriteServes(Apply(s, step), g, c);
    StepServes(s, step, rest, g);
    steps := [step] + rest;
  }

  lemma SpawnServes(s: State, g: Goal) returns (steps: seq<Step>)
    requires OnTheWay(s, g) && s.workers[g.n].pc == Spawning(g.id, g.epoch) && s.stats.spawned == g.spawned
    requires !g.ending.Refused? && !g.ending.Cancelled?
    ensures Serves(s, steps, g)
  {
    hide Serves;
    var c := FreshChildId(s.children.Keys);
    var step := ByHost(g.n, Spawn(c));
    var rest := HandshakeServes(Apply(s, step), g, c);
    StepServes(s, step, rest, g);
    steps := [step] + rest;
  }

  /** The worker's child can be used as it is. */
  predicate Usable(s: State, w: Worker) {
    && w.slot.Some? && !w.slot.value.broken && w.reader == Some(w.slot.value.child)
    && w.reader.value in s.children && s.children[w.reader.value].alive && Quiet(s.children[w.reader.value])
  }

  lemma DecideServes(s: State, g: Goal) returns (steps: seq<Step>)
    requires OnTheWay(s, g) && s.workers[g.n].pc == Deciding(g.id, g.epoch)
    requires s.workers[g.n].reader.Some? ==> Usable(s, s.workers[g.n]) && s.workers[g.n].atEpoch == Some(g.epoch)
    requires g.spawned == s.stats.spawned + if s.workers[g.n].reader.None? then 1 else 0
    requires !g.ending.Refused? && !g.ending.Cancelled?
    ensures Serves(s, steps, g)
  {
    hide Serves;
    var w, step := s.workers[g.n], ByHost(g.n, Decide);
    var rest;
    if w.reader.None? {
      var t := s.(workers := s.workers[g.n := w.(pc := Spawning(g.id, g.epoch))],
      stats := s.stats.(spawned := s.stats.spawned + 1));
      assert Apply(s, step) == t;
      rest := SpawnServes(t, g);
    } else {
      var t := s.(workers := s.workers[g.n := w.(pc := Sending(g.id))]);
      assert Apply(s, step) == t;
      rest := WriteServes(t, g, w.reader.value);
    }
    StepServes(s, step, rest, g);
    steps := [step] + rest;
  }

  lemma StaleServes(s: State, g: Goal) returns (steps: seq<Step>)
    requires OnTheWay(s, g) && s.workers[g.n].pc == Stale(g.id, g.epoch) && g.spawned == s.stats.spawned + 1
    requires !g.ending.Refused? && !g.ending.Cancelled?
    ensures Serves(s, steps, g)
  {
    hide Serves;
    var step := ByHost(g.n, DropStale);
    var rest := DecideServes(Apply(s, step), g);
    StepServes(s, step, rest, g);
    steps := [step] + rest;
  }

  /** The worker has a child of the current epoch. */
  predicate Current(s: State, w: Worker) {
    w.atEpoch == Some(s.epoch) && w.slot.Some?
  }

  lemma CompareServes(s: State, g: Goal) returns (steps: seq<Step>)
    requires OnTheWay(s, g) && s.workers[g.n].pc == Loaded(g.id, s.epoch)
    requires Current(s, s.workers[g.n]) ==> Usable(s, s.workers[g.n])
    requires g.spawned == s.stats.spawned + if Current(s, s.workers[g.n]) then 0 else 1
    requires !g.ending.Refused? && !g.ending.Cancelled?
    ensures Serves(s, steps, g)
  {
    hide Serves, Quiet;
    var step := ByHost(g.n, Local(Compare));
    var rest;
    if Current(s, s.workers[g.n]) {
      rest := DecideServes(Apply(s, step), g);
    } else {
      rest := StaleServes(Apply(s, step), g);
    }
    StepServes(s, step, rest, g);
    steps := [step] + rest;
  }

  lemma LoadServes(s: State, g: Goal) returns (steps: seq<Step>)
    requires OnTheWay(s, g) && s.workers[g.n].pc == Wanted(g.id)
    requires Current(s, s.workers[g.n]) ==> Usable(s, s.workers[g.n])
    requires g.spawned == s.stats.spawned + if Current(s, s.workers[g.n]) then 0 else 1
    requires !g.ending.Refused? && !g.ending.Cancelled?
    ensures Serves(s, steps, g)
  {
    hide Serves, Quiet;
    var step := ByHost(g.n, Local(LoadEpoch));
    var rest := CompareServes(Apply(s, step), g);
    StepServes(s, step, rest, g);
    steps := [step] + rest;
  }

  lemma MarkServes(s: State, g: Goal) returns (steps: seq<Step>)
    requires OnTheWay(s, g) && s.workers[g.n].pc == Got(g.id) && !s.live[g.id].cancelled
    requires Current(s, s.workers[g.n]) ==> Usable(s, s.workers[g.n])
    requires g.spawned == s.stats.spawned + if Current(s, s.workers[g.n]) then 0 else 1
    requires !g.ending.Refused? && !g.ending.Cancelled?
    ensures Serves(s, steps, g)
  {
    hide Serves, Quiet;
    var step := ByHost(g.n, MarkStarted);
    var t := s.(workers := s.workers[g.n := s.workers[g.n].(pc := Wanted(g.id))],
    live := s.live[g.id := s.live[g.id].(started := true, worker := Some(g.n))]);
    assert Apply(s, step) == t;
    var rest := LoadServes(t, g);
    StepServes(s, step, rest, g);
    steps := [step] + rest;
  }

  // ------------------------------------------------------------------ the theorem

  /**
   In every reachable state: an idle worker can take the job at the head of the queue, if it is live and not
   cancelled, and report it with any ending a child can give, by steps of the usual course alone; then it is idle
   again. It starts a child exactly if it has none of the current epoch, and keeps the one it has otherwise.
   */
  lemma JobIsServed(s: State, n: nat, ending: Ending) returns (steps: seq<Step>)
    requires Reachable(s) && LiveFree(s) && n < |s.workers| && s.workers[n].pc == Receiving
    requires s.queue != [] && s.queue[0] in s.live && !s.live[s.queue[0]].cancelled
    requires !ending.Refused? && !ending.Cancelled?
    requires Current(s, s.workers[n]) ==>
               !s.workers[n].slot.value.broken && s.workers[n].reader.Some? && s.workers[n].reader.value in s.children
               && s.children[s.workers[n].reader.value].alive
    ensures Runs(s, steps) && forall i :: 0 <= i < |steps| ==> Usual(steps[i])
    ensures var t := After(s, steps);
            && t.results == s.results + [Done(s.queue[0], ending)] && t.queue == s.queue[1..]
            && n < |t.workers| && t.workers[n].pc == Receiving
            && t.stats.spawned == s.stats.spawned + (if Current(s, s.workers[n]) then 0 else 1)
            && t.epoch == s.epoch && HasGoodChild(t, t.workers[n], s.epoch)
  {
    IdleIsUsable(s, n);
    hide Quiet;
    var id, step := s.queue[0], ByHost(n, Take);
    var g := Goal(n, id, ending, s.results + [Done(id, ending)], s.queue[1..],
                  s.stats.spawned + (if Current(s, s.workers[n]) then 0 else 1), s.epoch);
    var t := s.(workers := s.workers[n := s.workers[n].(pc := Got(id))], queue := s.queue[1..], takenAt := s.takenAt[id := s.epoch]);
    assert Apply(s, step) == t;
    var rest := MarkServes(t, g);
    StepServes(s, step, rest, g);
    steps := [step] + rest;
  }

  lemma IdleIsUsable(s: State, n: nat)
    requires Reachable(s) && n < |s.workers| && s.workers[n].pc == Receiving
    ensures s.workers[n].slot.Some? ==>
              var w := s.workers[n];
              w.reader == Some(w.slot.value.child) && w.reader.value in s.children && Quiet(s.children[w.reader.value])
  {
    ReachableInv(s);
    assert WorkerPipe(s.workers[n], s.children);
  }

  /** A child that is dropped is killed. */
  lemma DroppingKills(s: State, n: nat, step: HostStep)
    requires Reachable(s) && HostEnabled(s, n, step) && (step == DropStale || step == DropBroken) && s.workers[n].slot.Some?
    ensures var (c, t) := (s.workers[n].slot.value.child, HostApply(s, n, step));
            && c in t.children && !t.children[c].alive
            && n < |t.workers| && t.workers[n].slot.None? && t.workers[n].reader.None? && t.workers[n].atEpoch.None?
  {
    ReachableInv(s);
    assert WorkerPipe(s.workers[n], s.children);
  }

  // ------------------------------------------------------- a worker that was lost

  /** The steps in which a host thread loses its worker: it cannot write, or reads no readable answer. */
  predicate Loses(step: HostStep) {
    step == WriteJob(false) || step == Local(ReadFails) || step == ReadDone(false)
  }

  /** The child is dropped, or the worker is about to drop it: its slot is marked and it looks at it next. */
  ghost predicate OnTheWayOut(s: State, n: nat, c: ChildId) {
    || Orphan(s.workers, c)
    || (n < |s.workers| && s.workers[n].slot == Some(Slot(c, true)) && (s.workers[n].pc.Checking? || s.workers[n].pc.Shutting?))
  }

  /** Losing a worker marks its slot. */
  lemma LosingMarks(s: State, n: nat, step: HostStep)
    requires Inv(s) && HostEnabled(s, n, step) && Loses(step)
    ensures s.workers[n].slot.Some?
    ensures var t := HostApply(s, n, step);
            && n < |t.workers| && t.workers[n].slot == Some(Slot(s.workers[n].slot.value.child, true))
            && t.workers[n].pc == Checking(s.workers[n].pc.id, Error)
  {
    hide Ledger, Hands, Known, Epochs, Outcomes, Started, Locked, Carrying;
    assert WorkerPipe(s.workers[n], s.children);
  }

  lemma OthersStay(s: State, m: nat, step: HostStep, n: nat)
    requires HostEnabled(s, m, step) && n < |s.workers| && n != m
    ensures var t := HostApply(s, m, step); |t.workers| == |s.workers| && t.workers[n] == s.workers[n]
  {
    hide Break, LocalNext, ClaimEntry;
    match step
    case WriteJob(ok) => SendMovesOne(s, m, ok);
    case ReadDone(readable) => ReadMovesOne(s, m, readable);
    case DropStale => DropMovesOne(s, m, Deciding(s.workers[m].pc.id, s.workers[m].pc.current));
    case DropBroken => DropMovesOne(s, m, Answering(s.workers[m].pc.id, s.workers[m].pc.out));
    case Answer => ClaimMovesNone(s, s.workers[m].pc.id, s.workers[m].pc.out);
    case _ =>
  }

  lemma SendMovesOne(s: State, m: nat, ok: bool)
    requires m < |s.workers| && s.workers[m].pc.Sending?
    ensures var t := SendJob(s, m, ok); |t.workers| == |s.workers| && t.workers == s.workers[m := t.workers[m]]
  {
  }

  lemma ReadMovesOne(s: State, m: nat, readable: bool)
    requires m < |s.workers| && CanReadDone(s, s.workers[m])
    ensures var t := TakeDone(s, m, readable); |t.workers| == |s.workers| && t.workers == s.workers[m := t.workers[m]]
  {
  }

  lemma DropMovesOne(s: State, m: nat, pc: HostPc)
    requires m < |s.workers|
    ensures DropChild(s, m, pc).workers == s.workers[m := Worker(pc, None, None, None)]
  {
  }

  lemma ClaimMovesNone(s: State, id: JobId, ending: Ending)
    ensures ClaimEntry(s, id, ending).workers == s.workers
  {
  }

  /** A marked slot stays marked until its host thread drops the child. */
  lemma StaysOut(s: State, n: nat, c: ChildId, step: Step)
    requires Inv(s) && Enabled(s, step) && c in s.children && OnTheWayOut(s, n, c)
    ensures c in Apply(s, step).children && OnTheWayOut(Apply(s, step), n, c)
  {
    hide Inv, HostApply, SubmitApply, AnswerApply, ReapApply, CancelApply, HostEnabled;
    LaterStep(s, step);
    if !Orphan(s.workers, c) {
      match step {
        case ByHost(m, host) =>
          if m == n {
            OwnStepDrops(s, n, c, host);
          } else {
            OthersStay(s, m, host, n);
          }
        case ByCanceller(can) => CancelKeepsMarked(s, n, c, can);
        case ByWatchdog(r, reap) => ReapKeepsMarked(s, n, c, reap, r);
        case BySubmitter(sub) => SubmitKeepsWorkers(s, sub);
        case ByAnswerer(ans) => AnswerKeepsWorkers(s, ans);
        case _ =>
      }
    }
  }

  /** The host thread itself looks at the slot, and then drops the child. */
  lemma OwnStepDrops(s: State, n: nat, c: ChildId, step: HostStep)
    requires Inv(s) && HostEnabled(s, n, step) && s.workers[n].slot == Some(Slot(c, true))
    requires s.workers[n].pc.Checking? || s.workers[n].pc.Shutting?
    ensures OnTheWayOut(HostApply(s, n, step), n, c)
  {
    hide Ledger, Hands, Known, Epochs, Outcomes, Started, Locked, Carrying, Quiet;
    var w, t := s.workers[n], HostApply(s, n, step);
    assert WorkerPipe(w, s.children);
    if w.pc.Shutting? {
      assert Attached(w) == Some(c);
      forall m | 0 <= m < |t.workers| ensures Attached(t.workers[m]) != Some(c) {
        assert m != n ==> t.workers[m] == s.workers[m];
      }
    }
  }

  lemma CancelKeepsMarked(s: State, n: nat, c: ChildId, step: CancelStep)
    requires CancelEnabled(s, step) && n < |s.workers| && s.workers[n].slot == Some(Slot(c, true))
    ensures var t := CancelApply(s, step); n < |t.workers| && t.workers[n] == s.workers[n]
  {
    if step.WriteCancel? {
      WriteKeepsMarked(s, n, c, step.ok);
    }
  }

  lemma WriteKeepsMarked(s: State, n: nat, c: ChildId, ok: bool)
    requires s.liveLock.Some? && n < |s.workers| && s.workers[n].slot == Some(Slot(c, true))
    ensures var t := SendCancel(s, ok); n < |t.workers| && t.workers[n] == s.workers[n]
  {
    var (id, m) := s.liveLock.value;
    var free := s.(liveLock := None);
    if m < |s.workers| && s.workers[m].slot.Some? {
      var d := s.workers[m].slot.value.child;
      if ok && d in s.children {
        assert SendCancel(s, ok) == free.(children := Appended(s.children, d, CancelFrame(id)));
      } else {
        assert SendCancel(s, ok) == free.(workers := s.workers[m := Break(s.workers[m])]);
        assert m == n ==> Break(s.workers[m]) == s.workers[m];
      }
    } else {
      assert SendCancel(s, ok) == free;
    }
  }

  lemma ReapKeepsMarked(s: State, n: nat, c: ChildId, step: ReapStep, r: nat)
    requires ReapEnabled(s, r, step) && n < |s.workers| && s.workers[n].slot == Some(Slot(c, true))
    ensures var t := ReapApply(s, r, step); n < |t.workers| && t.workers[n] == s.workers[n]
  {
    hide ClaimEntry, TakeSnapshot, PickExpired;
    if step.Expire? {
      ClaimMovesNone(WithReaper(s, r, s.reapers[r].(phase := Choosing)), s.reapers[r].phase.id, Timeout);
    }
  }

  lemma SubmitKeepsWorkers(s: State, step: SubmitStep)
    requires SubmitEnabled(s, step)
    ensures SubmitApply(s, step).workers == s.workers
  {
    hide ClaimEntry;
    if step.Refuse? {
      ClaimMovesNone(s, step.id, Refused);
    }
  }

  lemma AnswerKeepsWorkers(s: State, step: AnswerStep)
    requires AnswerEnabled(s, step)
    ensures AnswerApply(s, step).workers == s.workers
  {
  }

  lemma {:induction false} RunStaysOut(s: State, n: nat, c: ChildId, steps: seq<Step>)
    requires Inv(s) && Runs(s, steps) && c in s.children && OnTheWayOut(s, n, c)
    ensures OnTheWayOut(After(s, steps), n, c)
    decreases |steps|
  {
    hide Inv, OnTheWayOut, Apply, Enabled;
    if steps != [] {
      StepKeepsInv(s, steps[0]);
      StaysOut(s, n, c, steps[0]);
      RunStaysOut(Apply(s, steps[0]), n, c, steps[1..]);
    }
  }

  /**
   A worker that was lost is never used again: in every continuation its child is dropped, or its host thread is still
   looking at the slot, which is marked. So no later job of that worker, or of any other, is sent to that child.
   */
  lemma LostWorkerIsDropped(s: State, n: nat, step: HostStep, steps: seq<Step>)
    requires Reachable(s) && HostEnabled(s, n, step) && Loses(step)
    requires Runs(Apply(s, ByHost(n, step)), steps)
    ensures s.workers[n].slot.Some?
    ensures var t := After(Apply(s, ByHost(n, step)), steps);
            var c := s.workers[n].slot.value.child;
            Orphan(t.workers, c) || (n < |t.workers| && t.workers[n].slot == Some(Slot(c, true))
                                     && (t.workers[n].pc.Checking? || t.workers[n].pc.Shutting?))
  {
    ReachableInv(s);
    LosingMarks(s, n, step);
    StepKeepsInv(s, ByHost(n, step));
    hide Inv, HostApply;
    var c := s.workers[n].slot.value.child;
    LostChildStays(s, n, step);
    RunStaysOut(Apply(s, ByHost(n, step)), n, c, steps);
  }

  lemma LostChildStays(s: State, n: nat, step: HostStep)
    requires Inv(s) && HostEnabled(s, n, step) && Loses(step)
    ensures s.workers[n].slot.Some? && s.workers[n].slot.value.child in HostApply(s, n, step).children
  {
    hide Ledger, Hands, Known, Epochs, Outcomes, Started, Locked, Carrying, Quiet;
    assert WorkerPipe(s.workers[n], s.children);
  }
}
