/**
 Where a reported ending comes from. A history beside the run remembers how a child ended each job and what
 befell the jobs that got no answer; every claim and every result is one of these.
 */
module ComputeOutcomes {
  import opened Wrappers
  import opened Endings
  import opened ComputeProtocol
  import opened ComputeInvariants

  /**
   What is remembered of a run: the ending with which a child ended each job, and the jobs a watchdog claimed,
   the queue refused, no worker could be started for, or whose worker was lost before it answered.
   */
  datatype History = History(
    ended: map<JobId, Ending>, expired: set<JobId>, refused: set<JobId>, unstarted: set<JobId>, lost: set<JobId>)

  const NOTHING: History := History(map[], {}, {}, {}, {})

  /** What a step adds to it, told from the state before the step alone. */
  function Note(h: History, s: State, step: Step): History
    requires Enabled(s, step)
  {
    match step
    case ByChild(c, EndJob(ending)) => h.(ended := h.ended[s.children[c].lua.id := ending])
    case ByWatchdog(r, Expire) => h.(expired := h.expired + {s.reapers[r].phase.id})
    case BySubmitter(Refuse(id)) => h.(refused := h.refused + {id})
    case ByHost(n, Local(SpawnFails)) => h.(unstarted := h.unstarted + {s.workers[n].pc.id})
    case ByHost(n, Local(Handshake(false))) => h.(unstarted := h.unstarted + {s.workers[n].pc.id})
    case ByHost(n, WriteJob(false)) => h.(lost := h.lost + {s.workers[n].pc.id})
    case ByHost(n, Local(ReadFails)) => h.(lost := h.lost + {s.workers[n].pc.id})
    case ByHost(n, ReadDone(false)) => h.(lost := h.lost + {s.workers[n].pc.id})
    case _ => h
  }

  /** What is remembered at the end of a run. */
  ghost function Recalled(h: History, s: State, steps: seq<Step>): History
    requires Runs(s, steps)
    decreases |steps|
  {
    if steps == [] then h else Recalled(Note(h, s, steps[0]), Apply(s, steps[0]), steps[1..])
  }

  /** How a host thread came to the ending it is about to report. */
  predicate HostOrigin(h: History, id: JobId, ending: Ending) {
    || (id in h.ended && h.ended[id] == ending)
    || (ending == LoadError && id in h.unstarted)
    || (ending == Error && id in h.lost)
  }

  /** Where a reported ending comes from. */
  predicate Origin(h: History, id: JobId, ending: Ending) {
    || HostOrigin(h, id, ending)
    || (ending == Timeout && id in h.expired)
    || (ending == Refused && id in h.refused)
  }

  // --------------------------------------------------------------- the invariant

  /** A job that was taken and has not been sent to a child. */
  predicate Unsent(pc: HostPc) {
    || pc.Got? || pc.Wanted? || pc.Loaded? || pc.Stale? || pc.Deciding? || pc.Spawning? || pc.Shaking? || pc.Sending?
  }

  predicate HasOutcome(pc: HostPc) {
    pc.Checking? || pc.Shutting? || pc.Answering?
  }

  ghost predicate OutboxOk(h: History, ch: Child) {
    forall d :: d in ch.outbox ==> d.id in h.ended && h.ended[d.id] == d.ending
  }

  ghost predicate WorkerOk(h: History, w: Worker, children: map<ChildId, Child>) {
    && (Unsent(w.pc) ==> w.pc.id !in h.ended)
    && (w.pc.Reading? && w.reader.Some? && w.reader.value in children && children[w.reader.value].outbox == [] ==>
          w.pc.id !in h.ended)
    && (HasOutcome(w.pc) ==> HostOrigin(h, w.pc.id, w.pc.out))
  }

  ghost predicate ChildrenOk(h: History, children: map<ChildId, Child>) {
    forall c :: c in children ==> OutboxOk(h, children[c])
  }

  ghost predicate WorkersOk(h: History, workers: seq<Worker>, children: map<ChildId, Child>) {
    forall n :: 0 <= n < |workers| ==> WorkerOk(h, workers[n], children)
  }

  ghost predicate EndedTaken(h: History, takenAt: map<JobId, nat>) {
    forall id :: id in h.ended ==> id in takenAt
  }

  ghost predicate ReportsOk(h: History, claims: map<JobId, Claim>, results: seq<Done>) {
    && (forall id :: id in claims ==> Origin(h, id, claims[id].ending))
    && (forall i :: 0 <= i < |results| ==> Origin(h, results[i].id, results[i].ending))
  }

  ghost predicate Told(h: History, s: State) {
    && ChildrenOk(h, s.children) && WorkersOk(h, s.workers, s.children)
    && EndedTaken(h, s.takenAt) && ReportsOk(h, s.claims, s.results)
  }

  // ------------------------------------------------------------- one step at a time

  /** More may be remembered; what a child ended stays as it was. */
  ghost predicate Grows(h: History, h': History) {
    && (forall id :: id in h.ended ==> id in h'.ended && h'.ended[id] == h.ended[id])
    && h.expired <= h'.expired && h.refused <= h'.refused && h.unstarted <= h'.unstarted && h.lost <= h'.lost
  }

  lemma ReportsGrow(h: History, h': History, claims: map<JobId, Claim>, results: seq<Done>)
    requires ReportsOk(h, claims, results) && Grows(h, h')
    ensures ReportsOk(h', claims, results)
  {
  }

  /** Each worker reads from a child of its own. */
  ghost predicate ReadersApart(workers: seq<Worker>, children: map<ChildId, Child>) {
    && (forall m :: 0 <= m < |workers| && workers[m].reader.Some? ==> workers[m].reader.value in children)
    && (forall m, n :: 0 <= m < |workers| && 0 <= n < |workers| && m != n && workers[m].reader.Some? ==>
                         workers[m].reader != workers[n].reader)
  }

  lemma PipesAreApart(s: State)
    requires Inv(s)
    ensures ReadersApart(s.workers, s.children)
  {
    forall m | 0 <= m < |s.workers| && s.workers[m].reader.Some?
      ensures s.workers[m].reader.value in s.children && Attached(s.workers[m]) == s.workers[m].reader
    {
      assert WorkerPipe(s.workers[m], s.children);
    }
    forall m, n | 0 <= m < |s.workers| && 0 <= n < |s.workers| && m != n && s.workers[m].reader.Some?
      ensures s.workers[m].reader != s.workers[n].reader
    {
      assert Attached(s.workers[m]) == s.workers[m].reader;
      assert s.workers[n].reader.Some? ==> Attached(s.workers[n]) == s.workers[n].reader;
    }
  }

  /** Nothing was written to the server but by the child that worker `n` reads from. */
  ghost predicate OthersSilent(s: State, n: nat, children: map<ChildId, Child>)
    requires n < |s.workers|
  {
    forall c :: c in s.children && Some(c) != s.workers[n].reader ==>
                  c in children && children[c].outbox == s.children[c].outbox
  }

  /** A step that moves one worker. */
  lemma MoveIsTold(h: History, h': History, s: State, t: State, n: nat)
    requires Inv(s) && Told(h, s) && Grows(h, h') && h'.ended == h.ended
    requires n < |s.workers| && |t.workers| == |s.workers| && t.workers == s.workers[n := t.workers[n]]
    requires WorkerOk(h', t.workers[n], t.children) && OthersSilent(s, n, t.children) && ChildrenOk(h', t.children)
    requires EndedTaken(h', t.takenAt) && ReportsOk(h', t.claims, t.results)
    ensures Told(h', t)
  {
    hide Inv, Origin, OutboxOk;
    PipesAreApart(s);
    forall m | 0 <= m < |s.workers| ensures WorkerOk(h', t.workers[m], t.children) {
      assert WorkerOk(h, s.workers[m], s.children);
    }
  }

  /** The children, if none has written. */
  lemma SilentIsTold(h: History, h': History, s: State, n: nat, children: map<ChildId, Child>)
    requires ChildrenOk(h, s.children) && h'.ended == h.ended && n < |s.workers| && s.children.Keys <= children.Keys
    requires forall c :: c in children ==> if c in s.children then children[c].outbox == s.children[c].outbox else children[c].outbox == []
    ensures ChildrenOk(h', children) && OthersSilent(s, n, children)
  {
    forall c | c in children ensures OutboxOk(h', children[c]) {
      assert c in s.children ==> OutboxOk(h, s.children[c]);
    }
  }

  lemma HandIsTold(s: State, h: History, n: nat)
    requires Told(h, s) && n < |s.workers|
    ensures WorkerOk(h, s.workers[n], s.children)
  {
  }

  lemma TakeIsTold(s: State, h: History, n: nat)
    requires Inv(s) && Told(h, s) && HostEnabled(s, n, Take)
    ensures Told(h, TakeJob(s, n))
  {
    assert s.queue[0] !in s.takenAt;
    hide Inv, ReportsOk;
    SilentIsTold(h, h, s, n, s.children);
    MoveIsTold(h, h, s, TakeJob(s, n), n);
  }

  lemma MarkEffect(s: State, n: nat)
    requires n < |s.workers| && s.workers[n].pc.Got?
    ensures var (t, w) := (MarkJob(s, n), s.workers[n]);
            && t == s.(workers := t.workers, live := t.live) && |t.workers| == |s.workers|
            && t.workers == s.workers[n := t.workers[n]]
            && (t.workers[n] == w.(pc := Receiving) || t.workers[n] == w.(pc := Wanted(w.pc.id)))
  {
  }

  lemma MarkIsTold(s: State, h: History, n: nat)
    requires Inv(s) && Told(h, s) && HostEnabled(s, n, MarkStarted)
    ensures Told(h, MarkJob(s, n))
  {
    hide Inv, ReportsOk, HostOrigin, MarkJob;
    var t := MarkJob(s, n);
    MarkEffect(s, n);
    HandIsTold(s, h, n);
    SilentIsTold(h, h, s, n, s.children);
    MoveIsTold(h, h, s, t, n);
  }

  lemma LocalWorkerIsTold(s: State, h: History, n: nat, step: LocalStep)
    requires n < |s.workers| && LocalEnabled(s, s.workers[n], step) && WorkerOk(h, s.workers[n], s.children)
    ensures WorkerOk(Note(h, s, ByHost(n, Local(step))), LocalNext(s, s.workers[n], step), s.children)
    ensures Grows(h, Note(h, s, ByHost(n, Local(step)))) && Note(h, s, ByHost(n, Local(step))).ended == h.ended
  {
  }

  lemma LocalIsTold(s: State, h: History, n: nat, step: LocalStep)
    requires Inv(s) && Told(h, s) && HostEnabled(s, n, Local(step))
    ensures var h' := Note(h, s, ByHost(n, Local(step)));
            Told(h', WithWorker(s, n, LocalNext(s, s.workers[n], step)))
  {
    hide Inv, ReportsOk, Note, LocalNext, Grows, WorkerOk;
    var h' := Note(h, s, ByHost(n, Local(step)));
    HandIsTold(s, h, n);
    LocalWorkerIsTold(s, h, n, step);
    SilentIsTold(h, h', s, n, s.children);
    ReportsGrow(h, h', s.claims, s.results);
    MoveIsTold(h, h', s, WithWorker(s, n, LocalNext(s, s.workers[n], step)), n);
  }

  lemma DropEffect(s: State, n: nat, pc: HostPc)
    requires n < |s.workers|
    ensures DropChild(s, n, pc)
         == s.(workers := s.workers[n := Worker(pc, None, None, None)],
            children := if s.workers[n].slot.Some? then Killed(s.children, s.workers[n].slot.value.child) else s.children)
  {
  }

  lemma DropIsTold(s: State, h: History, n: nat, pc: HostPc)
    requires Inv(s) && Told(h, s) && n < |s.workers|
    requires (Unsent(pc) ==> pc.id !in h.ended) && !pc.Reading? && (HasOutcome(pc) ==> HostOrigin(h, pc.id, pc.out))
    ensures Told(h, DropChild(s, n, pc))
  {
    hide Inv, ReportsOk, HostOrigin, DropChild;
    var children' := if s.workers[n].slot.Some? then Killed(s.children, s.workers[n].slot.value.child) else s.children;
    var t := s.(workers := s.workers[n := Worker(pc, None, None, None)], children := children');
    DropEffect(s, n, pc);
    SilentIsTold(h, h, s, n, children');
    MoveIsTold(h, h, s, t, n);
  }

  lemma DecideEffect(s: State, n: nat)
    requires n < |s.workers| && s.workers[n].pc.Deciding?
    ensures var (t, w) := (DecideSpawn(s, n), s.workers[n]);
            && t == s.(workers := t.workers, stats := t.stats) && |t.workers| == |s.workers|
            && t.workers == s.workers[n := t.workers[n]]
            && t.workers[n] == w.(pc := if w.reader.None? then Spawning(w.pc.id, w.pc.current) else Sending(w.pc.id))
  {
  }

  lemma DecideIsTold(s: State, h: History, n: nat)
    requires Inv(s) && Told(h, s) && HostEnabled(s, n, Decide)
    ensures Told(h, DecideSpawn(s, n))
  {
    hide Inv, ReportsOk, HostOrigin, DecideSpawn;
    var t := DecideSpawn(s, n);
    DecideEffect(s, n);
    HandIsTold(s, h, n);
    SilentIsTold(h, h, s, n, s.children);
    MoveIsTold(h, h, s, t, n);
  }

  lemma SpawnIsTold(s: State, h: History, n: nat, c: ChildId)
    requires Inv(s) && Told(h, s) && HostEnabled(s, n, Spawn(c))
    ensures Told(h, SpawnChild(s, n, c))
  {
    hide Inv, ReportsOk, HostOrigin;
    HandIsTold(s, h, n);
    SilentIsTold(h, h, s, n, SpawnChild(s, n, c).children);
    MoveIsTold(h, h, s, SpawnChild(s, n, c), n);
  }

  /** A host thread that sends has a child to send to. */
  lemma SendingHasAChild(s: State, n: nat)
    requires Inv(s) && n < |s.workers| && (s.workers[n].pc.Sending? || s.workers[n].pc.Reading?)
    ensures s.workers[n].slot.Some? && s.workers[n].reader == Some(s.workers[n].slot.value.child)
    ensures s.workers[n].slot.value.child in s.children
  {
    assert WorkerPipe(s.workers[n], s.children);
  }

  lemma SendEffect(s: State, n: nat, ok: bool)
    requires n < |s.workers| && s.workers[n].pc.Sending? && s.workers[n].slot.Some? && s.workers[n].slot.value.child in s.children
    ensures var (w, t) := (s.workers[n], SendJob(s, n, ok));
            && (ok ==> t == s.(workers := s.workers[n := w.(pc := Reading(w.pc.id))],
                            children := Appended(s.children, w.slot.value.child, JobFrame(w.pc.id))))
            && (!ok ==> t == s.(workers := s.workers[n := Break(w).(pc := Checking(w.pc.id, Error))]))
  {
  }

  lemma WriteJobIsTold(s: State, h: History, n: nat, ok: bool)
    requires Inv(s) && Told(h, s) && HostEnabled(s, n, WriteJob(ok))
    ensures var h' := Note(h, s, ByHost(n, WriteJob(ok))); Told(h', SendJob(s, n, ok))
  {
    SendingHasAChild(s, n);
    hide Inv, ReportsOk, SendJob, WorkerOk, Told, Break, Appended;
    SendEffect(s, n, ok);
    if ok {
      SentIsTold(s, h, n, s.workers[n]);
    } else {
      LostIsTold(s, h, n, s.workers[n]);
    }
  }

  /** A job sent to a child. */
  lemma SentIsTold(s: State, h: History, n: nat, w: Worker)
    requires Inv(s) && Told(h, s) && n < |s.workers| && w == s.workers[n] && w.pc.Sending?
    requires w.slot.Some? && w.slot.value.child in s.children
    ensures Told(h, s.(workers := s.workers[n := w.(pc := Reading(w.pc.id))],
                 children := Appended(s.children, w.slot.value.child, JobFrame(w.pc.id))))
  {
    hide Inv, ReportsOk, HostOrigin;
    var children' := Appended(s.children, w.slot.value.child, JobFrame(w.pc.id));
    HandIsTold(s, h, n);
    SilentIsTold(h, h, s, n, children');
    MoveIsTold(h, h, s, s.(workers := s.workers[n := w.(pc := Reading(w.pc.id))], children := children'), n);
  }

  /** A worker lost with its job. */
  lemma LostIsTold(s: State, h: History, n: nat, w: Worker)
    requires Inv(s) && Told(h, s) && n < |s.workers| && w == s.workers[n] && w.pc.Sending?
    ensures Told(h.(lost := h.lost + {w.pc.id}), s.(workers := s.workers[n := Break(w).(pc := Checking(w.pc.id, Error))]))
  {
    hide Inv, ReportsOk;
    var h' := h.(lost := h.lost + {w.pc.id});
    SilentIsTold(h, h', s, n, s.children);
    ReportsGrow(h, h', s.claims, s.results);
    MoveIsTold(h, h', s, s.(workers := s.workers[n := Break(w).(pc := Checking(w.pc.id, Error))]), n);
  }

  /** What is at the front of a pipe that is read is what the child ended that job with. */
  lemma FrontIsTold(s: State, h: History, n: nat)
    requires Inv(s) && Told(h, s) && n < |s.workers| && CanReadDone(s, s.workers[n])
    ensures var (id, done) := (s.workers[n].pc.id, s.children[s.workers[n].reader.value].outbox[0]);
            done.id == id && id in h.ended && h.ended[id] == done.ending
  {
    hide Ledger, Hands, Epochs, Known, Outcomes;
    var w := s.workers[n];
    assert WorkerPipe(w, s.children);
    var ch := s.children[w.reader.value];
    assert OutboxOk(h, ch) && ch.outbox[0] in ch.outbox;
  }

  lemma ReadEffect(s: State, n: nat, readable: bool)
    requires n < |s.workers| && CanReadDone(s, s.workers[n])
    requires s.children[s.workers[n].reader.value].outbox[0].id == s.workers[n].pc.id
    ensures var (w, c) := (s.workers[n], s.workers[n].reader.value);
            var ch := s.children[c];
            var w' := if readable then w.(pc := Checking(w.pc.id, ch.outbox[0].ending))
                      else Break(w).(pc := Checking(w.pc.id, Error));
            TakeDone(s, n, readable) == s.(workers := s.workers[n := w'], children := s.children[c := ch.(outbox := ch.outbox[1..])])
  {
  }

  lemma ReadDoneIsTold(s: State, h: History, n: nat, readable: bool)
    requires Inv(s) && Told(h, s) && HostEnabled(s, n, ReadDone(readable))
    ensures var h' := Note(h, s, ByHost(n, ReadDone(readable))); Told(h', TakeDone(s, n, readable))
  {
    hide Inv, ReportsOk, Origin, TakeDone;
    var h', w := Note(h, s, ByHost(n, ReadDone(readable))), s.workers[n];
    var c := w.reader.value;
    var ch := s.children[c];
    FrontIsTold(s, h, n);
    var pc := Checking(w.pc.id, if readable then h.ended[w.pc.id] else Error);
    var w' := if readable then w.(pc := pc) else Break(w).(pc := pc);
    var t := s.(workers := s.workers[n := w'], children := s.children[c := ch.(outbox := ch.outbox[1..])]);
    ReadEffect(s, n, readable);
    OutboxesShrink(h, h', s, n);
    ReportsGrow(h, h', s.claims, s.results);
    MoveIsTold(h, h', s, t, n);
  }

  lemma OutboxesShrink(h: History, h': History, s: State, n: nat)
    requires ChildrenOk(h, s.children) && h'.ended == h.ended && n < |s.workers| && CanReadDone(s, s.workers[n])
    ensures var c := s.workers[n].reader.value;
            var children' := s.children[c := s.children[c].(outbox := s.children[c].outbox[1..])];
            ChildrenOk(h', children') && OthersSilent(s, n, children')
  {
    var c := s.workers[n].reader.value;
    var children' := s.children[c := s.children[c].(outbox := s.children[c].outbox[1..])];
    forall x | x in children' ensures OutboxOk(h', children'[x]) {
      assert OutboxOk(h, s.children[x]);
    }
  }

  lemma ClaimIsTold(s: State, h: History, id: JobId, ending: Ending)
    requires ReportsOk(h, s.claims, s.results) && Origin(h, id, ending)
    ensures var t := ClaimEntry(s, id, ending); ReportsOk(h, t.claims, t.results)
  {
    hide Origin;
  }

  lemma AnswerIsTold(s: State, h: History, n: nat)
    requires Inv(s) && Told(h, s) && HostEnabled(s, n, Answer)
    ensures Told(h, AnswerJob(s, n))
  {
    hide Inv, ReportsOk, ClaimEntry;
    var w := s.workers[n];
    var u := ClaimEntry(s, w.pc.id, w.pc.out);
    HandIsTold(s, h, n);
    ClaimIsTold(s, h, w.pc.id, w.pc.out);
    ClaimOnly(s, w.pc.id, w.pc.out);
    SilentIsTold(h, h, s, n, s.children);
    MoveIsTold(h, h, s, WithPc(u, n, Receiving), n);
  }

  lemma ClaimOnly(s: State, id: JobId, ending: Ending)
    ensures var t := ClaimEntry(s, id, ending);
            t.workers == s.workers && t.children == s.children && t.takenAt == s.takenAt && t.results == s.results
  {
  }

  lemma HostIsTold(s: State, h: History, n: nat, step: HostStep)
    requires Inv(s) && Told(h, s) && HostEnabled(s, n, step)
    ensures Told(Note(h, s, ByHost(n, step)), HostApply(s, n, step))
  {
    hide Inv, Told, TakeJob, MarkJob, DropChild, DecideSpawn, SpawnChild, SendJob, TakeDone, AnswerJob, LocalNext;
    var w := s.workers[n];
    match step
    case Local(local) => LocalIsTold(s, h, n, local);
    case Take => TakeIsTold(s, h, n);
    case MarkStarted => MarkIsTold(s, h, n);
    case DropStale => HandIsTold(s, h, n); DropIsTold(s, h, n, Deciding(w.pc.id, w.pc.current));
    case Decide => DecideIsTold(s, h, n);
    case Spawn(c) => SpawnIsTold(s, h, n, c);
    case WriteJob(ok) => WriteJobIsTold(s, h, n, ok);
    case ReadDone(readable) => ReadDoneIsTold(s, h, n, readable);
    case DropBroken => HandIsTold(s, h, n); DropIsTold(s, h, n, Answering(w.pc.id, w.pc.out));
    case Answer => AnswerIsTold(s, h, n);
  }

  /** A child that runs a job is the one from which the host thread of that job reads. */
  lemma RunningIsRead(s: State, c: ChildId) returns (n: nat)
    requires Inv(s) && c in s.children && s.children[c].alive && s.children[c].lua.Running?
    ensures n < |s.workers| && s.workers[n].pc == Reading(s.children[c].lua.id) && s.workers[n].reader == Some(c)
    ensures s.children[c].outbox == []
  {
    hide Ledger, Hands, Epochs, Known, Outcomes;
    assert !Orphan(s.workers, c);
    n :| 0 <= n < |s.workers| && Attached(s.workers[n]) == Some(c);
    assert WorkerPipe(s.workers[n], s.children);
  }

  /** A job is ended by a child at most once. */
  lemma EndIsTold(s: State, h: History, c: ChildId, ending: Ending)
    requires Inv(s) && Told(h, s) && c in s.children && CanFinish(s.children[c], ending)
    ensures s.children[c].lua.id !in h.ended
    ensures Told(Note(h, s, ByChild(c, EndJob(ending))), Apply(s, ByChild(c, EndJob(ending))))
  {
    var ch, id := s.children[c], s.children[c].lua.id;
    var n := RunningIsRead(s, c);
    HandIsTold(s, h, n);
    var h' := h.(ended := h.ended[id := ending]);
    assert ChildKnows(ch, s.cancelCalls, s.takenAt);
    hide Inv, Origin, ReportsOk, WorkersOk, Complete;
    EndWorkersTold(s, h, c, n, ending);
    EndChildrenTold(s, h, c, ending);
    ReportsGrow(h, h', s.claims, s.results);
  }

  lemma EndChildrenTold(s: State, h: History, c: ChildId, ending: Ending)
    requires ChildrenOk(h, s.children) && c in s.children && CanFinish(s.children[c], ending)
    requires s.children[c].lua.id !in h.ended
    ensures ChildrenOk(h.(ended := h.ended[s.children[c].lua.id := ending]), s.children[c := Complete(s.children[c], ending)])
  {
    var h', children' := h.(ended := h.ended[s.children[c].lua.id := ending]), s.children[c := Complete(s.children[c], ending)];
    forall x | x in children' ensures OutboxOk(h', children'[x]) {
      assert OutboxOk(h, s.children[x]);
    }
  }

  lemma EndWorkersTold(s: State, h: History, c: ChildId, n: nat, ending: Ending)
    requires Inv(s) && WorkersOk(h, s.workers, s.children) && c in s.children && CanFinish(s.children[c], ending)
    requires s.children[c].lua.id !in h.ended && n < |s.workers|
    requires s.workers[n].pc == Reading(s.children[c].lua.id) && s.workers[n].reader == Some(c)
    ensures WorkersOk(h.(ended := h.ended[s.children[c].lua.id := ending]), s.workers,
                      s.children[c := Complete(s.children[c], ending)])
  {
    hide Ledger, Pipes, Epochs, Known, Outcomes;
    var id := s.children[c].lua.id;
    var h', children' := h.(ended := h.ended[id := ending]), s.children[c := Complete(s.children[c], ending)];
    forall m | 0 <= m < |s.workers| ensures WorkerOk(h', s.workers[m], children') {
      assert WorkerOk(h, s.workers[m], s.children);
      assert m != n ==> Hand(s.workers[m].pc) != Hand(s.workers[n].pc);
    }
  }

  lemma OtherChildIsTold(s: State, h: History, c: ChildId, step: ChildStep)
    requires Told(h, s) && c in s.children && ChildEnabled(s.children[c], step) && !step.EndJob?
    ensures Told(h, Apply(s, ByChild(c, step)))
  {
    var children' := s.children[c := ChildApply(s.children[c], step)];
    forall n | 0 <= n < |s.workers| ensures WorkerOk(h, s.workers[n], children') {
      assert WorkerOk(h, s.workers[n], s.children);
    }
    assert OutboxOk(h, s.children[c]);
  }

  lemma ReapIsTold(s: State, h: History, r: nat, step: ReapStep)
    requires Told(h, s) && ReapEnabled(s, r, step)
    ensures Told(Note(h, s, ByWatchdog(r, step)), ReapApply(s, r, step))
  {
    hide Told, KillWorker, ClaimEntry, TakeSnapshot, PickExpired;
    match step
    case Kill =>
      var p := s.reapers[r];
      var u := WithReaper(s, r, p.(phase := Expiring(p.phase.id)));
      SameIsTold(h, s, u);
      KillIsTold(u, h, p.phase.n);
    case Expire =>
      var p := s.reapers[r];
      var u := WithReaper(s, r, p.(phase := Choosing));
      SameIsTold(h, s, u);
      ExpireIsTold(u, h, p.phase.id);
    case _ => SameIsTold(h, s, ReapApply(s, r, step));
  }

  /** Nothing of what is told has changed. */
  lemma SameIsTold(h: History, s: State, t: State)
    requires Told(h, s) && t.workers == s.workers && t.children == s.children && t.takenAt == s.takenAt
    requires t.claims == s.claims && t.results == s.results
    ensures Told(h, t)
  {
  }

  lemma KillIsTold(s: State, h: History, n: nat)
    requires Told(h, s)
    ensures Told(h, KillWorker(s, n))
  {
    hide ReportsOk, ChildrenOk, HostOrigin;
    var t := KillWorker(s, n);
    forall m | 0 <= m < |s.workers| ensures WorkerOk(h, t.workers[m], s.children) {
      assert WorkerOk(h, s.workers[m], s.children);
    }
  }

  lemma ExpireIsTold(s: State, h: History, id: JobId)
    requires Told(h, s)
    ensures Told(h.(expired := h.expired + {id}), ClaimEntry(s, id, Timeout))
  {
    hide ReportsOk, ChildrenOk, WorkersOk, ClaimEntry;
    var h' := h.(expired := h.expired + {id});
    SameEnded(h, h', s);
    ClaimIsTold(s, h', id, Timeout);
    ClaimOnly(s, id, Timeout);
  }

  lemma SameEnded(h: History, h': History, s: State)
    requires Grows(h, h') && h'.ended == h.ended && Told(h, s)
    ensures Told(h', s)
  {
    forall n | 0 <= n < |s.workers| ensures WorkerOk(h', s.workers[n], s.children) {
      assert WorkerOk(h, s.workers[n], s.children);
    }
    forall c | c in s.children ensures OutboxOk(h', s.children[c]) {
      assert OutboxOk(h, s.children[c]);
    }
  }

  lemma SubmitIsTold(s: State, h: History, step: SubmitStep)
    requires Told(h, s) && SubmitEnabled(s, step)
    ensures Told(Note(h, s, BySubmitter(step)), SubmitApply(s, step))
  {
    hide Told, ClaimEntry;
    if step.Refuse? {
      var h', u := h.(refused := h.refused + {step.id}), ClaimEntry(s, step.id, Refused);
      RefuseIsTold(s, h, step.id);
      SameIsTold(h', u, u.(submits := s.submits - {step.id}));
    } else {
      SameIsTold(h, s, SubmitApply(s, step));
    }
  }

  lemma RefuseIsTold(s: State, h: History, id: JobId)
    requires Told(h, s)
    ensures Told(h.(refused := h.refused + {id}), ClaimEntry(s, id, Refused))
  {
    hide ReportsOk, ChildrenOk, WorkersOk, ClaimEntry;
    var h' := h.(refused := h.refused + {id});
    SameEnded(h, h', s);
    ClaimIsTold(s, h', id, Refused);
    ClaimOnly(s, id, Refused);
  }

  lemma AnswererIsTold(s: State, h: History, step: AnswerStep)
    requires Told(h, s) && AnswerEnabled(s, step)
    ensures Told(h, AnswerApply(s, step))
  {
    hide Origin, ChildrenOk, WorkersOk, CountIn;
  }

  lemma CancelIsTold(s: State, h: History, step: CancelStep)
    requires Told(h, s) && CancelEnabled(s, step)
    ensures Told(h, CancelApply(s, step))
  {
    hide Told, MarkCancelled, SendCancel;
    match step
    case Mark(id) => MarkCancelIsTold(s, h, id);
    case WriteCancel(ok) => WriteIsTold(s, h, ok);
  }

  lemma MarkCancelIsTold(s: State, h: History, id: JobId)
    requires Told(h, s)
    ensures Told(h, MarkCancelled(s, id))
  {
    hide Told;
    SameIsTold(h, s, MarkCancelled(s, id));
  }

  lemma WriteIsTold(s: State, h: History, ok: bool)
    requires Told(h, s) && s.liveLock.Some?
    ensures Told(h, SendCancel(s, ok))
  {
    hide ReportsOk, HostOrigin;
      var (id, n) := s.liveLock.value;
    var free := s.(liveLock := None);
    if n < |s.workers| && s.workers[n].slot.Some? {
      var c := s.workers[n].slot.value.child;
      if ok && c in s.children {
        assert SendCancel(s, ok) == free.(children := Appended(s.children, c, CancelFrame(id)));
        FrameIsTold(free, h, c, CancelFrame(id));
      } else {
        assert SendCancel(s, ok) == free.(workers := s.workers[n := Break(s.workers[n])]);
        KillIsTold(free, h, n);
      }
    } else {
      assert SendCancel(s, ok) == free;
    }
  }

  lemma FrameIsTold(s: State, h: History, c: ChildId, f: Frame)
    requires Told(h, s) && c in s.children
    ensures Told(h, s.(children := Appended(s.children, c, f)))
  {
    hide ReportsOk, HostOrigin;
    var children' := Appended(s.children, c, f);
    forall n | 0 <= n < |s.workers| ensures WorkerOk(h, s.workers[n], children') {
      assert WorkerOk(h, s.workers[n], s.children);
    }
    forall x | x in children' ensures OutboxOk(h, children'[x]) {
      assert OutboxOk(h, s.children[x]);
    }
  }

  lemma StepIsTold(s: State, h: History, step: Step)
    requires Inv(s) && Told(h, s) && Enabled(s, step)
    ensures Told(Note(h, s, step), Apply(s, step))
  {
    hide Inv, Told, HostApply, SubmitApply, AnswerApply, CancelApply, ReapApply, ChildApply;
    match step
    case Tick => OnlyTime(s, h);
    case Recycle => OnlyTime(s, h);
    case BySubmitter(sub) => SubmitIsTold(s, h, sub);
    case ByAnswerer(ans) => AnswererIsTold(s, h, ans);
    case ByCanceller(can) => CancelIsTold(s, h, can);
    case ByWatchdog(r, reap) => ReapIsTold(s, h, r, reap);
    case ByHost(n, host) => HostIsTold(s, h, n, host);
    case ByChild(c, EndJob(ending)) => EndIsTold(s, h, c, ending);
    case ByChild(c, kid) => OtherChildIsTold(s, h, c, kid);
  }

  lemma OnlyTime(s: State, h: History)
    requires Told(h, s)
    ensures Told(h, s.(clock := s.clock + 1)) && Told(h, s.(epoch := s.epoch + 1))
  {
  }

  lemma {:induction false} RunIsTold(s: State, h: History, steps: seq<Step>)
    requires Inv(s) && Told(h, s) && Runs(s, steps)
    ensures Told(Recalled(h, s, steps), After(s, steps))
    decreases |steps|
  {
    hide Inv, Told, Apply, Enabled, Note;
    if steps != [] {
      StepKeepsInv(s, steps[0]);
      StepIsTold(s, h, steps[0]);
      RunIsTold(Apply(s, steps[0]), Note(h, s, steps[0]), steps[1..]);
    }
  }

  lemma BeginsUntold(s: State)
    requires Init(s)
    ensures Told(NOTHING, s)
  {
  }

  // ------------------------------------------------------------------- the theorems

  /**
   In every run, whatever is reported of a job, or claimed, is the ending with which a child ended that very
   job; or a timeout, and a watchdog claimed it; or a refusal, and the queue refused it; or a load error,
   and no worker could be started for it; or an error, and its worker was lost before it answered readably.
   */
  lemma EveryEndingHasItsOrigin(s0: State, steps: seq<Step>)
    requires Init(s0) && Runs(s0, steps)
    ensures var h := Recalled(NOTHING, s0, steps);
            var t := After(s0, steps);
            && (forall i :: 0 <= i < |t.results| ==> Origin(h, t.results[i].id, t.results[i].ending))
            && (forall id :: id in t.claims ==> Origin(h, id, t.claims[id].ending))
  {
    InitInv(s0);
    BeginsUntold(s0);
    RunIsTold(s0, NOTHING, steps);
  }

  /** So a job that a child ended, and that nothing else befell, is reported with that ending. */
  lemma ChildsEndingIsReported(s0: State, steps: seq<Step>, i: nat)
    requires Init(s0) && Runs(s0, steps) && i < |After(s0, steps).results|
    requires var h, id := Recalled(NOTHING, s0, steps), After(s0, steps).results[i].id;
             id !in h.expired && id !in h.refused && id !in h.unstarted && id !in h.lost
    ensures var h, d := Recalled(NOTHING, s0, steps), After(s0, steps).results[i];
            d.id in h.ended && h.ended[d.id] == d.ending
  {
    EveryEndingHasItsOrigin(s0, steps);
    var d := After(s0, steps).results[i];
    assert Origin(Recalled(NOTHING, s0, steps), d.id, d.ending);
  }

  /** A job is ended by a child at most once in a run. */
  lemma EndedOnce(s0: State, steps: seq<Step>, c: ChildId, ending: Ending)
    requires Init(s0) && Runs(s0, steps)
    requires c in After(s0, steps).children && CanFinish(After(s0, steps).children[c], ending)
    ensures After(s0, steps).children[c].lua.id !in Recalled(NOTHING, s0, steps).ended
  {
    InitInv(s0);
    BeginsUntold(s0);
    RunIsTold(s0, NOTHING, steps);
    RunKeepsInv(s0, steps);
    EndIsTold(After(s0, steps), Recalled(NOTHING, s0, steps), c, ending);
  }

  /** Reading, then looking at the slot, then answering. */
  function ReadAndAnswer(n: nat): seq<Step> {
    [ByHost(n, ReadDone(true))] + ([ByHost(n, Local(CheckBroken))] + [ByHost(n, Answer)])
  }

  /**
   A host thread that reads a readable answer in a slot that is not marked, for a job still live, goes on to claim
   that job with exactly the ending its child gave it.
   */
  lemma ReadableAnswerIsClaimed(s0: State, steps: seq<Step>, n: nat)
    requires Init(s0) && Runs(s0, steps)
    requires var s := After(s0, steps);
             && n < |s.workers| && CanReadDone(s, s.workers[n]) && LiveFree(s)
             && s.workers[n].slot.Some? && !s.workers[n].slot.value.broken && s.workers[n].pc.id in s.live
    ensures var (s, h) := (After(s0, steps), Recalled(NOTHING, s0, steps));
            var id := s.workers[n].pc.id;
            && id in h.ended && Runs(s, ReadAndAnswer(n))
            && var t := After(s, ReadAndAnswer(n));
            && id in t.claims && t.claims[id].ending == h.ended[id] && id !in t.live
  {
    hide Inv, Told, CanReadDone, LiveFree;
    InitInv(s0);
    BeginsUntold(s0);
    RunIsTold(s0, NOTHING, steps);
    RunKeepsInv(s0, steps);
    var s, h := After(s0, steps), Recalled(NOTHING, s0, steps);
    FrontIsTold(s, h, n);
    ClaimsRead(s, n);
  }

  lemma ClaimsRead(s: State, n: nat)
    requires n < |s.workers| && CanReadDone(s, s.workers[n]) && LiveFree(s) && s.workers[n].pc.id in s.live
    requires s.workers[n].slot.Some? && !s.workers[n].slot.value.broken
    requires s.children[s.workers[n].reader.value].outbox[0].id == s.workers[n].pc.id
    ensures var id := s.workers[n].pc.id;
            && Runs(s, ReadAndAnswer(n))
            && var t := After(s, ReadAndAnswer(n));
            && id in t.claims && t.claims[id].ending == s.children[s.workers[n].reader.value].outbox[0].ending && id !in t.live
  {
    hide Runs, After, TakeDone;
    var w := s.workers[n];
    var done := s.children[w.reader.value].outbox[0];
    var s1 := TakeDone(s, n, true);
    ReadEffect(s, n, true);
    var t := CheckAndAnswer(s1, n, w.(pc := Checking(w.pc.id, done.ending)));
    RunsThen(s, ByHost(n, ReadDone(true)), s1, [ByHost(n, Local(CheckBroken))] + [ByHost(n, Answer)], t);
  }

  /** The last two steps. */
  lemma CheckAndAnswer(s: State, n: nat, w: Worker) returns (t: State)
    requires n < |s.workers| && s.workers[n] == w && w.pc.Checking? && LiveFree(s) && w.pc.id in s.live
    requires w.slot.Some? && !w.slot.value.broken
    ensures var steps := [ByHost(n, Local(CheckBroken))] + [ByHost(n, Answer)];
            Runs(s, steps) && After(s, steps) == t
    ensures w.pc.id in t.claims && t.claims[w.pc.id].ending == w.pc.out && w.pc.id !in t.live
  {
    hide Runs, After;
    var s1 := WithWorker(s, n, w.(pc := Answering(w.pc.id, w.pc.out)));
    t := AnswerJob(s1, n);
    RunsOne(s1, ByHost(n, Answer), t);
    RunsThen(s, ByHost(n, Local(CheckBroken)), s1, [ByHost(n, Answer)], t);
  }

  lemma RunsOne(s: State, step: Step, t: State)
    requires Enabled(s, step) && Apply(s, step) == t
    ensures Runs(s, [step]) && After(s, [step]) == t
  {
    hide Apply, Enabled;
    assert [step][1..] == [];
    assert Runs(t, []) && After(t, []) == t;
  }

  lemma RunsThen(s: State, step: Step, t: State, rest: seq<Step>, u: State)
    requires Enabled(s, step) && Apply(s, step) == t && Runs(t, rest) && After(t, rest) == u
    ensures Runs(s, [step] + rest) && After(s, [step] + rest) == u
  {
    hide Apply, Enabled;
    assert ([step] + rest)[1..] == rest;
  }
}
