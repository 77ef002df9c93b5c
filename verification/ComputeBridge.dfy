/**
 The pool's public calls as the code makes them: one object, its fields changed in place.

 Each method is one call that no other thread interrupts. Its effect is tied to the transition
 system: the fields before and after are two states of it, and what lies between is one run of it.
 */
module ComputeBridge {
  import opened Wrappers
  import opened Endings
  import opened ComputeProtocol
  import opened ComputeInvariants

  datatype SubmitError = BadModule | DeadlineTooLong(asked: nat, max: nat)

  datatype Config = Config(queueDepth: nat, defaultDeadlineMs: nat, maxDeadlineMs: nat, roots: seq<string>)

  // ------------------------------------------------------------ entry modules

  function Slashed(c: char): char {
    if c == '\\' || c == '.' then '/' else c
  }

  /** Every backslash and every dot reads as a slash. */
  function Normalized(s: string): (r: string)
    ensures |r| == |s|
    ensures forall i :: 0 <= i < |s| ==> (r[i] == '/' <==> s[i] in {'/', '\\', '.'}) && (r[i] != '/' ==> r[i] == s[i])
  {
    seq(|s|, i requires 0 <= i < |s| => Slashed(s[i]))
  }

  function TrimStart(s: string): string {
    if s != [] && s[0] == '/' then TrimStart(s[1..]) else s
  }

  function TrimEnd(s: string): string {
    if s != [] && s[|s| - 1] == '/' then TrimEnd(s[..|s| - 1]) else s
  }

  function Trimmed(s: string): string {
    TrimEnd(TrimStart(s))
  }

  predicate UnderRoot(module': string, root: string) {
    module' == root || root + "/" <= module'
  }

  predicate ModuleIsAllowed(module': string, roots: seq<string>) {
    exists i :: 0 <= i < |roots| && UnderRoot(Normalized(module'), Trimmed(roots[i]))
  }

  /** The components of a path, split at every slash. */
  function Components(s: string): (r: seq<string>)
    ensures r != []
  {
    if s == [] then [""]
    else
      var rest := Components(s[1..]);
      if s[0] == '/' then [""] + rest else [[s[0]] + rest[0]] + rest[1..]
  }

  predicate AllSlashes(s: string) {
    forall i :: 0 <= i < |s| ==> s[i] == '/'
  }

  lemma {:induction false} TrimStartDrops(s: string) returns (a: string)
    ensures AllSlashes(a) && s == a + TrimStart(s) && (TrimStart(s) != [] ==> TrimStart(s)[0] != '/')
    decreases |s|
  {
    if s != [] && s[0] == '/' {
      var rest := TrimStartDrops(s[1..]);
      a := ['/'] + rest;
    } else {
      a := [];
    }
  }

  lemma {:induction false} TrimEndDrops(s: string) returns (b: string)
    ensures AllSlashes(b) && s == TrimEnd(s) + b && (TrimEnd(s) != [] ==> TrimEnd(s)[|TrimEnd(s)| - 1] != '/')
    decreases |s|
  {
    if s != [] && s[|s| - 1] == '/' {
      var rest := TrimEndDrops(s[..|s| - 1]);
      b := rest + ['/'];
    } else {
      b := [];
    }
  }

  /** Trimming takes slashes off both ends, all of them, and nothing else. */
  lemma TrimmedDropsSlashes(s: string) returns (a: string, b: string)
    ensures AllSlashes(a) && AllSlashes(b) && s == a + Trimmed(s) + b
    ensures Trimmed(s) != [] ==> Trimmed(s)[0] != '/' && Trimmed(s)[|Trimmed(s)| - 1] != '/'
  {
    a := TrimStartDrops(s);
    b := TrimEndDrops(TrimStart(s));
    assert Trimmed(s) != [] ==> Trimmed(s)[0] == TrimStart(s)[0];
  }

  /** Components put together again, with a slash between each two. */
  function Rejoined(cs: seq<string>): string {
    if cs == [] then "" else if |cs| == 1 then cs[0] else cs[0] + "/" + Rejoined(cs[1..])
  }

  /** The components of a path are what lies between its slashes. */
  lemma {:induction false} ComponentsLieBetweenSlashes(s: string)
    ensures Rejoined(Components(s)) == s
    ensures forall i :: 0 <= i < |Components(s)| ==> '/' !in Components(s)[i]
    decreases |s|
  {
    if s == [] {
    } else {
      ComponentsLieBetweenSlashes(s[1..]);
      var cs, rest := Components(s), Components(s[1..]);
      assert s == [s[0]] + s[1..];
      if s[0] == '/' {
        assert cs[1..] == rest;
        assert Rejoined(cs) == "" + "/" + Rejoined(rest);
      } else {
        assert cs[1..] == rest[1..];
        assert cs[0] == [s[0]] + rest[0];
        assert |rest| > 1 ==> [s[0]] + rest[0] + "/" + Rejoined(rest[1..]) == [s[0]] + (rest[0] + "/" + Rejoined(rest[1..]));
      }
    }
  }

  lemma ComponentsStep(s: string)
    requires s != []
    ensures var rest := Components(s[1..]);
            Components(s) == if s[0] == '/' then [""] + rest else [[s[0]] + rest[0]] + rest[1..]
  {
  }

  lemma PrefixOfBoth<T>(x: T, y: T, xs: seq<T>, ys: seq<T>)
    ensures [x] + xs <= [y] + ys <==> x == y && xs <= ys
  {
    var u, v := [x] + xs, [y] + ys;
    assert u[1..] == xs && v[1..] == ys;
    if u <= v {
      assert u[0] == v[..|u|][0];
      assert xs == v[..|u|][1..] == ys[..|xs|];
    }
  }

  lemma SameHeadPrefix(c: char, xs: seq<string>, ys: seq<string>)
    requires xs != [] && ys != []
    ensures [""] + xs <= [""] + ys <==> xs <= ys
    ensures [[c] + xs[0]] + xs[1..] <= [[c] + ys[0]] + ys[1..] <==> xs <= ys
  {
    PrefixOfBoth("", "", xs, ys);
    PrefixOfBoth([c] + xs[0], [c] + ys[0], xs[1..], ys[1..]);
    PrefixOfBoth(xs[0], ys[0], xs[1..], ys[1..]);
    assert xs == [xs[0]] + xs[1..] && ys == [ys[0]] + ys[1..];
    assert ([c] + xs[0])[1..] == xs[0] && ([c] + ys[0])[1..] == ys[0];
  }

  /** A root admits exactly the modules whose leading components are the root's: never a sibling. */
  lemma {:induction false} RootIsAComponentPrefix(m: string, root: string)
    ensures UnderRoot(m, root) <==> Components(root) <= Components(m)
  {
    if root == [] {
      if m != [] {
        ComponentsStep(m);
        assert m[0] == '/' <==> "/" <= m;
      }
    } else if m == [] {
      ComponentsStep(root);
    } else {
      ComponentsStep(m);
      ComponentsStep(root);
      RootIsAComponentPrefix(m[1..], root[1..]);
      var cm, cr := Components(m[1..]), Components(root[1..]);
      assert (root + "/")[1..] == root[1..] + "/";
      if m[0] == root[0] {
        assert UnderRoot(m, root) <==> UnderRoot(m[1..], root[1..]) by {
          assert m == [m[0]] + m[1..] && root == [root[0]] + root[1..];
          if root[1..] + "/" <= m[1..] {
            assert root + "/" == [root[0]] + (root[1..] + "/");
          }
          if root + "/" <= m {
            assert m[..|root| + 1] == root + "/";
            assert m[1..][..|root|] == root[1..] + "/";
          }
        }
        SameHeadPrefix(m[0], cr, cm);
      } else {
        assert m[0] != '/' ==> Components(m)[0] != [] && Components(m)[0][0] == m[0];
        assert root[0] != '/' ==> Components(root)[0] != [] && Components(root)[0][0] == root[0];
        assert Components(root)[0] != Components(m)[0];
      }
    }
  }

  /** So a module is allowed exactly when some configured root is a path prefix of it. */
  lemma AllowedMeansUnderARoot(module': string, roots: seq<string>)
    ensures ModuleIsAllowed(module', roots) <==>
            exists i :: 0 <= i < |roots| && Components(Trimmed(roots[i])) <= Components(Normalized(module'))
  {
    forall i | 0 <= i < |roots|
      ensures UnderRoot(Normalized(module'), Trimmed(roots[i])) <==>
              Components(Trimmed(roots[i])) <= Components(Normalized(module'))
    {
      RootIsAComponentPrefix(Normalized(module'), Trimmed(roots[i]));
    }
  }

  // ------------------------------------------------------ uninterrupted calls

  /** A call of `answer` that nobody interrupts. */
  function AnswerNow(s: State, id: JobId, ending: Ending): State {
    if id in s.live then SendClaim(CountClaim(ClaimEntry(s, id, ending), id), id) else s
  }

  lemma SubmitterThen(s: State, sub: SubmitStep, t: State, rest: seq<Step>)
    requires SubmitEnabled(s, sub) && t == SubmitApply(s, sub) && Runs(t, rest)
    ensures Runs(s, [BySubmitter(sub)] + rest) && After(s, [BySubmitter(sub)] + rest) == After(t, rest)
  {
    assert ([BySubmitter(sub)] + rest)[1..] == rest;
  }

  lemma AnswererThen(s: State, ans: AnswerStep, t: State, rest: seq<Step>)
    requires AnswerEnabled(s, ans) && t == AnswerApply(s, ans) && Runs(t, rest)
    ensures Runs(s, [ByAnswerer(ans)] + rest) && After(s, [ByAnswerer(ans)] + rest) == After(t, rest)
  {
    assert ([ByAnswerer(ans)] + rest)[1..] == rest;
  }

  /** What a `submit` does about the queue: one step if there is room, four if there is none. */
  function EnqueueSteps(s: State): seq<Step> {
    var id := s.nextId;
    if |s.queue| < s.capacity then [BySubmitter(Enqueue(id))] + []
    else
      [BySubmitter(Enqueue(id))]
      + ([BySubmitter(Refuse(id))] + ([ByAnswerer(CountEnding(id))] + ([ByAnswerer(SendResult(id))] + [])))
  }

  /** The steps of a `submit` that nobody interrupts, when the call gets as far as an id. */
  function SubmitSteps(s: State, deadlineMs: nat): seq<Step> {
    var id := s.nextId;
    [BySubmitter(Allocate(deadlineMs))] + ([BySubmitter(Insert(id))] + ([BySubmitter(CountSubmit(id))] + EnqueueSteps(s)))
  }

  function Unexpired(live: map<JobId, Live>, now: nat): map<JobId, Live> {
    map id | id in live && live[id].deadline > now :: live[id]
  }

  /** The entries left when the expired ones in `todo` are still to be answered. */
  function Remaining(live: map<JobId, Live>, now: nat, todo: set<JobId>): map<JobId, Live> {
    map id | id in live && (live[id].deadline > now || id in todo) :: live[id]
  }

  lemma RemainingStep(live: map<JobId, Live>, now: nat, todo: set<JobId>, id: JobId)
    requires id in todo && id in live && live[id].deadline <= now
    ensures id in Remaining(live, now, todo)
    ensures Remaining(live, now, todo) - {id} == Remaining(live, now, todo - {id})
    ensures |Remaining(live, now, todo - {id})| == |Remaining(live, now, todo)| - 1
  {
    LiveCount(Remaining(live, now, todo), id, live[id]);
  }

  /** The expired jobs that were running and have been handled. */
  function WedgedIds(expired: map<JobId, Option<nat>>, todo: set<JobId>): set<JobId> {
    set id | id in expired && id !in todo && expired[id].Some?
  }

  lemma WedgedStep(expired: map<JobId, Option<nat>>, todo: set<JobId>, id: JobId)
    requires id in todo && id in expired
    ensures |WedgedIds(expired, todo - {id})| == |WedgedIds(expired, todo)| + (if expired[id].Some? then 1 else 0)
  {
    assert WedgedIds(expired, todo - {id})
        == if expired[id].Some? then WedgedIds(expired, todo) + {id} else WedgedIds(expired, todo);
  }

  function Handled(expired: map<JobId, Option<nat>>, todo: set<JobId>, id: JobId): nat {
    if id in expired && id !in todo then 1 else 0
  }

  /** Each handled job was answered once more, as a timeout, and nothing else was sent. */
  ghost predicate TimedOut(was: seq<Done>, sent: seq<Done>, expired: map<JobId, Option<nat>>, todo: set<JobId>) {
    && was <= sent && (forall i :: |was| <= i < |sent| ==> sent[i].ending == Timeout)
    && forall id: JobId :: Times(sent, id) == Times(was, id) + Handled(expired, todo, id)
  }

  lemma TimedOutBegins(sent: seq<Done>, expired: map<JobId, Option<nat>>)
    ensures TimedOut(sent, sent, expired, expired.Keys)
  {
    forall id: JobId | true ensures Handled(expired, expired.Keys, id) == 0 {
    }
  }

  lemma TimedOutStep(was: seq<Done>, sent: seq<Done>, expired: map<JobId, Option<nat>>, todo: set<JobId>, id: JobId)
    requires TimedOut(was, sent, expired, todo) && id in todo && id in expired
    ensures TimedOut(was, sent + [Done(id, Timeout)], expired, todo - {id})
  {
    var more := sent + [Done(id, Timeout)];
    assert more[..|more| - 1] == sent;
  }

  ghost predicate Hit(expired: map<JobId, Option<nat>>, todo: set<JobId>, n: nat) {
    exists id :: id in expired && id !in todo && expired[id] == Some(n)
  }

  /** Exactly the slots of the handled jobs are marked broken. */
  ghost predicate KilledOnly(
    workers: seq<Worker>, workers': seq<Worker>, expired: map<JobId, Option<nat>>, todo: set<JobId>)
  {
    && |workers'| == |workers|
    && forall n :: 0 <= n < |workers| ==> workers'[n] == if Hit(expired, todo, n) then Break(workers[n]) else workers[n]
  }

  lemma KilledStep(workers: seq<Worker>, ws: seq<Worker>, expired: map<JobId, Option<nat>>, todo: set<JobId>, id: JobId)
    requires KilledOnly(workers, ws, expired, todo) && id in todo && id in expired
    ensures KilledOnly(workers, KilledOne(ws, expired[id]), expired, todo - {id})
  {
    forall n | 0 <= n < |workers|
      ensures Hit(expired, todo - {id}, n) <==> Hit(expired, todo, n) || expired[id] == Some(n) {
      if Hit(expired, todo, n) {
        var x :| x in expired && x !in todo && expired[x] == Some(n);
        assert x !in todo - {id};
      }
      if expired[id] == Some(n) {
        assert id !in todo - {id};
      }
    }
  }

  function KilledOne(ws: seq<Worker>, runningOn: Option<nat>): seq<Worker> {
    if runningOn.Some? && runningOn.value < |ws| then ws[runningOn.value := Break(ws[runningOn.value])] else ws
  }

  lemma TodoCount(todo: map<JobId, Option<nat>>, id: JobId)
    requires id in todo
    ensures |todo - {id}| == |todo| - 1
  {
    assert (todo - {id}).Keys == todo.Keys - {id};
  }

  /** The effect of a whole `submit` past its checks. */
  function SubmitNow(s: State, deadlineMs: nat): State {
    var id := s.nextId;
    var s1 := s.(nextId := id + 1,
              live := s.live[id := Live(s.clock + deadlineMs, false, false, None)],
              stats := s.stats.(submitted := s.stats.submitted + 1));
    if |s.queue| < s.capacity then s1.(queue := s.queue + [id]) else AnswerNow(s1, id, Refused)
  }

  /** The state in which a `submit` comes to the queue. */
  function Entered(s: State, ms: nat): State {
    CountSubmission(InsertEntry(AllocateId(s, ms), s.nextId), s.nextId)
  }

  /** The first three steps of a `submit`, before whatever follows them. */
  lemma SubmitStarts(s: State, ms: nat)
    requires LiveFree(s) && s.submits == map[]
    requires Runs(Entered(s, ms), EnqueueSteps(s))
    ensures Runs(s, SubmitSteps(s, ms)) && After(s, SubmitSteps(s, ms)) == After(Entered(s, ms), EnqueueSteps(s))
  {
    var id := s.nextId;
    var s1 := AllocateId(s, ms);
    var s2 := InsertEntry(s1, id);
    var s3 := CountSubmission(s2, id);
    var r2 := [BySubmitter(CountSubmit(id))] + EnqueueSteps(s);
    var r1 := [BySubmitter(Insert(id))] + r2;
    SubmitterThen(s2, CountSubmit(id), s3, EnqueueSteps(s));
    SubmitterThen(s1, Insert(id), s2, r2);
    SubmitterThen(s, Allocate(ms), s1, r1);
  }

  lemma EnqueueRuns(s: State, ms: nat)
    requires LiveFree(s) && s.submits == map[] && s.claims == map[]
    ensures Runs(Entered(s, ms), EnqueueSteps(s)) && After(Entered(s, ms), EnqueueSteps(s)) == SubmitNow(s, ms)
  {
    hide Runs, After, AnswerNow;
    var id := s.nextId;
    var s3 := Entered(s, ms);
    assert s3.submits == map[id := Counted];
    if |s.queue| < s.capacity {
      QueueingEnds(s3, id);
    } else {
      RefusalEnds(s3, id);
    }
    assert s3.(submits := map[]) == s.(nextId := s3.nextId, live := s3.live, stats := s3.stats);
  }

  lemma QueueingEnds(s: State, id: JobId)
    requires |s.queue| < s.capacity && s.submits == map[id := Counted]
    ensures var steps := [BySubmitter(Enqueue(id))] + [];
            Runs(s, steps) && After(s, steps) == s.(submits := map[]).(queue := s.queue + [id])
  {
    var s4 := TrySend(s, id);
    assert s4.submits == map[];
    SubmitterThen(s, Enqueue(id), s4, []);
  }

  /** The last four steps of a `submit` that finds the queue full. */
  lemma RefusalEnds(s: State, id: JobId)
    requires LiveFree(s) && |s.queue| >= s.capacity && id in s.live
    requires s.submits == map[id := Counted] && s.claims == map[]
    ensures var steps := [BySubmitter(Enqueue(id))] + ([BySubmitter(Refuse(id))] + ([ByAnswerer(CountEnding(id))] + ([ByAnswerer(SendResult(id))] + [])));
            Runs(s, steps) && After(s, steps) == AnswerNow(s.(submits := map[]), id, Refused)
  {
    var s4 := TrySend(s, id);
    var s5 := RefuseJob(s4, id);
    var s6 := CountClaim(s5, id);
    var s7 := SendClaim(s6, id);
    assert s5.submits == map[] && s7.claims == map[];
    assert s5 == ClaimEntry(s.(submits := map[]), id, Refused);
    var r3 := [ByAnswerer(SendResult(id))] + [];
    var r2 := [ByAnswerer(CountEnding(id))] + r3;
    var r1 := [BySubmitter(Refuse(id))] + r2;
    AnswererThen(s6, SendResult(id), s7, []);
    AnswererThen(s5, CountEnding(id), s6, r3);
    SubmitterThen(s4, Refuse(id), s5, r2);
    SubmitterThen(s, Enqueue(id), s4, r1);
  }

  /** A `submit` nobody interrupts is a run: four steps if the job is queued, seven if it is refused. */
  lemma SubmitIsARun(s: State, ms: nat)
    requires LiveFree(s) && s.submits == map[] && s.claims == map[]
    ensures Runs(s, SubmitSteps(s, ms)) && After(s, SubmitSteps(s, ms)) == SubmitNow(s, ms)
  {
    EnqueueRuns(s, ms);
    SubmitStarts(s, ms);
  }

  // ------------------------------------------------------ a pass as a run

  ghost predicate RunsTo(s: State, steps: seq<Step>, t: State) {
    Runs(s, steps) && After(s, steps) == t
  }

  lemma {:induction false} RunsJoin(s: State, a: seq<Step>, t: State, b: seq<Step>, u: State)
    requires RunsTo(s, a, t) && RunsTo(t, b, u)
    ensures RunsTo(s, a + b, u)
    decreases |a|
  {
    hide Apply, Enabled;
    if a == [] {
      assert a + b == b;
    } else {
      RunsJoin(Apply(s, a[0]), a[1..], t, b, u);
      assert (a + b)[0] == a[0] && (a + b)[1..] == a[1..] + b;
    }
  }

  lemma OneStep(s: State, step: Step, t: State)
    requires Enabled(s, step) && Apply(s, step) == t
    ensures RunsTo(s, [step], t)
  {
    hide Apply, Enabled;
    assert [step][1..] == [];
    assert Runs(t, []) && After(t, []) == t;
  }

  lemma PassStep(s: State, step: ReapStep, t: State)
    requires ReapEnabled(s, 0, step) && ReapApply(s, 0, step) == t
    ensures RunsTo(s, [ByWatchdog(0, step)], t)
  {
    hide RunsTo, ReapApply, ReapEnabled;
    OneStep(s, ByWatchdog(0, step), t);
  }

  /** A state in which one pass of the watchdog, begun just now, has still to handle `todo`. */
  function Passing(s: State, snapshot: set<JobId>, todo: map<JobId, Option<nat>>, phase: ReapPhase): State {
    s.(reapers := map[0 := Reaper(s.clock, true, snapshot, todo, phase)])
  }

  lemma PassingMoves(s: State, snapshot: set<JobId>, todo: map<JobId, Option<nat>>, phase: ReapPhase, phase': ReapPhase)
    ensures var t := Passing(s, snapshot, todo, phase);
            && 0 in t.reapers && t.reapers[0].phase == phase
            && WithReaper(t, 0, t.reapers[0].(phase := phase')) == Passing(s, snapshot, todo, phase')
  {
  }

  lemma PassingKilled(s: State, snapshot: set<JobId>, todo: map<JobId, Option<nat>>, phase: ReapPhase, n: nat)
    ensures KillWorker(Passing(s, snapshot, todo, phase), n) == Passing(KillWorker(s, n), snapshot, todo, phase)
  {
    hide Break;
  }

  /** The watchdog kills the worker an expired job was running on. */
  function Wedge(s: State, runningOn: Option<nat>): State {
    if runningOn.Some? then KillWorker(s.(stats := s.stats.(wedged := s.stats.wedged + 1)), runningOn.value) else s
  }

  lemma CountWedgedStep(s: State, snapshot: set<JobId>, todo: map<JobId, Option<nat>>, id: JobId, n: nat)
    ensures RunsTo(Passing(s, snapshot, todo, Wedging(id, n)), [ByWatchdog(0, CountWedged)],
                   Passing(s.(stats := s.stats.(wedged := s.stats.wedged + 1)), snapshot, todo, Killing(id, n)))
  {
    hide RunsTo, KillWorker;
    PassStep(Passing(s, snapshot, todo, Wedging(id, n)), CountWedged,
             Passing(s.(stats := s.stats.(wedged := s.stats.wedged + 1)), snapshot, todo, Killing(id, n)));
  }

  lemma KillStep(s: State, snapshot: set<JobId>, todo: map<JobId, Option<nat>>, id: JobId, n: nat)
    ensures RunsTo(Passing(s, snapshot, todo, Killing(id, n)), [ByWatchdog(0, Kill)],
                   Passing(KillWorker(s, n), snapshot, todo, Expiring(id)))
  {
    hide RunsTo, KillWorker, Passing, WithReaper;
    PassingMoves(s, snapshot, todo, Killing(id, n), Expiring(id));
    PassingKilled(s, snapshot, todo, Expiring(id), n);
    PassStep(Passing(s, snapshot, todo, Killing(id, n)), Kill,
             Passing(KillWorker(s, n), snapshot, todo, Expiring(id)));
  }

  lemma WedgeIsARun(s: State, snapshot: set<JobId>, todo: map<JobId, Option<nat>>, id: JobId, n: nat)
    ensures RunsTo(Passing(s, snapshot, todo, Wedging(id, n)), [ByWatchdog(0, CountWedged)] + [ByWatchdog(0, Kill)],
                   Passing(Wedge(s, Some(n)), snapshot, todo, Expiring(id)))
  {
    hide RunsTo, Passing, KillWorker;
    var counted := s.(stats := s.stats.(wedged := s.stats.wedged + 1));
    CountWedgedStep(s, snapshot, todo, id, n);
    KillStep(counted, snapshot, todo, id, n);
    RunsJoin(Passing(s, snapshot, todo, Wedging(id, n)), [ByWatchdog(0, CountWedged)],
             Passing(counted, snapshot, todo, Killing(id, n)), [ByWatchdog(0, Kill)],
             Passing(Wedge(s, Some(n)), snapshot, todo, Expiring(id)));
  }

  /** The steps in which an expired entry is claimed, counted and reported. */
  function ExpireSteps(id: JobId): seq<Step> {
    [ByWatchdog(0, Expire)] + ([ByAnswerer(CountEnding(id))] + [ByAnswerer(SendResult(id))])
  }

  lemma ExpireStep(s: State, snapshot: set<JobId>, todo: map<JobId, Option<nat>>, id: JobId)
    requires LiveFree(s)
    ensures RunsTo(Passing(s, snapshot, todo, Expiring(id)), [ByWatchdog(0, Expire)],
                   ClaimEntry(Passing(s, snapshot, todo, Choosing), id, Timeout))
  {
    hide RunsTo, ClaimEntry, WithReaper;
    PassingMoves(s, snapshot, todo, Expiring(id), Choosing);
    PassStep(Passing(s, snapshot, todo, Expiring(id)), Expire, ClaimEntry(Passing(s, snapshot, todo, Choosing), id, Timeout));
  }

  lemma ExpireIsARun(s: State, snapshot: set<JobId>, todo: map<JobId, Option<nat>>, id: JobId)
    requires LiveFree(s) && s.claims == map[] && id in s.live
    ensures RunsTo(Passing(s, snapshot, todo, Expiring(id)), ExpireSteps(id),
                   Passing(AnswerNow(s, id, Timeout), snapshot, todo, Choosing))
  {
    hide CountIn, RunsTo;
    var s0 := Passing(s, snapshot, todo, Expiring(id));
    var s1 := ClaimEntry(Passing(s, snapshot, todo, Choosing), id, Timeout);
    var s2 := CountClaim(s1, id);
    var s3 := SendClaim(s2, id);
    ExpireStep(s, snapshot, todo, id);
    OneStep(s1, ByAnswerer(CountEnding(id)), s2);
    OneStep(s2, ByAnswerer(SendResult(id)), s3);
    RunsJoin(s1, [ByAnswerer(CountEnding(id))], s2, [ByAnswerer(SendResult(id))], s3);
    RunsJoin(s0, [ByWatchdog(0, Expire)], s1, [ByAnswerer(CountEnding(id))] + [ByAnswerer(SendResult(id))], s3);
  }

  /** One expired entry, handled without interruption. */
  function ReapNow(s: State, id: JobId, runningOn: Option<nat>): State {
    AnswerNow(Wedge(s, runningOn), id, Timeout)
  }

  function ReapSteps(id: JobId, runningOn: Option<nat>): seq<Step> {
    [ByWatchdog(0, Pick(id))]
    + ((if runningOn.Some? then [ByWatchdog(0, CountWedged)] + [ByWatchdog(0, Kill)] else []) + ExpireSteps(id))
  }

  function AfterPick(id: JobId, runningOn: Option<nat>): ReapPhase {
    if runningOn.Some? then Wedging(id, runningOn.value) else Expiring(id)
  }

  lemma PassingPicks(s: State, snapshot: set<JobId>, todo: map<JobId, Option<nat>>, id: JobId)
    requires id in todo
    ensures var t := Passing(s, snapshot, todo, Choosing);
            && 0 in t.reapers && t.reapers[0].phase.Choosing? && t.reapers[0].todo == todo
            && WithReaper(t, 0, PickExpired(t.reapers[0], id)) == Passing(s, snapshot, todo - {id}, AfterPick(id, todo[id]))
  {
  }

  lemma PickStep(s: State, snapshot: set<JobId>, todo: map<JobId, Option<nat>>, id: JobId)
    requires id in todo
    ensures RunsTo(Passing(s, snapshot, todo, Choosing), [ByWatchdog(0, Pick(id))],
                   Passing(s, snapshot, todo - {id}, AfterPick(id, todo[id])))
  {
    hide RunsTo, WithReaper, Passing, PickExpired;
    PassingPicks(s, snapshot, todo, id);
    PassStep(Passing(s, snapshot, todo, Choosing), Pick(id), Passing(s, snapshot, todo - {id}, AfterPick(id, todo[id])));
  }

  lemma WedgeKeeps(s: State, runningOn: Option<nat>)
    ensures var t := Wedge(s, runningOn); t.liveLock == s.liveLock && t.claims == s.claims && t.live == s.live
    ensures runningOn.None? ==> Wedge(s, runningOn) == s
  {
  }

  lemma ReapOneIsARun(s: State, snapshot: set<JobId>, todo: map<JobId, Option<nat>>, id: JobId)
    requires LiveFree(s) && s.claims == map[] && id in s.live && id in todo
    ensures RunsTo(Passing(s, snapshot, todo, Choosing), ReapSteps(id, todo[id]),
                   Passing(ReapNow(s, id, todo[id]), snapshot, todo - {id}, Choosing))
  {
    hide RunsTo, AnswerNow, ExpireSteps, Passing, Wedge;
    var on, rest := todo[id], todo - {id};
    var s0 := Passing(s, snapshot, todo, Choosing);
    var s1 := Passing(s, snapshot, rest, AfterPick(id, on));
    var s2 := Passing(Wedge(s, on), snapshot, rest, Expiring(id));
    var s3 := Passing(ReapNow(s, id, on), snapshot, rest, Choosing);
    PickStep(s, snapshot, todo, id);
    WedgeKeeps(s, on);
    ExpireIsARun(Wedge(s, on), snapshot, rest, id);
    if on.Some? {
      var middle := [ByWatchdog(0, CountWedged)] + [ByWatchdog(0, Kill)];
      WedgeIsARun(s, snapshot, rest, id, on.value);
      RunsJoin(s1, middle, s2, ExpireSteps(id), s3);
      RunsJoin(s0, [ByWatchdog(0, Pick(id))], s1, middle + ExpireSteps(id), s3);
    } else {
      assert [] + ExpireSteps(id) == ExpireSteps(id);
      RunsJoin(s0, [ByWatchdog(0, Pick(id))], s1, ExpireSteps(id), s3);
    }
  }

  /** A pass begins with its snapshot. */
  lemma PassBegins(s: State)
    requires LiveFree(s) && s.reapers == map[]
    ensures RunsTo(s, [ByWatchdog(0, Start)] + [ByWatchdog(0, Snapshot)],
                   Passing(s, Expired(s.live, s.clock).Keys, Expired(s.live, s.clock), Choosing))
  {
    hide RunsTo, Expired;
    var p := Reaper(s.clock, false, {}, map[], Choosing);
    var s1 := s.(reapers := map[0 := p]);
    var s2 := Passing(s, Expired(s.live, s.clock).Keys, Expired(s.live, s.clock), Choosing);
    PassStep(s, Start, s1);
    PassStep(s1, Snapshot, s2);
    RunsJoin(s, [ByWatchdog(0, Start)], s1, [ByWatchdog(0, Snapshot)], s2);
  }

  /** The next entry of a pass under way. */
  lemma PassGoesOn(
    s: State, steps: seq<Step>, t: State, snapshot: set<JobId>, todo: map<JobId, Option<nat>>, id: JobId)
    requires RunsTo(s, steps, Passing(t, snapshot, todo, Choosing))
    requires LiveFree(t) && t.claims == map[] && id in t.live && id in todo
    ensures RunsTo(s, steps + ReapSteps(id, todo[id]), Passing(ReapNow(t, id, todo[id]), snapshot, todo - {id}, Choosing))
  {
    hide *;
    ReapOneIsARun(t, snapshot, todo, id);
    RunsJoin(s, steps, Passing(t, snapshot, todo, Choosing), ReapSteps(id, todo[id]),
             Passing(ReapNow(t, id, todo[id]), snapshot, todo - {id}, Choosing));
  }

  /** A pass ends when nothing is left to handle. */
  lemma PassEnds(s: State, steps: seq<Step>, t: State, snapshot: set<JobId>, todo: map<JobId, Option<nat>>)
    requires RunsTo(s, steps, Passing(t, snapshot, todo, Choosing)) && todo == map[] && t.reapers == map[]
    ensures RunsTo(s, steps + [ByWatchdog(0, Finish)], t)
  {
    hide RunsTo;
    var last := Passing(t, snapshot, todo, Choosing);
    assert last.reapers - {0} == map[];
    PassStep(last, Finish, t);
    RunsJoin(s, steps, last, [ByWatchdog(0, Finish)], t);
  }

  /** The calls. The threads' program counters and the passes of the watchdog are not fields. */
  class Bridge {
    const cfg: Config
    var clock: nat
    var nextId: JobId
    var epoch: nat
    var live: map<JobId, Live>
    var stats: Stats
    var queue: seq<JobId>
    var workers: seq<Worker>
    var children: map<ChildId, Child>
    var sent: seq<Done>
    // History: the ids `Cancel` was called for.
    ghost var cancelCalls: set<JobId>

    ghost function View(): State
      reads this
    {
      State(cfg.queueDepth, clock, nextId, epoch, live, None, stats, queue, workers, children,
            map[], map[], sent, map[], cancelCalls, map[])
    }

    constructor (cfg: Config, count: nat)
      ensures this.cfg == cfg
      ensures count >= 1 && cfg.queueDepth >= 1 ==> Init(View())
    {
      this.cfg := cfg;
      clock, nextId, epoch := 0, 1, 0;
      live, children, cancelCalls := map[], map[], {};
      stats := Stats(0, 0, 0, 0, 0, 0, 0, 0);
      queue, sent := [], [];
      workers := seq(count, _ => Worker(Receiving, None, None, None));
    }

    method Answer(id: JobId, ending: Ending)
      modifies this`live, this`stats, this`sent
      ensures View() == AnswerNow(old(View()), id, ending)
      ensures id in old(live) ==>
                && live == old(live) - {id} && sent == old(sent) + [Done(id, ending)]
                && stats.completed == old(stats).completed + (if ending == Ok then 1 else 0)
                && stats.timedOut == old(stats).timedOut + (if ending == Timeout then 1 else 0)
                && stats.cancelled == old(stats).cancelled + (if ending == Cancelled then 1 else 0)
                && stats.refused == old(stats).refused + (if ending == Refused then 1 else 0)
                && stats.failed == old(stats).failed + (if ending in {Error, LoadError, Budget} then 1 else 0)
                && stats.submitted == old(stats).submitted && stats.wedged == old(stats).wedged && stats.spawned == old(stats).spawned
      ensures id !in old(live) ==> live == old(live) && sent == old(sent) && stats == old(stats)
    {
      if id !in live {
        return;
      }
      live := live - {id};
      stats := CountIn(stats, ending);
      sent := sent + [Done(id, ending)];
      assert map[id := Claim(ending, true)] - {id} == map[];
      assert (map[][id := Claim(ending, false)])[id := Claim(ending, true)] == map[id := Claim(ending, true)];
    }

    /** A new id, its entry and its count. */
    method Enter(id: JobId, ms: nat)
      requires id == nextId
      modifies this`nextId, this`live, this`stats
      ensures View() == old(View()).(nextId := id + 1,
                        live := old(live)[id := Live(clock + ms, false, false, None)],
                        stats := old(stats).(submitted := old(stats).submitted + 1))
    {
      nextId := nextId + 1;
      live := live[id := Live(clock + ms, false, false, None)];
      stats := stats.(submitted := stats.submitted + 1);
    }

    /** `try_send`, and the answer for a job that finds the queue full. */
    method Offer(id: JobId)
      requires id in live
      modifies this`live, this`stats, this`queue, this`sent
      ensures View() == if |old(queue)| < cfg.queueDepth then old(View()).(queue := old(queue) + [id]) else AnswerNow(old(View()), id, Refused)
      ensures |old(queue)| < cfg.queueDepth ==> queue == old(queue) + [id] && live == old(live) && stats == old(stats) && sent == old(sent)
      ensures |old(queue)| >= cfg.queueDepth ==>
                && queue == old(queue) && live == old(live) - {id} && sent == old(sent) + [Done(id, Refused)]
                && stats == old(stats).(refused := old(stats).refused + 1)
    {
      hide AnswerNow, CountIn;
      if |queue| < cfg.queueDepth {
        queue := queue + [id];
      } else {
        Answer(id, Refused);
      }
    }

    method Submit(module': string, deadlineMs: Option<nat>) returns (r: Result<JobId, SubmitError>)
      modifies this`nextId, this`live, this`stats, this`queue, this`sent
      ensures r.Failure? ==> View() == old(View())
      ensures r.Failure? <==> !ModuleIsAllowed(module', cfg.roots) || (deadlineMs.Some? && deadlineMs.value > cfg.maxDeadlineMs)
      ensures r.Failure? ==>
                r.error == if !ModuleIsAllowed(module', cfg.roots) then BadModule else DeadlineTooLong(deadlineMs.value, cfg.maxDeadlineMs)
      ensures r.Success? ==>
                var ms := if deadlineMs.None? then cfg.defaultDeadlineMs else deadlineMs.value;
                && r.value == old(nextId) && nextId == r.value + 1
                && (|old(queue)| < cfg.queueDepth ==>
                      && queue == old(queue) + [r.value] && sent == old(sent)
                      && live == old(live)[r.value := Live(clock + ms, false, false, None)]
                      && stats == old(stats).(submitted := old(stats).submitted + 1))
                && (|old(queue)| >= cfg.queueDepth ==>
                      && queue == old(queue) && sent == old(sent) + [Done(r.value, Refused)]
                      && live == old(live) - {r.value}
                      && stats == old(stats).(submitted := old(stats).submitted + 1, refused := old(stats).refused + 1))
                && Runs(old(View()), SubmitSteps(old(View()), ms))
                && View() == After(old(View()), SubmitSteps(old(View()), ms))
    {
      hide ModuleIsAllowed, AnswerNow, CountIn, Runs, After, SubmitSteps;
      if !ModuleIsAllowed(module', cfg.roots) {
        return Failure(BadModule);
      }
      var ms := cfg.defaultDeadlineMs;
      if deadlineMs.Some? {
        if deadlineMs.value > cfg.maxDeadlineMs {
          return Failure(DeadlineTooLong(deadlineMs.value, cfg.maxDeadlineMs));
        }
        ms := deadlineMs.value;
      }
      var id := nextId;
      Enter(id, ms);
      Offer(id);
      SubmitIsARun(old(View()), ms);
      return Success(id);
    }

    /** Returns whether the job was still live; a job already with a worker also gets a frame on that pipe. */
    method Cancel(id: JobId, ok: bool) returns (wasLive: bool)
      requires forall x :: x in live && live[x].worker.Some? ==> live[x].worker.value < |workers|
      modifies this`live, this`workers, this`children, this`cancelCalls
      ensures wasLive == (id in old(live))
      ensures !wasLive ==> live == old(live) && workers == old(workers) && children == old(children)
      ensures wasLive ==>
                var n := old(live)[id].worker;
                && live == old(live)[id := old(live)[id].(cancelled := true)]
                && (n.None? || old(workers)[n.value].slot.None? ==> workers == old(workers) && children == old(children))
                && (n.Some? && old(workers)[n.value].slot.Some? ==>
                      var c := old(workers)[n.value].slot.value.child;
                      if ok && c in old(children) then
                        workers == old(workers)
                        && children == old(children)[c := old(children)[c].(inbox := old(children)[c].inbox + [CancelFrame(id)])]
                      else
                        children == old(children)
                        && workers == old(workers)[n.value := old(workers)[n.value].(slot := Some(Slot(c, true)))])
      ensures var marked := MarkCancelled(old(View()), id);
              View() == if marked.liveLock.Some? then SendCancel(marked, ok) else marked
    {
      cancelCalls := cancelCalls + {id};
      if id !in live {
        return false;
      }
      var e := live[id];
      live := live[id := e.(cancelled := true)];
      if e.worker.Some? {
        var n := e.worker.value;
        if workers[n].slot.Some? {
          var c := workers[n].slot.value.child;
          if ok && c in children {
            children := children[c := children[c].(inbox := children[c].inbox + [CancelFrame(id)])];
          } else {
            workers := workers[n := workers[n].(slot := Some(Slot(c, true)))];
          }
        }
      }
      return true;
    }

    method Recycle()
      modifies this`epoch
      ensures View() == Apply(old(View()), ComputeProtocol.Recycle)
    {
      epoch := epoch + 1;
    }

    /** One expired entry: its worker is killed if it was running, and it is answered for. */
    method ReapOne(id: JobId, runningOn: Option<nat>)
      requires id in live
      modifies this`live, this`stats, this`sent, this`workers
      ensures live == old(live) - {id}
      ensures sent == old(sent) + [Done(id, Timeout)]
      ensures stats == CountIn(old(stats), Timeout).(wedged := old(stats).wedged + if runningOn.Some? then 1 else 0)
      ensures workers == KilledOne(old(workers), runningOn)
      ensures View() == ReapNow(old(View()), id, runningOn)
    {
      if runningOn.Some? {
        stats := stats.(wedged := stats.wedged + 1);
        var n := runningOn.value;
        if n < |workers| {
          workers := workers[n := Break(workers[n])];
        }
      }
      Answer(id, Timeout);
    }

    /**
     One pass of the watchdog: exactly the expired entries go, each answered once and as a timeout; and
     exactly the workers they were running on are marked. It is one run of the protocol.
     */
    method ReapExpired()
      modifies this`live, this`stats, this`sent, this`workers
      ensures live == Unexpired(old(live), clock)
      ensures TimedOut(old(sent), sent, Expired(old(live), clock), {})
      ensures var expired := Expired(old(live), clock);
              && stats == old(stats).(timedOut := old(stats).timedOut + |expired|,
                          wedged := old(stats).wedged + |WedgedIds(expired, {})|)
              && KilledOnly(old(workers), workers, expired, {})
      ensures forall n :: 0 <= n < |old(workers)| ==>
                            workers[n] == if exists id :: id in old(live) && WasWedged(old(live)[id], clock, n) then Break(old(workers)[n])
                            else old(workers)[n]
      ensures exists steps :: RunsTo(old(View()), steps, View())
    {
      hide RunsTo, Passing, ReapNow, ReapSteps, Times, Break, WedgedIds, KilledOnly, KilledOne, Expired, Remaining, Unexpired, TimedOut;
      var was := live;
      ghost var was' := workers;
      var expired := Expired(live, clock);
      var todo := expired;
      ReapBegins(was, clock, workers);
      TimedOutBegins(sent, expired);
      PassBegins(View());
      ghost var steps := [ByWatchdog(0, Start)] + [ByWatchdog(0, Snapshot)];
      while todo != map[]
        invariant forall id :: id in todo ==> id in expired && todo[id] == expired[id]
        invariant live == Remaining(was, clock, todo.Keys)
        invariant TimedOut(old(sent), sent, expired, todo.Keys)
        invariant stats.timedOut + |todo| == old(stats).timedOut + |expired|
        invariant stats == old(stats).(timedOut := stats.timedOut,
                           wedged := old(stats).wedged + |WedgedIds(expired, todo.Keys)|)
        invariant KilledOnly(was', workers, expired, todo.Keys)
        invariant RunsTo(old(View()), steps, Passing(View(), expired.Keys, todo, Choosing))
        decreases |todo|
      {
        var id :| id in todo;
        ExpiredIsLive(was, clock, id);
        RemainingStep(was, clock, todo.Keys, id);
        TodoCount(todo, id);
        WedgedStep(expired, todo.Keys, id);
        KilledStep(was', workers, expired, todo.Keys, id);
        TimedOutStep(old(sent), sent, expired, todo.Keys, id);
        PassGoesOn(old(View()), steps, View(), expired.Keys, todo, id);
        steps := steps + ReapSteps(id, todo[id]);
        ReapOne(id, todo[id]);
        assert (todo - {id}).Keys == todo.Keys - {id};
        todo := todo - {id};
      }
      ReapEnds(was, clock);
      PassEnds(old(View()), steps, View(), expired.Keys, todo);
      HitsTheWedged(was, clock, was', workers);
    }
  }

  lemma ReapBegins(live: map<JobId, Live>, now: nat, workers: seq<Worker>)
    ensures var expired := Expired(live, now);
            && live == Remaining(live, now, expired.Keys) && WedgedIds(expired, expired.Keys) == {}
            && KilledOnly(workers, workers, expired, expired.Keys)
  {
  }

  /** The entry had expired while it was running on this worker. */
  predicate WasWedged(e: Live, now: nat, n: nat) {
    e.deadline <= now && e.started && n == if e.worker.Some? then e.worker.value else USIZE_MAX
  }

  lemma HitsTheWedged(live: map<JobId, Live>, now: nat, workers: seq<Worker>, workers': seq<Worker>)
    requires KilledOnly(workers, workers', Expired(live, now), {})
    ensures forall n :: 0 <= n < |workers| ==>
                          workers'[n] == if exists id :: id in live && WasWedged(live[id], now, n) then Break(workers[n]) else workers[n]
  {
    forall n | 0 <= n < |workers| ensures Hit(Expired(live, now), {}, n) <==> exists id :: id in live && WasWedged(live[id], now, n) {
      if Hit(Expired(live, now), {}, n) {
        var id :| id in Expired(live, now) && id !in {} && Expired(live, now)[id] == Some(n);
        assert WasWedged(live[id], now, n);
      }
      if id :| id in live && WasWedged(live[id], now, n) {
        assert Expired(live, now)[id] == Some(n);
      }
    }
  }

  lemma ReapEnds(live: map<JobId, Live>, now: nat)
    ensures Remaining(live, now, {}) == Unexpired(live, now)
  {
  }

  lemma ExpiredIsLive(live: map<JobId, Live>, now: nat, id: JobId)
    requires id in Expired(live, now)
    ensures id in live && live[id].deadline <= now
  {
  }
}
