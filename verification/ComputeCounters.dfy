/** Each counter of the pool counts exactly the results of its kind. */
module ComputeCounters {
  import opened Endings
  import opened ComputeProtocol
  import opened ComputeInvariants

  datatype Counter = Completed | Failed | TimedOut | Stopped | TurnedAway

  /** The counter a result belongs to: any ending without one of its own is a failure. */
  function CounterOf(ending: Ending): Counter {
    if ending == Ok then Completed
    else if ending == Timeout then TimedOut
    else if ending == Cancelled then Stopped
    else if ending == Refused then TurnedAway
    else Failed
  }

  function Reads(stats: Stats, k: Counter): nat {
    match k
    case Completed => stats.completed
    case Failed => stats.failed
    case TimedOut => stats.timedOut
    case Stopped => stats.cancelled
    case TurnedAway => stats.refused
  }

  /** How many results of that kind were sent. */
  function Sent(results: seq<Done>, k: Counter): nat {
    if results == [] then 0
    else Sent(results[..|results| - 1], k) + One(CounterOf(results[|results| - 1].ending) == k)
  }

  /** The claims of that kind that are counted and not yet sent. */
  function Held(claims: map<JobId, Claim>, k: Counter): set<JobId> {
    set id | id in claims && claims[id].counted && CounterOf(claims[id].ending) == k
  }

  ghost predicate Tallied(stats: Stats, claims: map<JobId, Claim>, results: seq<Done>) {
    forall k: Counter :: Reads(stats, k) == Sent(results, k) + |Held(claims, k)|
  }

  // ------------------------------------------------------------- the steps that count

  lemma ClaimKeepsTally(s: State, id: JobId, ending: Ending)
    requires Tallied(s.stats, s.claims, s.results) && id !in s.claims
    ensures var t := ClaimEntry(s, id, ending); Tallied(t.stats, t.claims, t.results)
  {
    var t := ClaimEntry(s, id, ending);
    forall k: Counter | true ensures Held(t.claims, k) == Held(s.claims, k) {
    }
  }

  lemma CountingReads(stats: Stats, ending: Ending, k: Counter)
    ensures Reads(CountIn(stats, ending), k) == Reads(stats, k) + One(CounterOf(ending) == k)
  {
  }

  /** The claims of a kind after one more is counted. */
  lemma CountingHolds(claims: map<JobId, Claim>, id: JobId, k: Counter)
    requires id in claims && !claims[id].counted
    ensures |Held(claims[id := claims[id].(counted := true)], k)| == |Held(claims, k)| + One(CounterOf(claims[id].ending) == k)
  {
    hide CounterOf;
    var claims' := claims[id := claims[id].(counted := true)];
    assert id !in Held(claims, k);
    forall x | x != id ensures x in Held(claims', k) <==> x in Held(claims, k) {
    }
    if CounterOf(claims[id].ending) == k {
      assert id in Held(claims', k);
      assert Held(claims', k) == Held(claims, k) + {id};
    } else {
      assert id !in Held(claims', k);
      assert Held(claims', k) == Held(claims, k);
    }
  }

  lemma CountKeepsTally(s: State, id: JobId)
    requires Tallied(s.stats, s.claims, s.results) && id in s.claims && !s.claims[id].counted
    ensures var t := CountClaim(s, id); Tallied(t.stats, t.claims, t.results)
  {
    hide CountIn, Held, CounterOf, Reads;
    var t := CountClaim(s, id);
    forall k: Counter | true ensures Reads(t.stats, k) == Sent(t.results, k) + |Held(t.claims, k)| {
      CountingReads(s.stats, s.claims[id].ending, k);
      CountingHolds(s.claims, id, k);
    }
  }

  lemma SendKeepsTally(s: State, id: JobId)
    requires Tallied(s.stats, s.claims, s.results) && id in s.claims && s.claims[id].counted
    ensures var t := SendClaim(s, id); Tallied(t.stats, t.claims, t.results)
  {
    var t, mine := SendClaim(s, id), CounterOf(s.claims[id].ending);
    assert t.results[..|t.results| - 1] == s.results;
    forall k: Counter | true ensures Reads(t.stats, k) == Sent(t.results, k) + |Held(t.claims, k)| {
      assert Held(t.claims, k) == if k == mine then Held(s.claims, k) - {id} else Held(s.claims, k);
    }
  }

  // ------------------------------------------------------------------ all the others

  /** Nothing that is counted has changed. */
  ghost predicate Uncounting(s: State, t: State) {
    && t.claims == s.claims && t.results == s.results
    && forall k: Counter :: Reads(t.stats, k) == Reads(s.stats, k)
  }

  lemma UncountingKeepsTally(s: State, t: State)
    requires Tallied(s.stats, s.claims, s.results) && Uncounting(s, t)
    ensures Tallied(t.stats, t.claims, t.results)
  {
    hide Held;
  }

  lemma ClaimThenKeepsTally(s: State, id: JobId, ending: Ending, t: State)
    requires Tallied(s.stats, s.claims, s.results) && id !in s.claims && Uncounting(ClaimEntry(s, id, ending), t)
    ensures Tallied(t.stats, t.claims, t.results)
  {
    ClaimKeepsTally(s, id, ending);
    UncountingKeepsTally(ClaimEntry(s, id, ending), t);
  }

  /** An entry that is claimed was live, so it is not claimed already; and one that is not live claims nothing. */
  lemma ClaimedOnce(s: State, id: JobId, ending: Ending, t: State)
    requires Inv(s) && Tallied(s.stats, s.claims, s.results) && Uncounting(ClaimEntry(s, id, ending), t)
    ensures Tallied(t.stats, t.claims, t.results)
  {
    if id in s.live {
      assert Stages(s.submits, s.live, s.claims, s.results, id) <= 1;
      ClaimThenKeepsTally(s, id, ending, t);
    } else {
      UncountingKeepsTally(s, t);
    }
  }

  lemma DropIsUncounting(s: State, n: nat, pc: HostPc)
    requires n < |s.workers|
    ensures Uncounting(s, DropChild(s, n, pc))
  {
  }

  lemma SendIsUncounting(s: State, n: nat, ok: bool)
    requires n < |s.workers| && s.workers[n].pc.Sending?
    ensures Uncounting(s, SendJob(s, n, ok))
  {
  }

  lemma ReadIsUncounting(s: State, n: nat, readable: bool)
    requires n < |s.workers| && CanReadDone(s, s.workers[n])
    ensures Uncounting(s, TakeDone(s, n, readable))
  {
  }

  lemma MarkIsUncounting(s: State, n: nat)
    requires n < |s.workers| && s.workers[n].pc.Got?
    ensures Uncounting(s, MarkJob(s, n))
  {
  }

  lemma DecideIsUncounting(s: State, n: nat)
    requires n < |s.workers| && s.workers[n].pc.Deciding?
    ensures Uncounting(s, DecideSpawn(s, n))
  {
  }

  lemma HostKeepsTally(s: State, n: nat, step: HostStep)
    requires Inv(s) && Tallied(s.stats, s.claims, s.results) && HostEnabled(s, n, step)
    ensures var t := HostApply(s, n, step); Tallied(t.stats, t.claims, t.results)
  {
    hide Inv, Tallied, Held, DropChild, SendJob, TakeDone, MarkJob, DecideSpawn, LocalNext, ClaimEntry;
    var w, t := s.workers[n], HostApply(s, n, step);
    if step.Answer? {
      ClaimedOnce(s, w.pc.id, w.pc.out, t);
    } else {
      match step {
        case DropStale => DropIsUncounting(s, n, Deciding(w.pc.id, w.pc.current));
        case DropBroken => DropIsUncounting(s, n, Answering(w.pc.id, w.pc.out));
        case WriteJob(ok) => SendIsUncounting(s, n, ok);
        case ReadDone(readable) => ReadIsUncounting(s, n, readable);
        case MarkStarted => MarkIsUncounting(s, n);
        case Decide => DecideIsUncounting(s, n);
        case _ =>
      }
      UncountingKeepsTally(s, t);
    }
  }

  lemma SubmitKeepsTally(s: State, step: SubmitStep)
    requires Inv(s) && Tallied(s.stats, s.claims, s.results) && SubmitEnabled(s, step)
    ensures var t := SubmitApply(s, step); Tallied(t.stats, t.claims, t.results)
  {
    hide Inv, Tallied, Held, ClaimEntry;
    if step.Refuse? {
      ClaimedOnce(s, step.id, Refused, SubmitApply(s, step));
    } else {
      UncountingKeepsTally(s, SubmitApply(s, step));
    }
  }

  lemma ReapKeepsTally(s: State, r: nat, step: ReapStep)
    requires Inv(s) && Tallied(s.stats, s.claims, s.results) && ReapEnabled(s, r, step)
    ensures var t := ReapApply(s, r, step); Tallied(t.stats, t.claims, t.results)
  {
    hide Tallied, Held, Break, TakeSnapshot, PickExpired;
    if step.Expire? {
      ExpireKeepsTally(s, r);
    } else {
      hide Inv;
      UncountingKeepsTally(s, ReapApply(s, r, step));
    }
  }

  lemma ExpireKeepsTally(s: State, r: nat)
    requires Inv(s) && Tallied(s.stats, s.claims, s.results) && ReapEnabled(s, r, Expire)
    ensures var t := ReapApply(s, r, Expire); Tallied(t.stats, t.claims, t.results)
  {
    hide Tallied, Held, Machine, Started, Reasons, Reaping, Conserved, Queued;
    var id := s.reapers[r].phase.id;
    var t := ReapApply(s, r, Expire);
    if id in s.live {
      assert Stages(s.submits, s.live, s.claims, s.results, id) <= 1;
      ClaimThenKeepsTally(s, id, Timeout, t);
    } else {
      UncountingKeepsTally(s, t);
    }
  }

  lemma CancelIsUncounting(s: State, step: CancelStep)
    requires CancelEnabled(s, step)
    ensures Uncounting(s, CancelApply(s, step))
  {
    hide MarkCancelled, SendCancel;
    match step
    case Mark(id) => MarkCancelIsUncounting(s, id);
    case WriteCancel(ok) => WriteIsUncounting(s, ok);
  }

  lemma MarkCancelIsUncounting(s: State, id: JobId)
    ensures Uncounting(s, MarkCancelled(s, id))
  {
  }

  lemma WriteIsUncounting(s: State, ok: bool)
    requires s.liveLock.Some?
    ensures Uncounting(s, SendCancel(s, ok))
  {
    hide Break;
  }

  lemma StepKeepsTally(s: State, step: Step)
    requires Inv(s) && Tallied(s.stats, s.claims, s.results) && Enabled(s, step)
    ensures var t := Apply(s, step); Tallied(t.stats, t.claims, t.results)
  {
    hide Inv, Tallied, HostApply, SubmitApply, CancelApply, ReapApply, CountClaim, SendClaim;
    match step
    case BySubmitter(sub) => SubmitKeepsTally(s, sub);
    case ByAnswerer(CountEnding(id)) => CountKeepsTally(s, id);
    case ByAnswerer(SendResult(id)) => SendKeepsTally(s, id);
    case ByCanceller(can) => CancelIsUncounting(s, can); UncountingKeepsTally(s, CancelApply(s, can));
    case ByWatchdog(r, reap) => ReapKeepsTally(s, r, reap);
    case ByHost(n, host) => HostKeepsTally(s, n, host);
    case _ => UncountingKeepsTally(s, Apply(s, step));
  }

  lemma {:induction false} RunKeepsTally(s: State, steps: seq<Step>)
    requires Inv(s) && Tallied(s.stats, s.claims, s.results) && Runs(s, steps)
    ensures var t := After(s, steps); Tallied(t.stats, t.claims, t.results)
    decreases |steps|
  {
    hide Inv, Tallied, Apply, Enabled;
    if steps != [] {
      StepKeepsInv(s, steps[0]);
      StepKeepsTally(s, steps[0]);
      RunKeepsTally(Apply(s, steps[0]), steps[1..]);
    }
  }

  /**
   In every reachable state each counter is the number of results of its kind that were sent, and of those counted
   and about to be sent; with no answer under way it is exactly the number sent.
   */
  lemma CountersCountResults(s: State, k: Counter)
    requires Reachable(s)
    ensures Reads(s.stats, k) == Sent(s.results, k) + |Held(s.claims, k)|
    ensures s.claims == map[] ==> Reads(s.stats, k) == Sent(s.results, k)
  {
    var s0, steps :| Init(s0) && Runs(s0, steps) && After(s0, steps) == s;
    InitInv(s0);
    assert forall c: Counter :: Held(s0.claims, c) == {};
    RunKeepsTally(s0, steps);
    assert s.claims == map[] ==> Held(s.claims, k) == {};
  }
}
