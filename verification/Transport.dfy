/**
 From a value in one VM to the same value in another: copied out, encoded, framed, sent down a pipe
 that may break anywhere, unframed, decoded and rebuilt.
 */
module Transport {
  import opened Wrappers
  import opened Bytes
  import opened Wire
  import opened WireLimits
  import opened Messages
  import opened Frames
  import opened LuaHeap
  import opened Marshal
  import opened MarshalContent
  import opened MarshalRebuild
  import opened MarshalCopies
  import opened MarshalTheorems
  import opened MarshalChoices

  /** A job as the caller has it: the argument is a value in some heap. */
  datatype Outgoing = Outgoing(heap: Heap, vm: Vm, value: LuaValue, id: u64, mod: Text, func: Text, deadlineMs: u64)

  /** The argument can be copied out under these limits, and a machine can count its values. */
  ghost predicate Copyable(o: Outgoing, limits: Limits) {
    && Sound(o.heap) && Legal(o.heap, o.vm) && Valid(o.heap, o.value)
    && HeapFits(o.heap) && ValueFits(o.value) && TextFits(o.mod) && TextFits(o.func)
    && FromLua(o.heap, o.vm, o.value, 0, limits, limits.nodes).Success?
    && Nodes(FromLua(o.heap, o.vm, o.value, 0, limits, limits.nodes).value.0) < I64_MAX
  }

  ghost function Argument(o: Outgoing, limits: Limits): LuaData
    requires Copyable(o, limits)
  {
    FromLua(o.heap, o.vm, o.value, 0, limits, limits.nodes).value.0
  }

  ghost function Message(o: Outgoing, limits: Limits): ToWorker
    requires Copyable(o, limits)
  {
    Job(o.id, o.mod, o.func, Argument(o, limits), o.deadlineMs)
  }

  lemma ArgumentFits(o: Outgoing, limits: Limits)
    requires Copyable(o, limits)
    ensures ToWorkerFits(Message(o, limits)) && Nodes(Argument(o, limits)) < I64_MAX
    ensures Height(Argument(o, limits)) <= limits.depth
  {
    CopyKeepsContent(o.heap, o.vm, o.value, limits, []);
    HeightWithinLevels(Argument(o, limits));
  }

  /** The frame body of a job. */
  ghost function BodyOf(o: Outgoing, limits: Limits): seq<byte>
    requires Copyable(o, limits)
  {
    ArgumentFits(o, limits);
    EncodeToWorker(Message(o, limits))
  }

  ghost predicate Sendable(os: seq<Outgoing>, limits: Limits) {
    forall i :: 0 <= i < |os| ==> Copyable(os[i], limits) && |BodyOf(os[i], limits)| <= MAX_FRAME
  }

  ghost function Bodies(os: seq<Outgoing>, limits: Limits): (bodies: seq<seq<byte>>)
    requires Sendable(os, limits)
    ensures |bodies| == |os| && forall i :: 0 <= i < |os| ==> bodies[i] == BodyOf(os[i], limits)
  {
    seq(|os|, i requires 0 <= i < |os| => BodyOf(os[i], limits))
  }

  /** The values rebuilt one after the other in one VM, and its heap afterwards. */
  function RebuildAll(h: Heap, args: seq<LuaData>): (r: (Heap, seq<LuaValue>))
    ensures |r.1| == |args|
    decreases |args|
  {
    if args == [] then (h, [])
    else
      var (h1, v) := ToLua(h, args[0]);
      var (h2, vs) := RebuildAll(h1, args[1..]);
      (h2, [v] + vs)
  }

  lemma {:induction false} RebuildAllUnfolds(h: Heap, args: seq<LuaData>)
    requires forall i :: 0 <= i < |args| ==> WellFormed(args[i]) && Nodes(args[i]) < I64_MAX
    ensures var (h', vs) := RebuildAll(h, args);
            Extends(h, h') && forall i :: 0 <= i < |args| ==> Unfolds(h', 0, vs[i], ContentOf(args[i]))
    decreases |args|
  {
    hide WellFormed, Unfolds, ContentOf;
    if args != [] {
      var (h1, v) := ToLua(h, args[0]);
      ToLuaUnfolds(h, args[0]);
      RebuildAllUnfolds(h1, args[1..]);
      var h' := RebuildAll(h, args).0;
      UnfoldsFrame(h1, h', |h|, 0, v, ContentOf(args[0]));
    }
  }

  /**
   A frame body that arrives decodes to the job that was sent if its argument nests within the wire's
   bound, as it does under any limit within that bound; else the worker refuses it.
   */
  lemma Arrives(o: Outgoing, limits: Limits)
    requires Copyable(o, limits) && |BodyOf(o, limits)| <= MAX_FRAME
    ensures DecodeToWorker(BodyOf(o, limits))
         == if Height(Argument(o, limits)) <= MAX_DEPTH then Success(Message(o, limits)) else Failure(DecodeError.TooDeep)
    ensures limits.depth <= MAX_DEPTH ==> Height(Argument(o, limits)) <= MAX_DEPTH
  {
    ArgumentFits(o, limits);
    var body := BodyOf(o, limits);
    assert body + [] == body;
    ToWorkerRoundTrip(Message(o, limits), []);
  }

  // ------------------------------------------------------------- too deep a job

  /** `n` lists, each the one item of the next. */
  function Nested(n: nat): LuaData {
    if n == 0 then Bool(true) else Table([Nested(n - 1)], [])
  }

  lemma {:induction false} NestedMeasures(n: nat)
    ensures WellFormed(Nested(n)) && Tight(Nested(n))
    ensures Height(Nested(n)) == Levels(Nested(n)) == n && Nodes(Nested(n)) == n + 1
    decreases n
  {
    if n > 0 {
      NestedMeasures(n - 1);
      OneItemList(Nested(n - 1));
    }
  }

  lemma OneItemList(d: LuaData)
    ensures Height(Table([d], [])) == 1 + Height(d) && Levels(Table([d], [])) == 1 + Levels(d)
    ensures Nodes(Table([d], [])) == 1 + Nodes(d)
  {
    assert [d][1..] == [];
    assert ItemsHeight([d]) == Max(1 + Height(d), ItemsHeight([]));
    assert ItemsLevels([d]) == Max(Levels(d), ItemsLevels([]));
    assert ItemsNodes([d]) == Nodes(d) + ItemsNodes([]);
  }

  lemma {:induction false} NestedLength(n: nat)
    requires WellFormed(Nested(n))
    ensures |PutData(Nested(n))| == 17 * n + 2
    decreases n
  {
    if n > 0 {
      assert WellFormed([Nested(n - 1)][0]);
      NestedLength(n - 1);
      OneItemLength(Nested(n - 1));
    }
  }

  lemma OneItemLength(d: LuaData)
    requires WellFormed(d) && WellFormed(Table([d], []))
    ensures |PutData(Table([d], []))| == 17 + |PutData(d)|
  {
    assert [d][1..] == [];
    assert PutItems([d]) == PutData(d) + PutItems([]);
    assert PutEntries([]) == [];
  }

  lemma SetFieldFits(h: Heap, r: nat, i: nat, v: LuaValue)
    requires HeapFits(h) && ValueFits(v)
    ensures HeapFits(SetField(h, r, i, v))
  {
  }

  lemma {:induction false} NestedFits(h: Heap, n: nat)
    requires HeapFits(h)
    ensures HeapFits(ToLua(h, Nested(n)).0) && ValueFits(ToLua(h, Nested(n)).1)
    decreases n
  {
    if n > 0 {
      hide HeapFits;
      var h0, items := h + [map[]], [Nested(n - 1)];
      EmptyTableFits(h);
      NestedFits(h0, n - 1);
      var (h1, v) := ToLua(h0, items[0]);
      SetFieldFits(h1, |h|, 1, v);
      assert items[1..] == [];
      assert SetItems(h0, |h|, 0, items) == SetField(h1, |h|, 1, v);
    }
  }

  lemma EmptyTableFits(h: Heap)
    requires HeapFits(h)
    ensures HeapFits(h + [map[]])
  {
  }

  /** Under a limit above 256 there is a job that can be sent and that the worker refuses to decode. */
  lemma TooDeepForTheWire() returns (o: Outgoing, limits: Limits)
    ensures limits.depth == MAX_DEPTH + 1
    ensures Copyable(o, limits) && |BodyOf(o, limits)| <= MAX_FRAME
    ensures DecodeToWorker(BodyOf(o, limits)) == Failure(DecodeError.TooDeep)
  {
    hide WellFormed, Tight, Unfolds, ContentOf, Reads, ToLua, FromLua, HeapFits, PutData, Nested, DecodeToWorker;
    var n := MAX_DEPTH + 1;
    var d := Nested(n);
    limits := Limits(n, n + 1);
    NestedMeasures(n);
    NestedLength(n);
    NothingFits();
    NestedFits([], n);
    var (h, v) := ToLua([], d);
    IdentityIffTight([], d);
    ToLuaUnfolds([], d);
    TightReads(h, v, d);
    CopiesAreTheFaithful(h, v, d);
    var vm :| Legal(h, vm) && FromLua(h, vm, v, 0, limits, n + 1) == Success((d, 0));
    assert TextFits([]);
    o := Outgoing(h, vm, v, 0, [], [], 0);
    Arrives(o, limits);
  }

  lemma NothingFits()
    ensures HeapFits([])
  {
  }

  /** What a receiver holds after reading a stream: one decoded job for each whole frame. */
  ghost predicate Receives(bodies: seq<seq<byte>>, os: seq<Outgoing>, limits: Limits, args: seq<LuaData>)
    requires Sendable(os, limits)
  {
    && |bodies| == |args| <= |os|
    && forall i :: 0 <= i < |bodies| ==>
                     DecodeToWorker(bodies[i]) == Success(Job(os[i].id, os[i].mod, os[i].func, args[i], os[i].deadlineMs))
  }

  ghost predicate SameContent(h: Heap, v: LuaValue, h': Heap, v': LuaValue) {
    exists c :: Unfolds(h, 0, v, c) && Unfolds(h', 0, v', c)
  }

  /**
   Jobs sent in order down a pipe that breaks after `cut` bytes. The receiver gets the first `whole`
   of them, those whose frames arrived whole; each decodes, and each argument rebuilt in the worker's VM has
   the content it had in the caller's. Then the stream ends, or fails: no other body is ever read.
   */
  lemma JobsArrive(os: seq<Outgoing>, limits: Limits, cut: nat, worker: Heap)
    returns (whole: nat, args: seq<LuaData>)
    requires Sendable(os, limits) && limits.depth <= MAX_DEPTH && cut <= |Concat(Bodies(os, limits))|
    ensures whole <= |os| && |Concat(Bodies(os, limits)[..whole])| <= cut
    ensures whole < |os| ==> cut < |Concat(Bodies(os, limits)[..whole + 1])|
    ensures var (bodies, error) := ReadAll(Concat(Bodies(os, limits))[..cut]);
            && |bodies| == whole && Receives(bodies, os, limits, args)
            && (error == None || error == Some(FrameError.Truncated))
    ensures var (h', vs) := RebuildAll(worker, args);
            Extends(worker, h') && forall i :: 0 <= i < whole ==> SameContent(os[i].heap, os[i].value, h', vs[i])
  {
    hide Unfolds, ContentOf, ReadAll, Concat;
    var bodies := Bodies(os, limits);
    whole := CutStream(bodies, cut);
    args := seq(whole, i requires 0 <= i < whole => Argument(os[i], limits));
    forall i | 0 <= i < whole
      ensures DecodeToWorker(bodies[i]) == Success(Message(os[i], limits))
      ensures WellFormed(args[i]) && Nodes(args[i]) < I64_MAX
      ensures Unfolds(os[i].heap, 0, os[i].value, ContentOf(args[i]))
    {
      var o := os[i];
      Arrives(o, limits);
      ArgumentFits(o, limits);
      FromLuaReads(o.heap, o.vm, o.value, 0, limits, limits.nodes);
      ReadsUnfolds(o.heap, o.value, args[i]);
    }
    RebuildAllUnfolds(worker, args);
  }
}
