/** Phase A of the effect tracker: the receiver fields that a handler writes,
    directly or through the scheduler methods it calls. */
module WrittenMembers {
  import opened Wrappers
  import opened Strings
  import opened Ssa

  /** Calls whose printed form mentions this namespace are followed. */
  const TargetNamespace := "k8s.io/kubernetes/pkg/scheduler.Scheduler"

  /** Whether the field address `fa` is written: its only referrer is a store
      through it, or a load whose first referrer invokes a method on the
      loaded value.  A referrer count other than one is a panic, and so is a
      load without referrers. */
  function IsWritten(g: Graph, fa: NodeId): (r: Result<bool>)
    ensures r.Err? <==> |Refs(g, fa)| != 1 || (InstrOf(g, Refs(g, fa)[0]).UnOp? && Refs(g, Refs(g, fa)[0]) == [])
    ensures r.Ok? ==>
      var use := Refs(g, fa)[0];
      (r.value <==>
        || (InstrOf(g, use).Store? && InstrOf(g, use).addr == fa)
        || (InstrOf(g, use).UnOp? && InstrOf(g, Refs(g, use)[0]).Call?
            && InstrOf(g, Refs(g, use)[0]).mode.Invoke? && InstrOf(g, Refs(g, use)[0]).mode.recv == use))
  {
    var refs := Refs(g, fa);
    if |refs| != 1 then Err("FieldAddr's referrer should be only 1")
    else
      match InstrOf(g, refs[0])
      case Store(addr, _) => Ok(addr == fa)
      case UnOp(_) =>
        var uses := Refs(g, refs[0]);
        if uses == [] then Err("index out of range")
        else Ok(match InstrOf(g, uses[0])
                case Call(Invoke(recv, _), _, _) => recv == refs[0]
                case _ => false)
      case _ => Ok(false)
  }

  /** A field address with any referrer other than a store or a load is
      never written. */
  lemma {:induction false} OtherUseNotWritten(g: Graph, fa: NodeId)
    requires |Refs(g, fa)| == 1
    requires !InstrOf(g, Refs(g, fa)[0]).Store? && !InstrOf(g, Refs(g, fa)[0]).UnOp?
    ensures IsWritten(g, fa) == Ok(false)
  {
  }

  /** The referrers of the receiver, or none for a function without one. */
  function ReceiverUses(f: Function, g: Graph): seq<NodeId> {
    if f.hasRecv && |f.params| > 0 then Refs(g, f.params[0]) else []
  }

  /** The field addresses among `uses` that are written. */
  function WrittenAmong(g: Graph, uses: seq<NodeId>): set<NodeId> {
    if uses == [] then {}
    else
      var fa := uses[|uses| - 1];
      WrittenAmong(g, uses[..|uses| - 1]) + if InstrOf(g, fa).FieldAddr? && IsWritten(g, fa) == Ok(true) then {fa} else {}
  }

  /** The written test panics on one of the field addresses among `uses`. */
  predicate PanicAmong(g: Graph, uses: seq<NodeId>) {
    uses != [] &&
    var fa := uses[|uses| - 1];
    PanicAmong(g, uses[..|uses| - 1]) || (InstrOf(g, fa).FieldAddr? && IsWritten(g, fa).Err?)
  }

  lemma {:induction false} WrittenAmongMembers(g: Graph, uses: seq<NodeId>)
    ensures forall fa :: fa in WrittenAmong(g, uses) <==> fa in uses && InstrOf(g, fa).FieldAddr? && IsWritten(g, fa) == Ok(true)
  {
    if uses != [] {
      var init := uses[..|uses| - 1];
      WrittenAmongMembers(g, init);
      assert uses == init + [uses[|uses| - 1]];
    }
  }

  lemma {:induction false} PanicAmongMembers(g: Graph, uses: seq<NodeId>)
    ensures PanicAmong(g, uses) <==> exists fa :: fa in uses && InstrOf(g, fa).FieldAddr? && IsWritten(g, fa).Err?
  {
    if uses != [] {
      var init := uses[..|uses| - 1];
      PanicAmongMembers(g, init);
      assert uses == init + [uses[|uses| - 1]];
    }
  }

  /** The receiver field addresses that function `f` itself writes. */
  function WrittenBy(g: Graph, f: FuncId): set<NodeId> {
    WrittenAmong(g, ReceiverUses(FuncAt(g, f), g))
  }

  /** A non-invoke call whose printed form mentions the target namespace. */
  predicate IsFollowedCall(g: Graph, c: NodeId) {
    InstrOf(g, c).Call? && InstrOf(g, c).mode.Direct? && Contains(InstrOf(g, c).text, TargetNamespace)
  }

  /** The statically known callee of a direct call: a function value, or the
      function of a closure; None for a dynamic call. */
  function StaticCallee(g: Graph, c: NodeId): Option<FuncId>
    requires InstrOf(g, c).Call? && InstrOf(g, c).mode.Direct?
  {
    match InstrOf(g, InstrOf(g, c).mode.callee)
    case FuncRef(f) => Some(f)
    case MakeClosure(f, _) => Some(f)
    case _ => None
  }

  /** The callees queued for the instructions `cs`, in order. */
  function CalleesAmong(g: Graph, cs: seq<NodeId>): seq<FuncId> {
    if cs == [] then []
    else
      var c := cs[|cs| - 1];
      CalleesAmong(g, cs[..|cs| - 1]) + if IsFollowedCall(g, c) && StaticCallee(g, c).Some? then [StaticCallee(g, c).value] else []
  }

  /** Some followed call among `cs` has no static callee. */
  predicate NilCalleeAmong(g: Graph, cs: seq<NodeId>) {
    cs != [] &&
    var c := cs[|cs| - 1];
    NilCalleeAmong(g, cs[..|cs| - 1]) || (IsFollowedCall(g, c) && StaticCallee(g, c).None?)
  }

  lemma {:induction false} CalleesAmongMembers(g: Graph, cs: seq<NodeId>)
    ensures forall h :: h in CalleesAmong(g, cs) <==> exists c :: c in cs && IsFollowedCall(g, c) && StaticCallee(g, c) == Some(h)
  {
    if cs != [] {
      var init := cs[..|cs| - 1];
      CalleesAmongMembers(g, init);
      assert cs == init + [cs[|cs| - 1]];
    }
  }

  lemma {:induction false} NilCalleeAmongMembers(g: Graph, cs: seq<NodeId>)
    ensures NilCalleeAmong(g, cs) <==> exists c :: c in cs && IsFollowedCall(g, c) && StaticCallee(g, c).None?
  {
    if cs != [] {
      var init := cs[..|cs| - 1];
      NilCalleeAmongMembers(g, init);
      assert cs == init + [cs[|cs| - 1]];
    }
  }

  /** The functions Phase A moves on to from `f`. */
  function Successors(g: Graph, f: FuncId): set<FuncId> {
    set h | h in CalleesAmong(g, Instrs(FuncAt(g, f)))
  }

  /** Processing `f` panics: the written test fails on one of its receiver
      fields, or a followed call has no static callee (the source queues a
      nil function and dereferences it when it is dequeued). */
  predicate Panics(g: Graph, f: FuncId) {
    PanicAmong(g, ReceiverUses(FuncAt(g, f), g)) || NilCalleeAmong(g, Instrs(FuncAt(g, f)))
  }

  /** The call edges Phase A follows, as a function from caller to callees. */
  ghost function Edges(g: Graph): FuncId -> set<FuncId> {
    f => Successors(g, f)
  }

  ghost predicate IsPath(edges: FuncId -> set<FuncId>, p: seq<FuncId>) {
    forall i :: 0 <= i < |p| - 1 ==> p[i + 1] in edges(p[i])
  }

  /** `f` is reached from `root` along `edges`. */
  ghost predicate ReachableIn(edges: FuncId -> set<FuncId>, root: FuncId, f: FuncId) {
    exists p :: |p| >= 1 && p[0] == root && p[|p| - 1] == f && IsPath(edges, p)
  }

  /** `f` is reached from `root` by following calls. */
  ghost predicate Reachable(g: Graph, root: FuncId, f: FuncId) {
    ReachableIn(Edges(g), root, f)
  }

  lemma ReachableRoot(edges: FuncId -> set<FuncId>, root: FuncId)
    ensures ReachableIn(edges, root, root)
  {
    assert IsPath(edges, [root]);
  }

  lemma {:induction false} ReachableStep(edges: FuncId -> set<FuncId>, root: FuncId, f: FuncId, h: FuncId)
    requires ReachableIn(edges, root, f) && h in edges(f)
    ensures ReachableIn(edges, root, h)
  {
    var p :| |p| >= 1 && p[0] == root && p[|p| - 1] == f && IsPath(edges, p);
    var q := p + [h];
    assert IsPath(edges, q);
  }

  lemma {:induction false} PathInClosed(edges: FuncId -> set<FuncId>, p: seq<FuncId>, s: set<FuncId>)
    requires |p| >= 1 && p[0] in s && IsPath(edges, p)
    requires forall x, y :: x in s && y in edges(x) ==> y in s
    ensures p[|p| - 1] in s
  {
    if |p| > 1 {
      var q := p[..|p| - 1];
      assert IsPath(edges, q);
      PathInClosed(edges, q, s);
      assert p[|p| - 1] in edges(q[|q| - 1]);
    }
  }

  /** A set that holds `root` and is closed under `edges` holds every
      function reachable from `root`. */
  lemma {:induction false} ClosedHoldsReachable(edges: FuncId -> set<FuncId>, root: FuncId, s: set<FuncId>, f: FuncId)
    requires root in s
    requires forall x, y :: x in s && y in edges(x) ==> y in s
    requires ReachableIn(edges, root, f)
    ensures f in s
  {
    var p :| |p| >= 1 && p[0] == root && p[|p| - 1] == f && IsPath(edges, p);
    PathInClosed(edges, p, s);
  }

  /** The breadth-first search frontier: everything seen is reachable, and
      every visited node has its successors seen. */
  ghost predicate Frontier(edges: FuncId -> set<FuncId>, root: FuncId, visited: set<FuncId>, queue: seq<FuncId>) {
    && (forall x :: x in queue ==> ReachableIn(edges, root, x))
    && (root in visited || root in queue)
    && (forall f :: f in visited ==> ReachableIn(edges, root, f))
    && (forall f, h :: f in visited && h in edges(f) ==> h in visited || h in queue)
  }

  lemma FrontierSkip(edges: FuncId -> set<FuncId>, root: FuncId, visited: set<FuncId>, queue: seq<FuncId>)
    requires queue != [] && queue[0] in visited
    requires Frontier(edges, root, visited, queue)
    ensures Frontier(edges, root, visited, queue[1..])
  {
    assert forall x :: x in queue ==> x == queue[0] || x in queue[1..];
  }

  lemma FrontierVisit(edges: FuncId -> set<FuncId>, root: FuncId, visited: set<FuncId>, queue: seq<FuncId>, next: seq<FuncId>)
    requires queue != []
    requires Frontier(edges, root, visited, queue)
    requires forall h :: h in next <==> h in edges(queue[0])
    ensures Frontier(edges, root, visited + {queue[0]}, queue[1..] + next)
  {
    assert forall x :: x in queue ==> x == queue[0] || x in queue[1..];
    forall h | h in next
      ensures ReachableIn(edges, root, h)
    {
      ReachableStep(edges, root, queue[0], h);
    }
  }

  /** An exhausted search has visited everything reachable. */
  lemma FrontierDone(edges: FuncId -> set<FuncId>, root: FuncId, visited: set<FuncId>)
    requires Frontier(edges, root, visited, [])
    ensures forall f :: ReachableIn(edges, root, f) <==> f in visited
  {
    forall f | ReachableIn(edges, root, f)
      ensures f in visited
    {
      ClosedHoldsReachable(edges, root, visited, f);
    }
  }

  /** Every successor is a function of the program. */
  lemma SuccessorsInRange(g: Graph, f: FuncId, h: FuncId)
    requires WellFormed(g) && h in Successors(g, f)
    ensures h < |g.funcs|
  {
    CalleesAmongMembers(g, Instrs(FuncAt(g, f)));
    var c :| c in Instrs(FuncAt(g, f)) && IsFollowedCall(g, c) && StaticCallee(g, c) == Some(h);
    WellFormedAt(g, InstrOf(g, c).mode.callee);
  }

  /** One step of Phase A on `f`: add the receiver fields `f` writes to
      `written` and return, in order, the callees to queue. */
  method TrackSingleFunction(g: Graph, f: FuncId, written: set<NodeId>) returns (r: Result<(set<NodeId>, seq<FuncId>)>)
    ensures r.Ok? <==> !Panics(g, f)
    ensures r.Ok? ==> r.value.0 == written + WrittenBy(g, f)
    ensures r.Ok? ==> r.value.1 == CalleesAmong(g, Instrs(FuncAt(g, f)))
  {
    var fn := FuncAt(g, f);
    var w := written;
    var uses := ReceiverUses(fn, g);
    for i := 0 to |uses|
      invariant w == written + WrittenAmong(g, uses[..i])
      invariant !PanicAmong(g, uses[..i])
    {
      assert uses[..i + 1][..i] == uses[..i];
      if InstrOf(g, uses[i]).FieldAddr? {
        var isW := IsWritten(g, uses[i]);
        if isW.Err? {
          assert PanicAmong(g, uses[..i + 1]);
          PanicAmongMembers(g, uses[..i + 1]);
          PanicAmongMembers(g, uses);
          r := Err(isW.msg);
          return;
        }
        if isW.value {
          w := w + {uses[i]};
        }
      }
    }
    assert uses[..|uses|] == uses;

    // every instruction of every block, block after block
    var queue: seq<FuncId> := [];
    var instrs := Instrs(fn);
    for i := 0 to |instrs|
      invariant queue == CalleesAmong(g, instrs[..i])
      invariant !NilCalleeAmong(g, instrs[..i])
    {
      assert instrs[..i + 1][..i] == instrs[..i];
      var c := instrs[i];
      if IsFollowedCall(g, c) {
        var callee := StaticCallee(g, c);
        if callee.None? {
          NilCalleeAmongMembers(g, instrs);
          r := Err("nil pointer dereference");
          return;
        }
        queue := queue + [callee.value];
      }
    }
    assert instrs[..|instrs|] == instrs;
    r := Ok((w, queue));
  }

  /** The set of all function ids of the program. */
  function AllFuncs(g: Graph): set<FuncId> {
    Below(|g.funcs|)
  }

  /** The fields written by the functions in `fs`. */
  ghost function WrittenByAll(g: Graph, fs: set<FuncId>): set<NodeId> {
    set f, fa | f in fs && fa in WrittenBy(g, f) :: fa
  }

  lemma WrittenByAllAdd(g: Graph, fs: set<FuncId>, f: FuncId)
    ensures WrittenByAll(g, fs + {f}) == WrittenByAll(g, fs) + WrittenBy(g, f)
  {
  }

  /** What holds of Phase A's search state between two steps. */
  ghost predicate SearchState(g: Graph, handler: FuncId, visited: set<FuncId>, queue: seq<FuncId>, written: set<NodeId>) {
    && Frontier(Edges(g), handler, visited, queue)
    && visited <= AllFuncs(g)
    && (forall x :: x in queue ==> x < |g.funcs|)
    && (forall f :: f in visited ==> !Panics(g, f))
    && written == WrittenByAll(g, visited)
  }

  lemma SearchSkip(g: Graph, handler: FuncId, visited: set<FuncId>, queue: seq<FuncId>, written: set<NodeId>)
    requires SearchState(g, handler, visited, queue, written) && queue != [] && queue[0] in visited
    ensures SearchState(g, handler, visited, queue[1..], written)
  {
    FrontierSkip(Edges(g), handler, visited, queue);
    assert forall x :: x in queue[1..] ==> x in queue;
  }

  lemma SearchVisit(g: Graph, handler: FuncId, visited: set<FuncId>, queue: seq<FuncId>, written: set<NodeId>,
                    written': set<NodeId>, next: seq<FuncId>)
    requires WellFormed(g)
    requires SearchState(g, handler, visited, queue, written) && queue != []
    requires !Panics(g, queue[0])
    requires written' == written + WrittenBy(g, queue[0])
    requires next == CalleesAmong(g, Instrs(FuncAt(g, queue[0])))
    ensures SearchState(g, handler, visited + {queue[0]}, queue[1..] + next, written')
  {
    var f := queue[0];
    CalleesInRange(g, f, next);
    FrontierVisit(Edges(g), handler, visited, queue, next);
    WrittenByAllAdd(g, visited, f);
    QueueInRange(g, queue, next);
  }

  lemma CalleesInRange(g: Graph, f: FuncId, next: seq<FuncId>)
    requires WellFormed(g)
    requires next == CalleesAmong(g, Instrs(FuncAt(g, f)))
    ensures forall h :: h in next ==> h < |g.funcs| && h in Edges(g)(f)
  {
    forall h | h in next
      ensures h < |g.funcs| && h in Edges(g)(f)
    {
      SuccessorsInRange(g, f, h);
    }
  }

  lemma QueueInRange(g: Graph, queue: seq<FuncId>, next: seq<FuncId>)
    requires queue != []
    requires forall x :: x in queue ==> x < |g.funcs|
    requires forall x :: x in next ==> x < |g.funcs|
    ensures queue[0] in AllFuncs(g)
    ensures forall x :: x in queue[1..] + next ==> x < |g.funcs|
  {
    assert queue[0] in queue;
    forall x | x in queue[1..] + next
      ensures x < |g.funcs|
    {
      if x !in next {
        assert x in queue;
      }
    }
  }

  /** Phase A: breadth-first over followed callees from `handler`, collecting
      the receiver fields every visited function writes.  The `visited` guard
      is an addition: the source queues a callee again every time it is
      called and loops forever on recursive callees; on programs where the
      source terminates the guard only skips repeated work. */
  method FindWrittenMembers(g: Graph, handler: FuncId) returns (r: Result<set<NodeId>>)
    requires WellFormed(g) && handler < |g.funcs|
    ensures r.Ok? <==> forall f :: Reachable(g, handler, f) ==> !Panics(g, f)
    ensures r.Ok? ==> forall fa :: fa in r.value <==> exists f :: Reachable(g, handler, f) && fa in WrittenBy(g, f)
  {
    var written: set<NodeId> := {};
    var visited: set<FuncId> := {};
    var queue: seq<FuncId> := [handler];
    ReachableRoot(Edges(g), handler);
    while queue != []
      invariant SearchState(g, handler, visited, queue, written)
      decreases AllFuncs(g) - visited, |queue|
    {
      var f := queue[0];
      if f in visited {
        SearchSkip(g, handler, visited, queue, written);
        queue := queue[1..];
      } else {
        var step := TrackSingleFunction(g, f, written);
        if step.Err? {
          assert Reachable(g, handler, f);
          r := Err(step.msg);
          return;
        }
        SearchVisit(g, handler, visited, queue, written, step.value.0, step.value.1);
        visited := visited + {f};
        written := step.value.0;
        queue := queue[1..] + step.value.1;
      }
    }
    FrontierDone(Edges(g), handler, visited);
    r := Ok(written);
  }
}
