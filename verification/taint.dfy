/** Phase C of the effect tracker: forward taint propagation along referrer
    edges inside one function, recursing into direct callees and closures
    with the parameters (or free variables) bound to tainted arguments. */
module Taint {
  import opened Ssa

  /** The instruction kinds that take taint from an operand and pass it on
      to their own referrers. */
  predicate Propagates(i: Instr) {
    i.Alloc? || i.Extract? || i.FieldAddr? || i.UnOp?
  }

  /** An allocation whose printed form is in the endpoint registry. */
  predicate IsEndpoint(g: Graph, registry: set<string>, v: NodeId) {
    InstrOf(g, v).Alloc? && InstrOf(g, v).text in registry
  }

  /** Seeds that are neither allocations nor field addresses, as read points,
      parameters and free variables are. */
  predicate SeedsPlain(g: Graph, seeds: set<NodeId>) {
    forall v :: v in seeds ==> !InstrOf(g, v).Alloc? && !InstrOf(g, v).FieldAddr?
  }

  /** The root of a chain of field addresses `&(&(&x.f).g).h`: the value the
      chain starts from, which is not itself a field address. */
  function BaseRoot(g: Graph, v: NodeId): (r: NodeId)
    requires WellFormed(g)
    ensures !InstrOf(g, r).FieldAddr?
    ensures r <= v
    ensures !InstrOf(g, v).FieldAddr? ==> r == v
    decreases v
  {
    if InstrOf(g, v).FieldAddr? then
      WellFormedAt(g, v);
      BaseRoot(g, InstrOf(g, v).x)
    else v
  }

  /** Follows the field-address chain from `addr` down to its root. */
  method FollowFieldBase(g: Graph, addr: NodeId) returns (back: NodeId)
    requires WellFormed(g)
    ensures back == BaseRoot(g, addr)
  {
    back := addr;
    while InstrOf(g, back).FieldAddr?
      invariant BaseRoot(g, back) == BaseRoot(g, addr)
      decreases back
    {
      WellFormedAt(g, back);
      back := InstrOf(g, back).x;
    }
  }

  /** `w` is the allocation a store through `addr` taints: the root of the
      address's field chain, when that root is an allocation. */
  predicate StoreOwner(g: Graph, addr: NodeId, w: NodeId)
    requires WellFormed(g)
  {
    w == BaseRoot(g, addr) && InstrOf(g, w).Alloc?
  }

  /** What the call or closure at `c` binds, position by position: the
      actuals it passes and the formals receiving them.  A direct call of a
      function binds the function's parameters, a closure its free
      variables; an interface call or a call of any other function value
      binds nothing. */
  function Binding(g: Graph, c: NodeId): (seq<NodeId>, seq<NodeId>) {
    match InstrOf(g, c)
    case Call(Direct(callee), args, _) =>
      if InstrOf(g, callee).FuncRef? then (args, FuncAt(g, InstrOf(g, callee).fn).params) else ([], [])
    case MakeClosure(fn, bindings) => (bindings, FuncAt(g, fn).freeVars)
    case _ => ([], [])
  }

  /** The instruction at `c` is a call of a function or a closure, the two
      kinds that start a nested run. */
  predicate Binds(g: Graph, c: NodeId) {
    match InstrOf(g, c)
    case Call(Direct(callee), _, _) => InstrOf(g, callee).FuncRef?
    case MakeClosure(_, _) => true
    case _ => false
  }

  /** Each actual has its formal, and every formal is a plain value. */
  lemma BindingWellFormed(g: Graph, c: NodeId)
    requires WellFormed(g)
    ensures |Binding(g, c).0| == |Binding(g, c).1|
    ensures forall p :: p in Binding(g, c).1 ==> InstrOf(g, p).Other?
  {
    WellFormedAt(g, c);
    match InstrOf(g, c)
    case Call(Direct(callee), args, _) =>
      WellFormedAt(g, callee);
    case _ =>
  }

  /** One step of taint flow out of the value `u`: to a propagating referrer
      of `u`, to the allocation a store using `u` taints, or to the formal
      that a call or closure using `u` binds to it. */
  ghost predicate Step(g: Graph, u: NodeId, w: NodeId)
    requires WellFormed(g)
  {
    || (w in Refs(g, u) && Propagates(InstrOf(g, w)))
    || (exists s :: s in Refs(g, u) && InstrOf(g, s).Store? && StoreOwner(g, InstrOf(g, s).addr, w))
    || (exists c, i :: c in Refs(g, u) && 0 <= i < |Binding(g, c).0| && i < |Binding(g, c).1| &&
                       Binding(g, c).0[i] == u && Binding(g, c).1[i] == w)
  }

  /** `S` is closed under taint steps. */
  ghost predicate LowerClosed(g: Graph, S: set<NodeId>)
    requires WellFormed(g)
  {
    forall u, w :: u in S && Step(g, u, w) ==> w in S
  }

  /** `p` is a chain of taint steps from a seed. */
  ghost predicate TaintPath(g: Graph, seeds: set<NodeId>, p: seq<NodeId>)
    requires WellFormed(g)
  {
    && |p| >= 1
    && p[0] in seeds
    && forall k :: 0 < k < |p| ==> Step(g, p[k - 1], p[k])
  }

  /** Some chain of taint steps leads from a seed to `v`. */
  ghost predicate Reaches(g: Graph, seeds: set<NodeId>, v: NodeId)
    requires WellFormed(g)
  {
    exists p :: TaintPath(g, seeds, p) && p[|p| - 1] == v
  }

  /** A closed set holding the seeds holds the end of every taint path. */
  lemma {:induction false} ClosedHoldsFlow(g: Graph, seeds: set<NodeId>, S: set<NodeId>, p: seq<NodeId>)
    requires WellFormed(g) && seeds <= S && LowerClosed(g, S)
    requires TaintPath(g, seeds, p)
    ensures p[|p| - 1] in S
  {
    if |p| > 1 {
      var q := p[..|p| - 1];
      assert TaintPath(g, seeds, q);
      ClosedHoldsFlow(g, seeds, S, q);
      assert Step(g, p[|p| - 2], p[|p| - 1]);
    }
  }

  /** With a closed set of sources whose registered allocations are all
      reported, every registered allocation reached from a seed is reported. */
  lemma FlowEndpointReported(g: Graph, registry: set<string>, seeds: set<NodeId>, S: set<NodeId>,
                             endpoints: seq<NodeId>, v: NodeId)
    requires WellFormed(g) && seeds <= S && LowerClosed(g, S)
    requires forall x :: x in S && IsEndpoint(g, registry, x) ==> x in endpoints
    requires Reaches(g, seeds, v) && IsEndpoint(g, registry, v)
    ensures v in endpoints
  {
    var p :| TaintPath(g, seeds, p) && p[|p| - 1] == v;
    ClosedHoldsFlow(g, seeds, S, p);
  }

  /** `X` (the values whose referrers may be followed) and `T` (the values
      that may be tainted) are closed under the propagation rules from
      `seeds`: a propagating referrer of a followed value is followed; a
      store using a followed value, whose stored value may be tainted, may
      taint its address and has the root allocation of the address
      followed; a call or closure using a followed value has the formal of
      every possibly tainted actual followed.  Every run stays within every
      such pair. */
  ghost predicate UpperClosed(g: Graph, seeds: set<NodeId>, X: set<NodeId>, T: set<NodeId>)
    requires WellFormed(g)
  {
    && seeds <= X && X <= T
    && (forall u, w :: u in X && w in Refs(g, u) && Propagates(InstrOf(g, w)) ==> w in X)
    && (forall u, s :: u in X && s in Refs(g, u) && InstrOf(g, s).Store? && InstrOf(g, s).val in T ==>
          && InstrOf(g, s).addr in T
          && (InstrOf(g, BaseRoot(g, InstrOf(g, s).addr)).Alloc? ==> BaseRoot(g, InstrOf(g, s).addr) in X))
    && (forall u, c, i ::
          (u in X && c in Refs(g, u) && 0 <= i < |Binding(g, c).0| && i < |Binding(g, c).1| && Binding(g, c).0[i] in T) ==>
          Binding(g, c).1[i] in X)
  }

  /** A pair closed for more seeds is closed for fewer. */
  lemma UpperClosedFewerSeeds(g: Graph, fewer: set<NodeId>, seeds: set<NodeId>, X: set<NodeId>, T: set<NodeId>)
    requires WellFormed(g) && fewer <= seeds && UpperClosed(g, seeds, X, T)
    ensures UpperClosed(g, fewer, X, T)
  {
  }

  /** A path from the seeds that starts in `other` is a path from `other`. */
  lemma ReachesFrom(g: Graph, seeds: set<NodeId>, other: set<NodeId>, p: seq<NodeId>)
    requires WellFormed(g) && TaintPath(g, seeds, p) && p[0] in other
    ensures Reaches(g, other, p[|p| - 1])
  {
    assert TaintPath(g, other, p);
  }

  /** The formals whose actual, at the same position, is tainted. */
  method BindByPosition(tainted: set<NodeId>, actuals: seq<NodeId>, formals: seq<NodeId>) returns (seeds: set<NodeId>)
    requires |actuals| <= |formals|
    ensures forall p :: p in seeds <==> exists i :: 0 <= i < |actuals| && actuals[i] in tainted && formals[i] == p
  {
    seeds := {};
    for i := 0 to |actuals|
      invariant forall p :: p in seeds <==> exists j :: 0 <= j < i && actuals[j] in tainted && formals[j] == p
    {
      if actuals[i] in tainted {
        seeds := seeds + {formals[i]};
      }
    }
  }

  /** The state of a propagation run between two dequeues: the taint set,
      the local sources (seeds and dequeued propagating instructions), the
      sources of nested runs, the allocations queued by stores, the
      endpoints found, the queue, and whether every nested run finished. */
  datatype Run = Run(tainted: set<NodeId>, local: set<NodeId>, nested: set<NodeId>, owners: set<NodeId>,
                     endpoints: seq<NodeId>, queue: seq<NodeId>, complete: bool)

  /** Dequeuing `r` with its operand `u` tainted has had its effect. */
  ghost predicate Done(g: Graph, s: Run, u: NodeId, r: NodeId)
    requires WellFormed(g)
  {
    && (Propagates(InstrOf(g, r)) ==> r in s.local)
    && (InstrOf(g, r).Store? ==> InstrOf(g, r).addr in s.tainted)
    && (forall i :: 0 <= i < |Binding(g, r).0| && i < |Binding(g, r).1| && Binding(g, r).0[i] == u ==>
          Binding(g, r).1[i] in s.local + s.nested)
  }

  /** What the queue, the sets and the endpoints satisfy between dequeues. */
  ghost predicate Basic(g: Graph, registry: set<string>, seeds: set<NodeId>, s: Run) {
    && seeds <= s.local <= s.tainted
    && (forall o :: o in s.owners ==> InstrOf(g, o).Alloc?)
    && (forall q :: q in s.queue ==> q in s.owners || exists u :: u in s.local && q in Refs(g, u))
    && (forall e :: e in s.endpoints ==> e in s.local + s.nested && IsEndpoint(g, registry, e))
    && (forall v :: v in s.local - seeds && IsEndpoint(g, registry, v) ==> v in s.endpoints)
  }

  /** Everything so far lies within every closed pair. */
  ghost predicate Sound(g: Graph, seeds: set<NodeId>, s: Run)
    requires WellFormed(g)
  {
    forall X, T :: UpperClosed(g, seeds, X, T) ==> s.tainted <= T && s.local + s.nested <= X && s.owners <= X
  }

  /** Nested runs that all finished left closed sources whose registered
      allocations are reported. */
  ghost predicate NestedComplete(g: Graph, registry: set<string>, s: Run)
    requires WellFormed(g)
  {
    s.complete ==>
      && LowerClosed(g, s.nested)
      && forall v :: v in s.nested && IsEndpoint(g, registry, v) ==> v in s.endpoints
  }

  /** Every referrer of a local source is pending or done, and every tainted
      value whose chain root is an allocation has that root pending or
      expanded. */
  ghost predicate Pending(g: Graph, s: Run)
    requires WellFormed(g)
  {
    && (forall u, r :: u in s.local && r in Refs(g, u) ==> r in s.queue || Done(g, s, u, r))
    && (forall t :: t in s.tainted && InstrOf(g, BaseRoot(g, t)).Alloc? ==>
          BaseRoot(g, t) in s.local || BaseRoot(g, t) in s.queue)
  }

  ghost predicate Inv(g: Graph, registry: set<string>, seeds: set<NodeId>, s: Run)
    requires WellFormed(g)
  {
    && Basic(g, registry, seeds, s)
    && Sound(g, seeds, s)
    && NestedComplete(g, registry, s)
    && (SeedsPlain(g, seeds) ==> Pending(g, s))
  }

  /** The state right after the referrers of every seed are queued. */
  lemma InitRun(g: Graph, registry: set<string>, seeds: set<NodeId>, queue: seq<NodeId>)
    requires WellFormed(g)
    requires forall q :: q in queue ==> exists u :: u in seeds && q in Refs(g, u)
    requires forall u, r :: u in seeds && r in Refs(g, u) ==> r in queue
    ensures Inv(g, registry, seeds, Run(seeds, seeds, {}, {}, [], queue, true))
  {
  }

  /** A dequeued instruction that was queued as a referrer of a local source,
      unless it is an allocation queued by a store. */
  lemma QueuedFrom(g: Graph, registry: set<string>, seeds: set<NodeId>, s: Run) returns (u: NodeId)
    requires Basic(g, registry, seeds, s) && s.queue != [] && !InstrOf(g, s.queue[0]).Alloc?
    ensures u in s.local && s.queue[0] in Refs(g, u)
  {
    assert s.queue[0] in s.queue;
    u :| u in s.local && s.queue[0] in Refs(g, u);
  }

  /** Dequeuing a propagating instruction: it is tainted and becomes a
      source, reported if it is a registered allocation, and its referrers
      are queued. */
  lemma ExpandStep(g: Graph, registry: set<string>, seeds: set<NodeId>, s: Run, endpoints': seq<NodeId>)
    requires WellFormed(g) && Inv(g, registry, seeds, s)
    requires s.queue != [] && Propagates(InstrOf(g, s.queue[0]))
    requires endpoints' == if IsEndpoint(g, registry, s.queue[0]) then s.endpoints + [s.queue[0]] else s.endpoints
    ensures Inv(g, registry, seeds, s.(tainted := s.tainted + {s.queue[0]}, local := s.local + {s.queue[0]},
                                       endpoints := endpoints', queue := s.queue[1..] + Refs(g, s.queue[0])))
  {
    var r := s.queue[0];
    var s' := s.(tainted := s.tainted + {r}, local := s.local + {r},
                 endpoints := endpoints', queue := s.queue[1..] + Refs(g, r));
    assert forall x :: x in s.queue ==> x == r || x in s.queue[1..];
    assert Basic(g, registry, seeds, s');
    forall X, T | UpperClosed(g, seeds, X, T)
      ensures s'.tainted <= T && s'.local + s'.nested <= X && s'.owners <= X
    {
      if !InstrOf(g, r).Alloc? {
        var u := QueuedFrom(g, registry, seeds, s);
      }
    }
    if SeedsPlain(g, seeds) {
      ExpandPending(g, registry, seeds, s, s');
    }
  }

  lemma ExpandPending(g: Graph, registry: set<string>, seeds: set<NodeId>, s: Run, s': Run)
    requires WellFormed(g) && Basic(g, registry, seeds, s) && Pending(g, s)
    requires s.queue != [] && Propagates(InstrOf(g, s.queue[0]))
    requires s' == s.(tainted := s.tainted + {s.queue[0]}, local := s.local + {s.queue[0]},
                      endpoints := s'.endpoints, queue := s.queue[1..] + Refs(g, s.queue[0]))
    ensures Pending(g, s')
  {
    var r := s.queue[0];
    assert forall x :: x in s.queue ==> x == r || x in s.queue[1..];
    forall u, r' | u in s'.local && r' in Refs(g, u)
      ensures r' in s'.queue || Done(g, s', u, r')
    {
      if u == r {
        assert r' in s'.queue;
      } else if r' == r {
        assert Done(g, s', u, r');
      } else if r' in s.queue {
        assert r' in s.queue[1..];
      } else {
        DoneGrows(g, s, s', u, r');
      }
    }
    if InstrOf(g, r).FieldAddr? {
      var u := QueuedFrom(g, registry, seeds, s);
      ReferrerUses(g, u, r);
      assert BaseRoot(g, r) == BaseRoot(g, u);
    }
  }

  /** An effect once had stays had as the sets grow. */
  lemma DoneGrows(g: Graph, s: Run, s': Run, u: NodeId, r: NodeId)
    requires WellFormed(g) && Done(g, s, u, r)
    requires s.local <= s'.local && s.tainted <= s'.tainted && s.nested <= s'.nested
    ensures Done(g, s', u, r)
  {
  }

  /** Dequeuing a store whose stored value is tainted and whose address is
      not: the address is tainted and the root allocation of the address
      chain, if any, is queued. */
  lemma StoreFires(g: Graph, registry: set<string>, seeds: set<NodeId>, s: Run, pushed: seq<NodeId>)
    requires WellFormed(g) && Inv(g, registry, seeds, s)
    requires s.queue != [] && InstrOf(g, s.queue[0]).Store?
    requires InstrOf(g, s.queue[0]).val in s.tainted && InstrOf(g, s.queue[0]).addr !in s.tainted
    requires pushed == var back := BaseRoot(g, InstrOf(g, s.queue[0]).addr);
                       if InstrOf(g, back).Alloc? then [back] else []
    ensures Inv(g, registry, seeds, s.(tainted := s.tainted + {InstrOf(g, s.queue[0]).addr},
                                       owners := s.owners + (set x | x in pushed), queue := s.queue[1..] + pushed))
  {
    var r := s.queue[0];
    var addr := InstrOf(g, r).addr;
    var s' := s.(tainted := s.tainted + {addr}, owners := s.owners + (set x | x in pushed), queue := s.queue[1..] + pushed);
    var u := QueuedFrom(g, registry, seeds, s);
    DequeueBasic(g, registry, seeds, s);
    assert Basic(g, registry, seeds, s');
    forall X, T | UpperClosed(g, seeds, X, T)
      ensures s'.tainted <= T && s'.local + s'.nested <= X && s'.owners <= X
    {
      assert u in X && r in Refs(g, u);
    }
    assert NestedComplete(g, registry, s');
    if SeedsPlain(g, seeds) {
      StorePending(g, s, pushed);
    }
  }

  lemma StorePending(g: Graph, s: Run, pushed: seq<NodeId>)
    requires WellFormed(g) && Pending(g, s)
    requires s.queue != [] && InstrOf(g, s.queue[0]).Store?
    requires pushed == var back := BaseRoot(g, InstrOf(g, s.queue[0]).addr);
                       if InstrOf(g, back).Alloc? then [back] else []
    ensures Pending(g, s.(tainted := s.tainted + {InstrOf(g, s.queue[0]).addr},
                          owners := s.owners + (set x | x in pushed), queue := s.queue[1..] + pushed))
  {
    var r := s.queue[0];
    var addr := InstrOf(g, r).addr;
    var s' := s.(tainted := s.tainted + {addr}, owners := s.owners + (set x | x in pushed), queue := s.queue[1..] + pushed);
    assert forall x :: x in s.queue ==> x == r || x in s'.queue;
    forall u, r' | u in s'.local && r' in Refs(g, u)
      ensures r' in s'.queue || Done(g, s', u, r')
    {
      if r' != r && r' !in s'.queue {
        assert Done(g, s, u, r');
      }
    }
  }

  /** Dequeuing a store that changes nothing: its stored value is not
      tainted, or its address already is. */
  lemma StoreSkips(g: Graph, registry: set<string>, seeds: set<NodeId>, s: Run)
    requires WellFormed(g) && Inv(g, registry, seeds, s)
    requires s.queue != [] && InstrOf(g, s.queue[0]).Store?
    requires !(InstrOf(g, s.queue[0]).val in s.tainted && InstrOf(g, s.queue[0]).addr !in s.tainted)
    ensures Inv(g, registry, seeds, s.(queue := s.queue[1..]))
  {
    var r := s.queue[0];
    var s' := s.(queue := s.queue[1..]);
    DequeueBasic(g, registry, seeds, s);
    assert Sound(g, seeds, s');
    assert NestedComplete(g, registry, s');
    if SeedsPlain(g, seeds) {
      forall u | u in s.local && r in Refs(g, u)
        ensures Done(g, s, u, r)
      {
        ReferrerUses(g, u, r);
      }
      DequeuePending(g, s, s');
    }
  }

  /** Dequeuing an instruction that binds nothing, stores nothing and does
      not propagate. */
  lemma IgnoreStep(g: Graph, registry: set<string>, seeds: set<NodeId>, s: Run)
    requires WellFormed(g) && Inv(g, registry, seeds, s)
    requires s.queue != [] && !Propagates(InstrOf(g, s.queue[0])) && !InstrOf(g, s.queue[0]).Store?
    requires Binding(g, s.queue[0]).0 == []
    ensures Inv(g, registry, seeds, s.(queue := s.queue[1..]))
  {
    var s' := s.(queue := s.queue[1..]);
    DequeueBasic(g, registry, seeds, s);
    assert Sound(g, seeds, s');
    assert NestedComplete(g, registry, s');
    if SeedsPlain(g, seeds) {
      DequeuePending(g, s, s');
    }
  }

  /** Dropping the head of the queue keeps the queue's origins. */
  lemma DequeueBasic(g: Graph, registry: set<string>, seeds: set<NodeId>, s: Run)
    requires Basic(g, registry, seeds, s) && s.queue != []
    ensures Basic(g, registry, seeds, s.(queue := s.queue[1..]))
  {
    assert forall x :: x in s.queue[1..] ==> x in s.queue;
  }

  /** Dropping the head of the queue keeps everything pending once the head
      has had its effect for every source it uses. */
  lemma DequeuePending(g: Graph, s: Run, s': Run)
    requires WellFormed(g) && Pending(g, s) && s.queue != []
    requires !InstrOf(g, s.queue[0]).Alloc?
    requires forall u :: u in s.local && s.queue[0] in Refs(g, u) ==> Done(g, s, u, s.queue[0])
    requires s'.tainted == s.tainted && s'.local == s.local && s'.nested == s.nested && s'.queue == s.queue[1..]
    ensures Pending(g, s')
  {
    var r := s.queue[0];
    assert forall x :: x in s.queue ==> x == r || x in s.queue[1..];
    forall u, r' | u in s'.local && r' in Refs(g, u)
      ensures r' in s'.queue || Done(g, s', u, r')
    {
      if r' !in s'.queue {
        assert Done(g, s, u, r');
      }
    }
  }

  /** Dequeuing a call or closure that binds the formals `inner` of its
      tainted actuals, after a nested run from `inner` found `found` and
      followed `sources`. */
  lemma BindStep(g: Graph, registry: set<string>, seeds: set<NodeId>, s: Run,
                 inner: set<NodeId>, found: seq<NodeId>, sources: set<NodeId>, done: bool)
    requires WellFormed(g) && Inv(g, registry, seeds, s)
    requires s.queue != [] && !Propagates(InstrOf(g, s.queue[0])) && !InstrOf(g, s.queue[0]).Store?
    requires forall p :: p in inner <==> exists i :: 0 <= i < |Binding(g, s.queue[0]).0| && i < |Binding(g, s.queue[0]).1| &&
                                                   Binding(g, s.queue[0]).0[i] in s.tainted && Binding(g, s.queue[0]).1[i] == p
    requires inner <= sources
    requires forall X, T :: UpperClosed(g, inner, X, T) ==> sources <= X
    requires forall e :: e in found ==> e in sources && IsEndpoint(g, registry, e)
    requires done ==> LowerClosed(g, sources) && forall v :: v in sources && IsEndpoint(g, registry, v) ==> v in found
    ensures Inv(g, registry, seeds, s.(nested := s.nested + sources, endpoints := s.endpoints + found,
                                       queue := s.queue[1..], complete := s.complete && done))
  {
    var r := s.queue[0];
    var s2 := s.(nested := s.nested + sources);
    var s' := s2.(endpoints := s.endpoints + found, queue := s.queue[1..], complete := s.complete && done);
    var u := QueuedFrom(g, registry, seeds, s);
    DequeueBasic(g, registry, seeds, s);
    assert Basic(g, registry, seeds, s');
    forall X, T | UpperClosed(g, seeds, X, T)
      ensures s'.tainted <= T && s'.local + s'.nested <= X && s'.owners <= X
    {
      InnerWithin(g, seeds, inner, X, T, u, r, s.tainted);
    }
    if s'.complete {
      LowerClosedUnion(g, s.nested, sources);
    }
    assert NestedComplete(g, registry, s');
    if SeedsPlain(g, seeds) {
      GrowNested(g, s, sources);
      forall v | v in s.local && r in Refs(g, v)
        ensures Done(g, s2, v, r)
      {
      }
      DequeuePending(g, s2, s');
    }
  }

  /** The formals bound by a call or closure that uses a followed value lie
      within every closed pair. */
  lemma InnerWithin(g: Graph, seeds: set<NodeId>, inner: set<NodeId>, X: set<NodeId>, T: set<NodeId>,
                    u: NodeId, r: NodeId, tainted: set<NodeId>)
    requires WellFormed(g) && UpperClosed(g, seeds, X, T)
    requires u in X && r in Refs(g, u) && tainted <= T
    requires forall p :: p in inner <==> exists i :: 0 <= i < |Binding(g, r).0| && i < |Binding(g, r).1| &&
                                                   Binding(g, r).0[i] in tainted && Binding(g, r).1[i] == p
    ensures UpperClosed(g, inner, X, T)
  {
  }

  lemma LowerClosedUnion(g: Graph, A: set<NodeId>, B: set<NodeId>)
    requires WellFormed(g) && LowerClosed(g, A) && LowerClosed(g, B)
    ensures LowerClosed(g, A + B)
  {
  }

  /** More nested sources keep everything pending. */
  lemma GrowNested(g: Graph, s: Run, more: set<NodeId>)
    requires WellFormed(g) && Pending(g, s)
    ensures Pending(g, s.(nested := s.nested + more))
  {
    var s' := s.(nested := s.nested + more);
    forall u, r | u in s.local && r in Refs(g, u) && r !in s.queue
      ensures Done(g, s', u, r)
    {
      assert Done(g, s, u, r);
    }
  }

  /** At the end of a finished run from plain seeds, the sources are closed
      under taint steps and their registered allocations are all reported. */
  lemma FinishRun(g: Graph, registry: set<string>, seeds: set<NodeId>, s: Run)
    requires WellFormed(g) && Inv(g, registry, seeds, s)
    requires s.queue == [] && s.complete && SeedsPlain(g, seeds)
    ensures LowerClosed(g, s.local + s.nested)
    ensures forall v :: v in s.local + s.nested && IsEndpoint(g, registry, v) ==> v in s.endpoints
  {
    forall u, w | u in s.local + s.nested && Step(g, u, w)
      ensures w in s.local + s.nested
    {
      if u in s.local {
        if w in Refs(g, u) && Propagates(InstrOf(g, w)) {
          assert Done(g, s, u, w);
        } else if exists st :: st in Refs(g, u) && InstrOf(g, st).Store? && StoreOwner(g, InstrOf(g, st).addr, w) {
          var st :| st in Refs(g, u) && InstrOf(g, st).Store? && StoreOwner(g, InstrOf(g, st).addr, w);
          assert Done(g, s, u, st);
        } else {
          var c, i :| c in Refs(g, u) && 0 <= i < |Binding(g, c).0| && i < |Binding(g, c).1| &&
                      Binding(g, c).0[i] == u && Binding(g, c).1[i] == w;
          assert Done(g, s, u, c);
        }
      }
    }
  }

  /** The referrers of every seed, seeds taken in any order. */
  method QueueReferrers(g: Graph, seeds: set<NodeId>) returns (queue: seq<NodeId>)
    ensures forall q :: q in queue ==> exists u :: u in seeds && q in Refs(g, u)
    ensures forall u, r :: u in seeds && r in Refs(g, u) ==> r in queue
  {
    queue := [];
    var rest := seeds;
    while rest != {}
      invariant rest <= seeds
      invariant forall q :: q in queue ==> exists u :: u in seeds && q in Refs(g, u)
      invariant forall u, r :: u in seeds - rest && r in Refs(g, u) ==> r in queue
      decreases rest
    {
      var key :| key in rest;
      queue := queue + Refs(g, key);
      rest := rest - {key};
    }
  }

  /** Phase C: propagates taint from `seeds` along referrer edges and
      returns, in discovery order, the registered allocations reached,
      including those reached inside callees and closures.

      `fuel` bounds the number of dequeues, an addition: the source has no
      guard and may run forever on a recursive callee.  `complete` reports
      that no guard was hit here or in a nested call; `tainted` is the final
      taint set (the source grows the caller's map in place) and `sources`
      the values whose referrers were followed, here and in nested runs.

      Soundness: whatever is tainted or followed lies within every pair
      closed under the propagation rules.  Completeness: a finished run from
      plain seeds reports every registered allocation some chain of taint
      steps reaches. */
  method TrackReadPointWithinMethod(g: Graph, registry: set<string>, seeds: set<NodeId>, fuel: nat)
    returns (endpoints: seq<NodeId>, tainted: set<NodeId>, fuelLeft: nat, complete: bool, ghost sources: set<NodeId>)
    requires WellFormed(g)
    ensures seeds <= tainted && seeds <= sources
    ensures forall X, T :: UpperClosed(g, seeds, X, T) ==> tainted <= T && sources <= X
    ensures forall e :: e in endpoints ==> e in sources && IsEndpoint(g, registry, e)
    ensures complete && SeedsPlain(g, seeds) ==>
      && LowerClosed(g, sources)
      && forall v :: v in sources && IsEndpoint(g, registry, v) ==> v in endpoints
    ensures complete && SeedsPlain(g, seeds) ==> forall v :: Reaches(g, seeds, v) && IsEndpoint(g, registry, v) ==> v in endpoints
    ensures fuelLeft <= fuel
    decreases fuel, 1
  {
    var queue := QueueReferrers(g, seeds);
    endpoints := [];
    tainted := seeds;
    fuelLeft := fuel;
    complete := true;
    ghost var st := Run(seeds, seeds, {}, {}, [], queue, true);
    InitRun(g, registry, seeds, queue);
    while queue != [] && fuelLeft > 0
      invariant Inv(g, registry, seeds, st)
      invariant st.tainted == tainted && st.endpoints == endpoints && st.queue == queue && st.complete == complete
      invariant fuelLeft <= fuel
      decreases fuelLeft
    {
      endpoints, tainted, queue, fuelLeft, complete, st :=
        Dequeue(g, registry, seeds, endpoints, tainted, queue, fuelLeft - 1, complete, st);
    }
    complete := complete && queue == [];
    sources := st.local + st.nested;
    if complete && SeedsPlain(g, seeds) {
      FinishRun(g, registry, seeds, st);
      forall v | Reaches(g, seeds, v) && IsEndpoint(g, registry, v)
        ensures v in endpoints
      {
        FlowEndpointReported(g, registry, seeds, sources, endpoints, v);
      }
    }
  }

  /** One turn of the propagation loop: dequeues the head of the queue and
      applies the rule for its instruction kind, recursing into a callee or
      closure with `fuel` left. */
  method Dequeue(g: Graph, registry: set<string>, seeds: set<NodeId>, endpoints: seq<NodeId>, tainted: set<NodeId>,
                 queue: seq<NodeId>, fuel: nat, complete: bool, ghost st: Run)
    returns (endpoints': seq<NodeId>, tainted': set<NodeId>, queue': seq<NodeId>, fuelLeft: nat, complete': bool,
             ghost st': Run)
    requires WellFormed(g) && queue != [] && Inv(g, registry, seeds, st)
    requires st.tainted == tainted && st.endpoints == endpoints && st.queue == queue && st.complete == complete
    ensures Inv(g, registry, seeds, st')
    ensures st'.tainted == tainted' && st'.endpoints == endpoints' && st'.queue == queue' && st'.complete == complete'
    ensures fuelLeft <= fuel
    ensures tainted <= tainted'
    ensures |endpoints| <= |endpoints'| && endpoints'[..|endpoints|] == endpoints
    ensures Propagates(InstrOf(g, queue[0])) ==>
      && tainted' == tainted + {queue[0]}
      && queue' == queue[1..] + Refs(g, queue[0])
      && endpoints' == if IsEndpoint(g, registry, queue[0]) then endpoints + [queue[0]] else endpoints
    ensures InstrOf(g, queue[0]).Store? && InstrOf(g, queue[0]).val in tainted && InstrOf(g, queue[0]).addr !in tainted ==>
      && tainted' == tainted + {InstrOf(g, queue[0]).addr}
      && queue' == queue[1..] + (if StoreOwner(g, InstrOf(g, queue[0]).addr, BaseRoot(g, InstrOf(g, queue[0]).addr))
                                 then [BaseRoot(g, InstrOf(g, queue[0]).addr)] else [])
      && endpoints' == endpoints
    ensures !Propagates(InstrOf(g, queue[0])) && !(InstrOf(g, queue[0]).Store? && InstrOf(g, queue[0]).val in tainted &&
                                                   InstrOf(g, queue[0]).addr !in tainted) ==>
      tainted' == tainted && queue' == queue[1..]
    ensures !Propagates(InstrOf(g, queue[0])) && !Binds(g, queue[0]) ==> endpoints' == endpoints
    decreases fuel, 3
  {
    var r := queue[0];
    endpoints', tainted', queue', fuelLeft, complete' := endpoints, tainted, queue[1..], fuel, complete;
    match InstrOf(g, r) {
    case Alloc(text) =>
      endpoints' := if text in registry then endpoints + [r] else endpoints;
      ExpandStep(g, registry, seeds, st, endpoints');
      st' := st.(tainted := st.tainted + {r}, local := st.local + {r},
                 endpoints := endpoints', queue := st.queue[1..] + Refs(g, r));
      tainted' := tainted + {r};
      queue' := queue[1..] + Refs(g, r);
    case Extract(_, _) | FieldAddr(_, _, _) | UnOp(_) =>
      ExpandStep(g, registry, seeds, st, endpoints);
      st' := st.(tainted := st.tainted + {r}, local := st.local + {r},
                 endpoints := endpoints, queue := st.queue[1..] + Refs(g, r));
      tainted' := tainted + {r};
      queue' := queue[1..] + Refs(g, r);
    case Store(addr, val) =>
      if val in tainted && addr !in tainted {
        var back := FollowFieldBase(g, addr);
        var pushed := if InstrOf(g, back).Alloc? then [back] else [];
        StoreFires(g, registry, seeds, st, pushed);
        st' := st.(tainted := st.tainted + {addr}, owners := st.owners + (set x | x in pushed),
                   queue := st.queue[1..] + pushed);
        tainted' := tainted + {addr};
        queue' := queue[1..] + pushed;
      } else {
        StoreSkips(g, registry, seeds, st);
        st' := st.(queue := st.queue[1..]);
      }
    case Call(mode, args, _) =>
      if mode.Direct? && InstrOf(g, mode.callee).FuncRef? {
        var callee := InstrOf(g, mode.callee).fn;
        endpoints', tainted', queue', fuelLeft, complete', st' :=
          TrackBinding(g, registry, seeds, endpoints, tainted, queue, fuel, complete, st, args, FuncAt(g, callee).params);
      } else {
        IgnoreStep(g, registry, seeds, st);
        st' := st.(queue := st.queue[1..]);
      }
    case MakeClosure(fn, bindings) =>
      endpoints', tainted', queue', fuelLeft, complete', st' :=
        TrackBinding(g, registry, seeds, endpoints, tainted, queue, fuel, complete, st, bindings, FuncAt(g, fn).freeVars);
    case _ =>
      IgnoreStep(g, registry, seeds, st);
      st' := st.(queue := st.queue[1..]);
    }
  }

  /** Dequeues a call or closure that binds `formals` to `actuals`: tracks
      the callee or closure from the formals of the tainted actuals, with
      `fuel` left, and appends what it finds. */
  method TrackBinding(g: Graph, registry: set<string>, seeds: set<NodeId>, endpoints: seq<NodeId>, tainted: set<NodeId>,
                      queue: seq<NodeId>, fuel: nat, complete: bool, ghost st: Run, actuals: seq<NodeId>, formals: seq<NodeId>)
    returns (endpoints': seq<NodeId>, tainted': set<NodeId>, queue': seq<NodeId>, fuelLeft: nat, complete': bool,
             ghost st': Run)
    requires WellFormed(g) && queue != [] && Inv(g, registry, seeds, st)
    requires st.tainted == tainted && st.endpoints == endpoints && st.queue == queue && st.complete == complete
    requires !Propagates(InstrOf(g, queue[0])) && !InstrOf(g, queue[0]).Store?
    requires Binding(g, queue[0]) == (actuals, formals)
    ensures Inv(g, registry, seeds, st')
    ensures st'.tainted == tainted' && st'.endpoints == endpoints' && st'.queue == queue' && st'.complete == complete'
    ensures fuelLeft <= fuel
    ensures tainted' == tainted && queue' == queue[1..]
    ensures |endpoints| <= |endpoints'| && endpoints'[..|endpoints|] == endpoints
    decreases fuel, 2
  {
    BindingWellFormed(g, queue[0]);
    var inner := BindByPosition(tainted, actuals, formals);
    var found, _, left, done, innerSources := TrackReadPointWithinMethod(g, registry, inner, fuel);
    BindStep(g, registry, seeds, st, inner, found, innerSources, done);
    st' := st.(nested := st.nested + innerSources, endpoints := st.endpoints + found,
               queue := st.queue[1..], complete := st.complete && done);
    endpoints', tainted', queue', fuelLeft, complete' := endpoints + found, tainted, queue[1..], left, complete && done;
  }
}
