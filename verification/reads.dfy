/** Phase B of the effect tracker: the places in the driver method where a
    written field may be read, namely the interface calls of the read method. */
module ReadPoints {
  import opened Ssa

  /** The interface method whose calls are read points. */
  const ReadMethod := "Schedule"
  /** The printed type of the receiver whose first field counts as read. */
  const SchedulerPtrType := "*k8s.io/kubernetes/pkg/scheduler.Scheduler"

  /** An interface call of the read method. */
  predicate IsReadInvoke(g: Graph, c: NodeId) {
    InstrOf(g, c).Call? && InstrOf(g, c).mode.Invoke? && InstrOf(g, c).mode.name == ReadMethod
  }

  /** A written field address that the read method is taken to read: field 0
      of a scheduler pointer. */
  predicate IsReadMember(g: Graph, m: NodeId) {
    InstrOf(g, m).FieldAddr? && TypeOf(g, InstrOf(g, m).x) == SchedulerPtrType && InstrOf(g, m).field == 0
  }

  /** The written members that count as read. */
  function ReadMembers(g: Graph, written: set<NodeId>): set<NodeId> {
    set m | m in written && IsReadMember(g, m)
  }

  /** `n` copies of `c`. */
  function Repeat(c: NodeId, n: nat): (r: seq<NodeId>)
    ensures |r| == n && forall x :: x in r ==> x == c
  {
    if n == 0 then [] else Repeat(c, n - 1) + [c]
  }

  /** The read points that a scan of `cs` appends: every read invoke, once
      per qualifying member, `k` being the number of those members. */
  function ReadPointsAmong(g: Graph, cs: seq<NodeId>, k: nat): seq<NodeId> {
    if cs == [] then []
    else
      var c := cs[|cs| - 1];
      ReadPointsAmong(g, cs[..|cs| - 1], k) + if IsReadInvoke(g, c) then Repeat(c, k) else []
  }

  /** The number of read invokes among `cs`. */
  function CountReadInvokes(g: Graph, cs: seq<NodeId>): nat {
    if cs == [] then 0
    else CountReadInvokes(g, cs[..|cs| - 1]) + if IsReadInvoke(g, cs[|cs| - 1]) then 1 else 0
  }

  /** A call is a read point exactly when it is a read invoke of the scanned
      code and some written member qualifies. */
  lemma {:induction false} ReadPointsAmongMembers(g: Graph, cs: seq<NodeId>, k: nat)
    ensures forall c :: c in ReadPointsAmong(g, cs, k) <==> k > 0 && c in cs && IsReadInvoke(g, c)
  {
    if cs != [] {
      var init := cs[..|cs| - 1];
      ReadPointsAmongMembers(g, init, k);
      assert cs == init + [cs[|cs| - 1]];
      if k > 0 && IsReadInvoke(g, cs[|cs| - 1]) {
        var rep := Repeat(cs[|cs| - 1], k);
        assert rep[0] in rep;
      }
    }
  }

  /** Each read invoke is appended once per qualifying member. */
  lemma {:induction false} ReadPointsAmongLength(g: Graph, cs: seq<NodeId>, k: nat)
    ensures |ReadPointsAmong(g, cs, k)| == CountReadInvokes(g, cs) * k
  {
    if cs != [] {
      ReadPointsAmongLength(g, cs[..|cs| - 1], k);
      var n := CountReadInvokes(g, cs[..|cs| - 1]);
      var b := if IsReadInvoke(g, cs[|cs| - 1]) then 1 else 0;
      assert (n + b) * k == n * k + b * k;
    }
  }

  lemma ReadPointsAmongSnoc(g: Graph, cs: seq<NodeId>, i: nat, k: nat)
    requires i < |cs|
    ensures ReadPointsAmong(g, cs[..i + 1], k) ==
            ReadPointsAmong(g, cs[..i], k) + if IsReadInvoke(g, cs[i]) then Repeat(cs[i], k) else []
  {
    assert cs[..i + 1][..i] == cs[..i];
  }

  /** The entry of `f` in `m`, empty when absent. */
  function Lookup(m: map<FuncId, seq<NodeId>>, f: FuncId): seq<NodeId> {
    if f in m then m[f] else []
  }

  /** `m` after appending `s` to the entry of `f`; appending to a missing
      entry creates it, and appending nothing changes nothing. */
  function AppendTo(m: map<FuncId, seq<NodeId>>, f: FuncId, s: seq<NodeId>): (r: map<FuncId, seq<NodeId>>)
    ensures f in r <==> f in m || s != []
    ensures Lookup(r, f) == Lookup(m, f) + s
    ensures forall h :: h != f ==> (h in r <==> h in m) && Lookup(r, h) == Lookup(m, h)
  {
    if s == [] then m else m[f := Lookup(m, f) + s]
  }

  lemma AppendToTwice(m: map<FuncId, seq<NodeId>>, f: FuncId, a: seq<NodeId>, b: seq<NodeId>)
    ensures AppendTo(AppendTo(m, f, a), f, b) == AppendTo(m, f, a + b)
  {
    if a == [] {
      assert a + b == b;
    } else if b == [] {
      assert a + b == a;
    } else {
      assert Lookup(m, f) + a + b == Lookup(m, f) + (a + b);
    }
  }

  lemma ReadMembersStep(g: Graph, written: set<NodeId>, rest: set<NodeId>, m: NodeId)
    requires rest <= written && m in rest
    ensures |ReadMembers(g, written - (rest - {m}))| == |ReadMembers(g, written - rest)| + if IsReadMember(g, m) then 1 else 0
  {
    var before := ReadMembers(g, written - rest);
    var after := ReadMembers(g, written - (rest - {m}));
    if IsReadMember(g, m) {
      assert after == before + {m};
    } else {
      assert after == before;
    }
  }

  /** Appends `c` to `readMap[f]` once per written member that qualifies,
      taking the members in any order. */
  method AppendPerMember(g: Graph, f: FuncId, c: NodeId, written: set<NodeId>, readMap: map<FuncId, seq<NodeId>>)
    returns (readMap': map<FuncId, seq<NodeId>>)
    ensures readMap' == AppendTo(readMap, f, Repeat(c, |ReadMembers(g, written)|))
  {
    readMap' := readMap;
    var rest := written;
    assert written - rest == {};
    while rest != {}
      invariant rest <= written
      invariant readMap' == AppendTo(readMap, f, Repeat(c, |ReadMembers(g, written - rest)|))
      decreases rest
    {
      var m :| m in rest;
      ReadMembersStep(g, written, rest, m);
      if IsReadMember(g, m) {
        AppendToTwice(readMap, f, Repeat(c, |ReadMembers(g, written - rest)|), [c]);
        readMap' := readMap'[f := Lookup(readMap', f) + [c]];
      }
      rest := rest - {m};
    }
    assert written - rest == written;
  }

  /** Scans `f` for read invokes and appends each one to `readMap[f]` once
      per written member that qualifies; other entries are untouched. */
  method FindReadPoints(g: Graph, f: FuncId, written: set<NodeId>, readMap: map<FuncId, seq<NodeId>>)
    returns (readMap': map<FuncId, seq<NodeId>>)
    ensures readMap' == AppendTo(readMap, f, ReadPointsAmong(g, Instrs(FuncAt(g, f)), |ReadMembers(g, written)|))
  {
    ghost var k := |ReadMembers(g, written)|;
    var instrs := Instrs(FuncAt(g, f));
    readMap' := readMap;
    for i := 0 to |instrs|
      invariant readMap' == AppendTo(readMap, f, ReadPointsAmong(g, instrs[..i], k))
    {
      var c := instrs[i];
      ReadPointsAmongSnoc(g, instrs, i, k);
      if IsReadInvoke(g, c) {
        ghost var before := ReadPointsAmong(g, instrs[..i], k);
        readMap' := AppendPerMember(g, f, c, written, readMap');
        AppendToTwice(readMap, f, before, Repeat(c, k));
      } else {
        assert ReadPointsAmong(g, instrs[..i + 1], k) == ReadPointsAmong(g, instrs[..i], k);
      }
    }
    assert instrs[..|instrs|] == instrs;
  }
}
