/** The collector's test package in SSA form: one plain and one filtering
    registration of the same three bound methods in `addAllEventHandlers`. */
module CollectorTestdata {
  import opened Wrappers
  import opened Strings
  import opened Ssa
  import opened SsaCollector

  const Pattern := "kubetorch/ssapasses/collector/testdata"
  /** The printed pointer types of the two handler literals. */
  const FuncsPtr := "*testdata." + FuncsHandlerType
  const FilteringPtr := "*testdata." + FilteringHandlerType

  /** The printed field address `&base.field [#idx]`. */
  function FieldText(base: string, field: string, idx: string): string {
    "&" + base + "." + field + " [#" + idx + "]"
  }

  /** Value `i` of the graph: the literals and the two registrations of the
      entry function, then its parameters `m` (34) and `h` (35).  The printed
      forms the collector does not read are left empty. */
  function TestValue(i: nat): Value {
    match i
    case 0 => Value(Alloc("complit"), FuncsPtr, [1, 4, 7, 10])
    case 1 => Value(FieldAddr(0, 0, FieldText("t0", "AddFunc", "0")), "", [3])
    case 2 => Value(MakeClosure(1, [35]), "", [3])
    case 3 => Value(Store(1, 2), "", [])
    case 4 => Value(FieldAddr(0, 1, FieldText("t0", "UpdateFunc", "1")), "", [6])
    case 5 => Value(MakeClosure(2, [35]), "", [6])
    case 6 => Value(Store(4, 5), "", [])
    case 7 => Value(FieldAddr(0, 2, FieldText("t0", "DeleteFunc", "2")), "", [9])
    case 8 => Value(MakeClosure(3, [35]), "", [9])
    case 9 => Value(Store(7, 8), "", [])
    case 10 => Value(UnOp(0), "", [11])
    case 11 => Value(MakeInterface(10), "", [12])
    case 12 => Value(Call(Invoke(34, RegisterMethod), [11], ""), "()", [])
    case 13 => Value(Alloc("complit"), FilteringPtr, [14, 17, 31])
    case 14 => Value(FieldAddr(13, 0, FieldText("t13", "FilterFunc", "0")), "", [16])
    case 15 => Value(FuncRef(4), "", [16])
    case 16 => Value(Store(14, 15), "", [])
    case 17 => Value(FieldAddr(13, 1, FieldText("t13", "Handler", "1")), "", [30])
    case 18 => Value(Alloc("complit"), FuncsPtr, [19, 22, 25, 28])
    case 19 => Value(FieldAddr(18, 0, FieldText("t18", "AddFunc", "0")), "", [21])
    case 20 => Value(MakeClosure(1, [35]), "", [21])
    case 21 => Value(Store(19, 20), "", [])
    case 22 => Value(FieldAddr(18, 1, FieldText("t18", "UpdateFunc", "1")), "", [24])
    case 23 => Value(MakeClosure(2, [35]), "", [24])
    case 24 => Value(Store(22, 23), "", [])
    case 25 => Value(FieldAddr(18, 2, FieldText("t18", "DeleteFunc", "2")), "", [27])
    case 26 => Value(MakeClosure(3, [35]), "", [27])
    case 27 => Value(Store(25, 26), "", [])
    case 28 => Value(UnOp(18), "", [29])
    case 29 => Value(MakeInterface(28), "", [30])
    case 30 => Value(Store(17, 29), "", [])
    case 31 => Value(UnOp(13), "", [32])
    case 32 => Value(MakeInterface(31), "", [33])
    case 33 => Value(Call(Invoke(34, RegisterMethod), [32], ""), "()", [])
    case 34 => Value(Other, "", [12, 33])
    case 35 => Value(Other, "", [2, 5, 8, 20, 23, 26])
    case _ => Value(Other, "", [])
  }

  /** Functions: 0 the entry function, 1-3 the bound handler methods, 4 the
      filter literal.  The values are those of TestValue. */
  const G := Graph(
    seq(36, i requires 0 <= i => TestValue(i)),
    [ Function("addAllEventHandlers", false, [34, 35], [], [Body]),
      Function("addHandler$bound", false, [], [], []),
      Function("updateHandler$bound", false, [], [], []),
      Function("deleteHandler$bound", false, [], [], []),
      Function("addAllEventHandlers$1", false, [], [], []) ])

  /** The instructions of the entry function, in order. */
  const Body: seq<NodeId> := [0, 1, 2, 3, 4, 5, 6, 7, 8, 9, 10, 11, 12, 13, 14, 15, 16,
                              17, 18, 19, 20, 21, 22, 23, 24, 25, 26, 27, 28, 29, 30, 31, 32, 33]

  const Packages := [Package(Pattern, map[EntryFunction := 0], [])]

  /** The slots of a registration of the three bound methods: Add, Update
      and Delete, bound to functions 1, 2 and 3. */
  predicate HoldsSlots(m: map<string, FuncId>) {
    && "Add" in m && "Update" in m && "Delete" in m && |m| == 3
    && m["Add"] == 1 && m["Update"] == 2 && m["Delete"] == 3
  }

  /** `field` occurs in its printed field address. */
  lemma FieldNamed(base: string, field: string, idx: string)
    ensures Contains(FieldText(base, field, idx), field)
  {
    var s := FieldText(base, field, idx);
    assert s == "&" + base + "." + field + (" [#" + idx + "]");
    assert s[|base| + 2..|base| + 2 + |field|] == field;
    assert OccursAt(s, field, |base| + 2);
    ContainsAt(s, field);
  }

  /** A character absent from the parts is absent from the printed address. */
  lemma FieldLacks(base: string, field: string, idx: string, ch: char)
    requires ch != '&' && ch != '.' && ch != ' ' && ch != '[' && ch != '#' && ch != ']'
    requires ch !in base && ch !in field && ch !in idx
    ensures ch !in FieldText(base, field, idx)
  {
  }

  lemma AddSlot(base: string, idx: string)
    ensures HandlerSlot(FieldText(base, "AddFunc", idx)) == "Add"
  {
    FieldNamed(base, "AddFunc", idx);
  }

  lemma UpdateSlot(base: string, idx: string)
    requires 'A' !in base && 'A' !in idx
    ensures HandlerSlot(FieldText(base, "UpdateFunc", idx)) == "Update"
  {
    FieldNamed(base, "UpdateFunc", idx);
    FieldLacks(base, "UpdateFunc", idx, 'A');
    NotContainsFirst(FieldText(base, "UpdateFunc", idx), "AddFunc");
  }

  lemma DeleteSlot(base: string, idx: string)
    requires 'A' !in base && 'A' !in idx && 'U' !in base && 'U' !in idx
    ensures HandlerSlot(FieldText(base, "DeleteFunc", idx)) == "Delete"
  {
    FieldNamed(base, "DeleteFunc", idx);
    FieldLacks(base, "DeleteFunc", idx, 'A');
    FieldLacks(base, "DeleteFunc", idx, 'U');
    NotContainsFirst(FieldText(base, "DeleteFunc", idx), "AddFunc");
    NotContainsFirst(FieldText(base, "DeleteFunc", idx), "UpdateFunc");
  }

  /** Both kinds of handler literal are recognised by their type. */
  lemma TypesRecognised()
    ensures !HasSuffix(FuncsPtr, FilteringHandlerType) && HasSuffix(FuncsPtr, FuncsHandlerType)
    ensures HasSuffix(FilteringPtr, FilteringHandlerType)
  {
    FuncsNotFiltering();
    FuncsRecognised();
    FilteringRecognised();
  }

  lemma FuncsNotFiltering()
    ensures !HasSuffix(FuncsPtr, FilteringHandlerType)
  {
    assert FuncsPtr[|FuncsPtr| - 1] != FilteringHandlerType[|FilteringHandlerType| - 1];
  }

  lemma FuncsRecognised()
    ensures HasSuffix(FuncsPtr, FuncsHandlerType)
  {
    assert FuncsPtr[|FuncsPtr| - |FuncsHandlerType|..] == FuncsHandlerType;
  }

  lemma FilteringRecognised()
    ensures HasSuffix(FilteringPtr, FilteringHandlerType)
  {
    assert FilteringPtr[|FilteringPtr| - |FilteringHandlerType|..] == FilteringHandlerType;
  }

  /** The field address at `at` is bound to `fn` by the store two
      instructions later. */
  predicate BoundField(g: Graph, at: NodeId, fn: FuncId) {
    && InstrOf(g, at).FieldAddr?
    && Refs(g, at) == [at + 2]
    && InstrOf(g, at + 2) == Store(at, at + 1)
    && InstrOf(g, at + 1).MakeClosure? && InstrOf(g, at + 1).fn == fn
  }

  /** A plain handler literal at `lit` binding functions 1, 2 and 3 to its
      Add, Update and Delete fields, then loaded. */
  predicate PlainLiteral(g: Graph, lit: NodeId) {
    && Refs(g, lit) == [lit + 1, lit + 4, lit + 7, lit + 10]
    && BoundField(g, lit + 1, 1) && SlotOf(g, lit + 1) == "Add"
    && BoundField(g, lit + 4, 2) && SlotOf(g, lit + 4) == "Update"
    && BoundField(g, lit + 7, 3) && SlotOf(g, lit + 7) == "Delete"
    && !InstrOf(g, lit + 10).FieldAddr?
  }

  lemma PlainLiteralSlots(g: Graph, lit: NodeId)
    requires PlainLiteral(g, lit)
    ensures ReSlots(g, Refs(g, lit)).Ok? && HoldsSlots(ReSlots(g, Refs(g, lit)).value)
  {
    var refs := Refs(g, lit);
    var r0, r1, r2 := refs[0], refs[1], refs[2];
    assert refs[..1][..0] == [];
    assert ReSlots(g, refs[..1]) == Ok(map[][SlotOf(g, r0) := 1]);
    assert refs[..2][..1] == refs[..1];
    assert ReSlots(g, refs[..2]) == Ok(map[][SlotOf(g, r0) := 1][SlotOf(g, r1) := 2]);
    assert refs[..3][..2] == refs[..2];
    assert ReSlots(g, refs[..3]) == Ok(map[][SlotOf(g, r0) := 1][SlotOf(g, r1) := 2][SlotOf(g, r2) := 3]);
    assert refs[..|refs| - 1] == refs[..3];
    assert ReSlots(g, refs) == ReSlots(g, refs[..3]);
    assert "Add" != "Update" && "Add" != "Delete" && "Update" != "Delete" by {
      assert "Add"[0] != "Update"[0] && "Add"[0] != "Delete"[0] && "Update"[0] != "Delete"[0];
    }
  }

  // Facts about the graph, a few per lemma.

  lemma OuterRefs()
    ensures Refs(G, 0) == [1, 4, 7, 10] && !InstrOf(G, 10).FieldAddr?
  {
  }

  lemma InnerRefs()
    ensures Refs(G, 18) == [19, 22, 25, 28] && !InstrOf(G, 28).FieldAddr?
  {
  }

  lemma OuterAddBound() ensures BoundField(G, 1, 1) {}
  lemma OuterUpdateBound() ensures BoundField(G, 4, 2) {}
  lemma OuterDeleteBound() ensures BoundField(G, 7, 3) {}
  lemma InnerAddBound() ensures BoundField(G, 19, 1) {}
  lemma InnerUpdateBound() ensures BoundField(G, 22, 2) {}
  lemma InnerDeleteBound() ensures BoundField(G, 25, 3) {}

  lemma OuterAddSlot() ensures SlotOf(G, 1) == "Add" { AddSlot("t0", "0"); }
  lemma OuterUpdateSlot() ensures SlotOf(G, 4) == "Update" { UpdateSlot("t0", "1"); }
  lemma OuterDeleteSlot() ensures SlotOf(G, 7) == "Delete" { DeleteSlot("t0", "2"); }
  lemma InnerAddSlot() ensures SlotOf(G, 19) == "Add" { AddSlot("t18", "0"); }
  lemma InnerUpdateSlot() ensures SlotOf(G, 22) == "Update" { UpdateSlot("t18", "1"); }
  lemma InnerDeleteSlot() ensures SlotOf(G, 25) == "Delete" { DeleteSlot("t18", "2"); }

  lemma OuterLiteralSlots()
    ensures ReSlots(G, Refs(G, 0)).Ok? && HoldsSlots(ReSlots(G, Refs(G, 0)).value)
  {
    OuterRefs();
    OuterAddBound();
    OuterUpdateBound();
    OuterDeleteBound();
    OuterAddSlot();
    OuterUpdateSlot();
    OuterDeleteSlot();
    PlainLiteralSlots(G, 0);
  }

  lemma InnerLiteralSlots()
    ensures ReSlots(G, Refs(G, 18)).Ok? && HoldsSlots(ReSlots(G, Refs(G, 18)).value)
  {
    InnerRefs();
    InnerAddBound();
    InnerUpdateBound();
    InnerDeleteBound();
    InnerAddSlot();
    InnerUpdateSlot();
    InnerDeleteSlot();
    PlainLiteralSlots(G, 18);
  }

  /** Only the two registrations are calls. */
  lemma OnlyTwoCalls()
    ensures forall c :: InstrOf(G, c).Call? ==> c == 12 || c == 33
  {
    assert forall i: nat :: TestValue(i).instr.Call? ==> i == 12 || i == 33;
  }

  /** The plain registration passes the loaded literal at 0. */
  lemma PlainRegistration()
    ensures IsRegisterCall(G, 12) && InstrOf(G, 12).args == [11]
    ensures InstrOf(G, 11) == MakeInterface(10) && LoadedAlloc(G, 10) == Ok(0) && TypeOf(G, 0) == FuncsPtr
  {
  }

  /** The filtering registration passes the loaded literal at 13, whose
      Handler field holds the loaded literal at 18. */
  lemma FilteringCall()
    ensures IsRegisterCall(G, 33) && InstrOf(G, 33).args == [32]
  {
  }

  lemma FilteringArgument()
    ensures InstrOf(G, 32) == MakeInterface(31) && LoadedAlloc(G, 31) == Ok(13) && TypeOf(G, 13) == FilteringPtr
  {
  }

  lemma HandlerField()
    ensures Refs(G, 13) == [14, 17, 31] && InstrOf(G, 17).FieldAddr?
  {
  }

  lemma HandlerStore()
    ensures Refs(G, 17) == [30] && InstrOf(G, 30) == Store(17, 29)
  {
  }

  lemma HandlerValue()
    ensures InstrOf(G, 29) == MakeInterface(28) && LoadedAlloc(G, 28) == Ok(18)
  {
  }

  lemma HandlerFieldOf13()
    ensures InnerHandlerAlloc(G, 13) == Ok(18)
  {
    HandlerField();
    HandlerStore();
    HandlerValue();
  }

  /** The two registrations are recorded with the three slots, and every
      other instruction of the entry function is no registration. */
  lemma ClassifyBody()
    ensures forall c :: c != 12 && c != 33 ==> Classify(G, c) == NotRegistration
    ensures Classify(G, 12).Recorded? && HoldsSlots(Classify(G, 12).slots)
    ensures Classify(G, 33).Recorded? && HoldsSlots(Classify(G, 33).slots)
  {
    OnlyTwoCalls();
    TypesRecognised();
    PlainRegistration();
    OuterLiteralSlots();
    FilteringCall();
    FilteringArgument();
    HandlerFieldOf13();
    InnerLiteralSlots();
  }

  /** The watched package is the test package, whose entry function is
      scanned from an empty registry. */
  lemma EntryScan()
    ensures CollectIn(G, Pattern, Packages) == Scan(G, Registry(map[], []), Body)
  {
    assert Instrs(FuncAt(G, 0)) == Body by {
      assert FuncAt(G, 0).blocks == [Body];
      assert [Body][..0] == [];
      assert Flatten([Body]) == Flatten([]) + Body;
      assert [] + Body == Body;
    }
    assert Packages[..0] == [];
  }

  /** The scan of the entry function succeeds. */
  lemma BodyScanOk()
    ensures Scan(G, Registry(map[], []), Body).Ok?
  {
    ClassifyBody();
    ScanOk(G, Registry(map[], []), Body);
  }

  /** The scan records the two registrations ... */
  lemma BodyScanRecords()
    requires Scan(G, Registry(map[], []), Body).Ok?
    ensures 12 in Scan(G, Registry(map[], []), Body).value.handlers
    ensures 33 in Scan(G, Registry(map[], []), Body).value.handlers
  {
    ClassifyBody();
    ScanKeys(G, Registry(map[], []), Body);
    assert 12 in Body && 33 in Body;
  }

  /** ... and nothing else. */
  lemma BodyScanOnly()
    requires Scan(G, Registry(map[], []), Body).Ok?
    ensures forall c :: c in Scan(G, Registry(map[], []), Body).value.handlers ==> c == 12 || c == 33
  {
    ClassifyBody();
    ScanKeys(G, Registry(map[], []), Body);
  }

  /** Each recorded registration holds the three slots. */
  lemma BodyScanValues()
    requires Scan(G, Registry(map[], []), Body).Ok?
    ensures forall c :: c in Scan(G, Registry(map[], []), Body).value.handlers ==>
      HoldsSlots(Scan(G, Registry(map[], []), Body).value.handlers[c])
  {
    var acc := Registry(map[], []);
    ClassifyBody();
    ScanKeys(G, acc, Body);
    ScanValues(G, acc, Body);
  }

  /** No registration is reported as unsupported. */
  lemma BodyScanUnsupported()
    requires Scan(G, Registry(map[], []), Body).Ok?
    ensures forall c :: c !in Scan(G, Registry(map[], []), Body).value.unsupported
  {
    var acc := Registry(map[], []);
    ClassifyBody();
    ScanUnsupported(G, acc, Body);
  }

  /** The registry of the test package holds exactly the two registrations,
      each with the Add, Update and Delete slots, and nothing is
      unsupported. */
  lemma TestdataRegistry()
    ensures CollectIn(G, Pattern, Packages).Ok?
    ensures CollectIn(G, Pattern, Packages).value.handlers.Keys == {12, 33}
    ensures |CollectIn(G, Pattern, Packages).value.handlers| == 2
    ensures forall c :: c in CollectIn(G, Pattern, Packages).value.handlers ==>
      HoldsSlots(CollectIn(G, Pattern, Packages).value.handlers[c]) && |CollectIn(G, Pattern, Packages).value.handlers[c]| == 3
    ensures forall c :: c !in CollectIn(G, Pattern, Packages).value.unsupported
  {
    EntryScan();
    BodyScanOk();
    BodyScanRecords();
    BodyScanOnly();
    BodyScanValues();
    BodyScanUnsupported();
  }
}
