/** The handler registry, extracted from the SSA form of the program: for
    every `AddEventHandler` registration in the entry function, the functions
    bound to its Add, Update and Delete slots. */
module SsaCollector {
  import opened Wrappers
  import opened Strings
  import opened Ssa

  const FilteringHandlerType := "FilteringResourceEventHandler"
  const FuncsHandlerType := "ResourceEventHandlerFuncs"
  /** The function of the watched package that registers the handlers. */
  const EntryFunction := "addAllEventHandlers"
  /** The interface method that registers one handler. */
  const RegisterMethod := "AddEventHandler"

  /** The slot a handler field is bound to, from the printed field address:
      Add before Update before Delete, and Unknown when none applies. */
  function HandlerSlot(s: string): (r: string)
    ensures r == "Add" <==> Contains(s, "AddFunc")
    ensures r == "Update" <==> !Contains(s, "AddFunc") && Contains(s, "UpdateFunc")
    ensures r == "Delete" <==> !Contains(s, "AddFunc") && !Contains(s, "UpdateFunc") && Contains(s, "DeleteFunc")
    ensures r == "Unknown" <==> !Contains(s, "AddFunc") && !Contains(s, "UpdateFunc") && !Contains(s, "DeleteFunc")
  {
    if Contains(s, "AddFunc") then "Add"
    else if Contains(s, "UpdateFunc") then "Update"
    else if Contains(s, "DeleteFunc") then "Delete"
    else "Unknown"
  }

  /** The slot of a field address, or "" for anything else. */
  function SlotOf(g: Graph, fa: NodeId): string {
    if InstrOf(g, fa).FieldAddr? then HandlerSlot(InstrOf(g, fa).text) else ""
  }

  /** The function stored into a handler field: its first referrer must be a
      store of a closure.  Any other shape is a failed type assertion or an
      index out of range. */
  function BoundHandler(g: Graph, fa: NodeId): Result<FuncId> {
    var uses := Refs(g, fa);
    if uses == [] then Err("index out of range")
    else if !InstrOf(g, uses[0]).Store? then Err("interface conversion: not a store")
    else match InstrOf(g, InstrOf(g, uses[0]).val)
      case MakeClosure(fn, _) => Ok(fn)
      case _ => Err("interface conversion: not a closure")
  }

  /** The slots written by the referrers `refs` of a handler literal, in
      order: non-field referrers are skipped and a later field with the same
      slot replaces an earlier one. */
  function ReSlots(g: Graph, refs: seq<NodeId>): Result<map<string, FuncId>> {
    if refs == [] then Ok(map[])
    else
      match ReSlots(g, refs[..|refs| - 1])
      case Err(e) => Err(e)
      case Ok(m) =>
        var fa := refs[|refs| - 1];
        if !InstrOf(g, fa).FieldAddr? then Ok(m)
        else match BoundHandler(g, fa)
          case Err(e) => Err(e)
          case Ok(fn) => Ok(m[SlotOf(g, fa) := fn])
  }

  /** The extraction fails exactly when one of the handler fields does not
      have the expected shape. */
  lemma {:induction false} ReSlotsOk(g: Graph, refs: seq<NodeId>)
    ensures ReSlots(g, refs).Ok? <==> forall fa :: fa in refs && InstrOf(g, fa).FieldAddr? ==> BoundHandler(g, fa).Ok?
  {
    if refs != [] {
      var init := refs[..|refs| - 1];
      ReSlotsOk(g, init);
      assert refs == init + [refs[|refs| - 1]];
    }
  }

  /** The slots filled are exactly the slots of the field referrers. */
  lemma {:induction false} ReSlotsKeys(g: Graph, refs: seq<NodeId>)
    requires ReSlots(g, refs).Ok?
    ensures forall s :: s in ReSlots(g, refs).value <==> exists fa :: fa in refs && InstrOf(g, fa).FieldAddr? && SlotOf(g, fa) == s
  {
    if refs != [] {
      var init := refs[..|refs| - 1];
      ReSlotsKeys(g, init);
      assert refs == init + [refs[|refs| - 1]];
    }
  }

  /** A slot holds the function of the last field referrer with that slot. */
  lemma {:induction false} ReSlotsLastWins(g: Graph, refs: seq<NodeId>, i: nat)
    requires ReSlots(g, refs).Ok?
    requires i < |refs| && InstrOf(g, refs[i]).FieldAddr?
    requires forall j :: i < j < |refs| && InstrOf(g, refs[j]).FieldAddr? ==> SlotOf(g, refs[j]) != SlotOf(g, refs[i])
    ensures SlotOf(g, refs[i]) in ReSlots(g, refs).value
    ensures BoundHandler(g, refs[i]) == Ok(ReSlots(g, refs).value[SlotOf(g, refs[i])])
  {
    var init := refs[..|refs| - 1];
    if i < |refs| - 1 {
      ReSlotsLastWins(g, init, i);
    }
  }

  /** Reads the slots of a plain handler literal allocated at `root`. */
  method ExtractREHandlers(g: Graph, root: NodeId) returns (r: Result<map<string, FuncId>>)
    ensures r == ReSlots(g, Refs(g, root))
  {
    var refs := Refs(g, root);
    var m: map<string, FuncId> := map[];
    for i := 0 to |refs|
      invariant ReSlots(g, refs[..i]) == Ok(m)
    {
      assert refs[..i + 1][..i] == refs[..i];
      var fa := refs[i];
      if InstrOf(g, fa).FieldAddr? {
        var fn := BoundHandler(g, fa);
        if fn.Err? {
          ReSlotsErrSticky(g, refs, i + 1);
          r := Err(fn.msg);
          return;
        }
        m := m[SlotOf(g, fa) := fn.value];
      }
    }
    assert refs[..|refs|] == refs;
    r := Ok(m);
  }

  /** Once the extraction has failed on a prefix it fails on the whole. */
  lemma {:induction false} ReSlotsErrSticky(g: Graph, refs: seq<NodeId>, i: nat)
    requires i <= |refs| && ReSlots(g, refs[..i]).Err?
    ensures ReSlots(g, refs) == ReSlots(g, refs[..i])
    decreases |refs| - i
  {
    if i == |refs| {
      assert refs[..i] == refs;
    } else {
      assert refs[..i + 1][..i] == refs[..i];
      ReSlotsErrSticky(g, refs, i + 1);
    }
  }

  /** The allocation behind a handler value: a load from a freshly allocated
      literal. */
  function LoadedAlloc(g: Graph, x: NodeId): (r: Result<NodeId>)
    ensures r.Ok? ==> InstrOf(g, r.value).Alloc?
  {
    match InstrOf(g, x)
    case UnOp(y) => if InstrOf(g, y).Alloc? then Ok(y) else Err("interface conversion: not an allocation")
    case _ => Err("interface conversion: not a load")
  }

  /** The inner plain handler literal of a filtering handler allocated at
      `root`: the second referrer of `root` is the address of its Handler
      field, whose first referrer stores an interface made from a load of
      the inner literal. */
  function InnerHandlerAlloc(g: Graph, root: NodeId): (r: Result<NodeId>)
    ensures r.Ok? ==> |Refs(g, root)| >= 2 && InstrOf(g, Refs(g, root)[1]).FieldAddr? && InstrOf(g, r.value).Alloc?
  {
    var refs := Refs(g, root);
    if |refs| < 2 then Err("index out of range")
    else if !InstrOf(g, refs[1]).FieldAddr? then Err("interface conversion: not a field address")
    else
      var uses := Refs(g, refs[1]);
      if uses == [] then Err("index out of range")
      else if !InstrOf(g, uses[0]).Store? then Err("interface conversion: not a store")
      else match InstrOf(g, InstrOf(g, uses[0]).val)
        case MakeInterface(x) => LoadedAlloc(g, x)
        case _ => Err("interface conversion: not an interface")
  }

  /** The slots of a filtering handler: those of its inner plain handler. */
  function FreSlots(g: Graph, root: NodeId): Result<map<string, FuncId>> {
    match InnerHandlerAlloc(g, root)
    case Err(e) => Err(e)
    case Ok(a) => ReSlots(g, Refs(g, a))
  }

  /** Unwraps a filtering handler one level and reads its inner handler
      exactly as a plain one. */
  method ExtractFREHandlers(g: Graph, root: NodeId) returns (r: Result<map<string, FuncId>>)
    ensures InnerHandlerAlloc(g, root).Err? ==> r == Err(InnerHandlerAlloc(g, root).msg)
    ensures InnerHandlerAlloc(g, root).Ok? ==> r == ReSlots(g, Refs(g, InnerHandlerAlloc(g, root).value))
  {
    var inner := InnerHandlerAlloc(g, root);
    if inner.Err? {
      return Err(inner.msg);
    }
    r := ExtractREHandlers(g, inner.value);
  }

  /** What scanning one instruction of the entry function does. */
  datatype Registration =
    | NotRegistration                         // not an `AddEventHandler` invoke
    | Unsupported                             // argument is not an interface conversion
    | Unrecognised                            // handler type is neither kind
    | Recorded(slots: map<string, FuncId>)
    | Crashed(msg: string)

  predicate IsRegisterCall(g: Graph, c: NodeId) {
    InstrOf(g, c).Call? && InstrOf(g, c).mode.Invoke? && InstrOf(g, c).mode.name == RegisterMethod
  }

  function Classify(g: Graph, c: NodeId): (r: Registration)
    ensures !IsRegisterCall(g, c) <==> r.NotRegistration?
    ensures r.Unsupported? <==> IsRegisterCall(g, c) && InstrOf(g, c).args != [] && !InstrOf(g, InstrOf(g, c).args[0]).MakeInterface?
    ensures r.Recorded? ==>
      && IsRegisterCall(g, c) && InstrOf(g, c).args != []
      && InstrOf(g, InstrOf(g, c).args[0]).MakeInterface?
      && LoadedAlloc(g, InstrOf(g, InstrOf(g, c).args[0]).x).Ok?
      && var a := LoadedAlloc(g, InstrOf(g, InstrOf(g, c).args[0]).x).value;
         (HasSuffix(TypeOf(g, a), FilteringHandlerType) || HasSuffix(TypeOf(g, a), FuncsHandlerType))
    ensures IsRegisterCall(g, c) && InstrOf(g, c).args == [] ==> r.Crashed?
    ensures IsRegisterCall(g, c) && InstrOf(g, c).args != [] && InstrOf(g, InstrOf(g, c).args[0]).MakeInterface? ==>
      var boxed := LoadedAlloc(g, InstrOf(g, InstrOf(g, c).args[0]).x);
      && (boxed.Err? ==> r == Crashed(boxed.msg))
      && (boxed.Ok? ==>
            var a := boxed.value;
            && (r.Unrecognised? <==> !HasSuffix(TypeOf(g, a), FilteringHandlerType) && !HasSuffix(TypeOf(g, a), FuncsHandlerType))
            && (HasSuffix(TypeOf(g, a), FilteringHandlerType) ==>
                  && (r.Recorded? <==> FreSlots(g, a).Ok?)
                  && (r.Recorded? ==> r.slots == FreSlots(g, a).value))
            && (!HasSuffix(TypeOf(g, a), FilteringHandlerType) && HasSuffix(TypeOf(g, a), FuncsHandlerType) ==>
                  && (r.Recorded? <==> ReSlots(g, Refs(g, a)).Ok?)
                  && (r.Recorded? ==> r.slots == ReSlots(g, Refs(g, a)).value)))
  {
    if !IsRegisterCall(g, c) then NotRegistration
    else if InstrOf(g, c).args == [] then Crashed("index out of range")
    else match InstrOf(g, InstrOf(g, c).args[0])
      case MakeInterface(x) =>
        (match LoadedAlloc(g, x)
         case Err(e) => Crashed(e)
         case Ok(a) =>
           if HasSuffix(TypeOf(g, a), FilteringHandlerType) then
             (match FreSlots(g, a) case Err(e) => Crashed(e) case Ok(s) => Recorded(s))
           else if HasSuffix(TypeOf(g, a), FuncsHandlerType) then
             (match ReSlots(g, Refs(g, a)) case Err(e) => Crashed(e) case Ok(s) => Recorded(s))
           else Unrecognised)
      case _ => Unsupported
  }

  /** The registrations found so far, by call, and the calls reported as
      not supported, in order. */
  datatype Registry = Registry(handlers: map<NodeId, map<string, FuncId>>, unsupported: seq<NodeId>)

  function ScanStep(g: Graph, acc: Registry, c: NodeId): Result<Registry> {
    match Classify(g, c)
    case Crashed(e) => Err(e)
    case Recorded(s) => Ok(acc.(handlers := acc.handlers[c := s]))
    case Unsupported => Ok(acc.(unsupported := acc.unsupported + [c]))
    case _ => Ok(acc)
  }

  /** Scanning the instructions `cs` in order, starting from `acc`. */
  function Scan(g: Graph, acc: Registry, cs: seq<NodeId>): Result<Registry> {
    if cs == [] then Ok(acc)
    else
      match Scan(g, acc, cs[..|cs| - 1])
      case Err(e) => Err(e)
      case Ok(a) => ScanStep(g, a, cs[|cs| - 1])
  }

  lemma {:induction false} ScanErrSticky(g: Graph, acc: Registry, cs: seq<NodeId>, i: nat)
    requires i <= |cs| && Scan(g, acc, cs[..i]).Err?
    ensures Scan(g, acc, cs) == Scan(g, acc, cs[..i])
    decreases |cs| - i
  {
    if i == |cs| {
      assert cs[..i] == cs;
    } else {
      assert cs[..i + 1][..i] == cs[..i];
      ScanErrSticky(g, acc, cs, i + 1);
    }
  }

  /** The scan fails exactly when some instruction crashes. */
  lemma {:induction false} ScanOk(g: Graph, acc: Registry, cs: seq<NodeId>)
    ensures Scan(g, acc, cs).Ok? <==> forall c :: c in cs ==> !Classify(g, c).Crashed?
  {
    if cs != [] {
      var init := cs[..|cs| - 1];
      ScanOk(g, acc, init);
      assert cs == init + [cs[|cs| - 1]];
    }
  }

  /** One entry per recorded registration; every other instruction leaves
      the map alone. */
  lemma {:induction false} ScanKeys(g: Graph, acc: Registry, cs: seq<NodeId>)
    requires Scan(g, acc, cs).Ok?
    ensures forall c :: c in Scan(g, acc, cs).value.handlers <==> c in acc.handlers || (c in cs && Classify(g, c).Recorded?)
  {
    if cs != [] {
      var init := cs[..|cs| - 1];
      ScanKeys(g, acc, init);
      assert cs == init + [cs[|cs| - 1]];
    }
  }

  /** A recorded registration holds its slots; an entry the scan does not
      meet keeps its value. */
  lemma {:induction false} ScanValues(g: Graph, acc: Registry, cs: seq<NodeId>)
    requires Scan(g, acc, cs).Ok?
    ensures forall c :: c in cs && Classify(g, c).Recorded? ==>
      c in Scan(g, acc, cs).value.handlers && Scan(g, acc, cs).value.handlers[c] == Classify(g, c).slots
    ensures forall c :: c in acc.handlers && c !in cs ==>
      c in Scan(g, acc, cs).value.handlers && Scan(g, acc, cs).value.handlers[c] == acc.handlers[c]
  {
    if cs != [] {
      var init := cs[..|cs| - 1];
      var last := cs[|cs| - 1];
      ScanValues(g, acc, init);
      assert cs == init + [last];
      var a := Scan(g, acc, init).value;
      var r := Scan(g, acc, cs).value;
      assert ScanStep(g, a, last) == Ok(r);
      forall c | c in cs && Classify(g, c).Recorded?
        ensures c in r.handlers && r.handlers[c] == Classify(g, c).slots
      {
        if c != last {
          assert c in init;
        }
      }
      forall c | c in acc.handlers && c !in cs
        ensures c in r.handlers && r.handlers[c] == acc.handlers[c]
      {
        assert c !in init && c != last;
      }
    }
  }

  /** The calls whose argument is not an interface conversion are reported,
      in order, and the scan goes on. */
  lemma {:induction false} ScanUnsupported(g: Graph, acc: Registry, cs: seq<NodeId>)
    requires Scan(g, acc, cs).Ok?
    ensures forall c :: c in Scan(g, acc, cs).value.unsupported <==> c in acc.unsupported || (c in cs && Classify(g, c).Unsupported?)
  {
    if cs != [] {
      var init := cs[..|cs| - 1];
      ScanUnsupported(g, acc, init);
      assert cs == init + [cs[|cs| - 1]];
    }
  }

  /** The registry of the whole program: the entry function of every package
      whose path is `pattern`, scanned in package order.  A matching package
      without the entry function is a nil dereference. */
  function CollectIn(g: Graph, pattern: string, pkgs: seq<Package>): Result<Registry> {
    if pkgs == [] then Ok(Registry(map[], []))
    else
      match CollectIn(g, pattern, pkgs[..|pkgs| - 1])
      case Err(e) => Err(e)
      case Ok(acc) =>
        var p := pkgs[|pkgs| - 1];
        if p.path != pattern then Ok(acc)
        else if EntryFunction !in p.funcs then Err("nil pointer dereference")
        else Scan(g, acc, Instrs(FuncAt(g, p.funcs[EntryFunction])))
  }

  /** Only packages whose path is the pattern contribute. */
  lemma {:induction false} CollectInOthers(g: Graph, pattern: string, pkgs: seq<Package>)
    requires forall i :: 0 <= i < |pkgs| ==> pkgs[i].path != pattern
    ensures CollectIn(g, pattern, pkgs) == Ok(Registry(map[], []))
  {
    if pkgs != [] {
      CollectInOthers(g, pattern, pkgs[..|pkgs| - 1]);
    }
  }

  lemma ScanSnoc(g: Graph, acc: Registry, cs: seq<NodeId>, i: nat, a: Registry)
    requires i < |cs| && Scan(g, acc, cs[..i]) == Ok(a)
    ensures Scan(g, acc, cs[..i + 1]) == ScanStep(g, a, cs[i])
  {
    assert cs[..i + 1][..i] == cs[..i];
  }

  /** Scans the entry function `entry` for registrations, starting from the
      registry `acc`. */
  method ScanEntry(g: Graph, entry: FuncId, acc: Registry) returns (r: Result<Registry>)
    ensures r == Scan(g, acc, Instrs(FuncAt(g, entry)))
  {
    var instrs := Instrs(FuncAt(g, entry));
    var m := acc.handlers;
    var unsupported := acc.unsupported;
    for i := 0 to |instrs|
      invariant Scan(g, acc, instrs[..i]) == Ok(Registry(m, unsupported))
    {
      var c := instrs[i];
      ScanSnoc(g, acc, instrs, i, Registry(m, unsupported));
      if !IsRegisterCall(g, c) {
        continue;
      }
      var args := InstrOf(g, c).args;
      if args == [] {
        ScanErrSticky(g, acc, instrs, i + 1);
        return Err("index out of range");
      }
      if !InstrOf(g, args[0]).MakeInterface? {
        unsupported := unsupported + [c];
        continue;
      }
      var alloc := LoadedAlloc(g, InstrOf(g, args[0]).x);
      if alloc.Err? {
        ScanErrSticky(g, acc, instrs, i + 1);
        return Err(alloc.msg);
      }
      var handlerType := TypeOf(g, alloc.value);
      var slots: Result<map<string, FuncId>>;
      if HasSuffix(handlerType, FilteringHandlerType) {
        slots := ExtractFREHandlers(g, alloc.value);
      } else if HasSuffix(handlerType, FuncsHandlerType) {
        slots := ExtractREHandlers(g, alloc.value);
      } else {
        continue;
      }
      if slots.Err? {
        ScanErrSticky(g, acc, instrs, i + 1);
        return Err(slots.msg);
      }
      m := m[c := slots.value];
    }
    assert instrs[..|instrs|] == instrs;
    r := Ok(Registry(m, unsupported));
  }

  lemma CollectSnoc(g: Graph, pattern: string, pkgs: seq<Package>, i: nat)
    requires i < |pkgs|
    ensures CollectIn(g, pattern, pkgs[..i + 1]) ==
      match CollectIn(g, pattern, pkgs[..i])
      case Err(e) => Err(e)
      case Ok(acc) =>
        if pkgs[i].path != pattern then Ok(acc)
        else if EntryFunction !in pkgs[i].funcs then Err("nil pointer dereference")
        else Scan(g, acc, Instrs(FuncAt(g, pkgs[i].funcs[EntryFunction])))
  {
    assert pkgs[..i + 1][..i] == pkgs[..i];
  }

  lemma {:induction false} CollectErrSticky(g: Graph, pattern: string, pkgs: seq<Package>, i: nat)
    requires i <= |pkgs| && CollectIn(g, pattern, pkgs[..i]).Err?
    ensures CollectIn(g, pattern, pkgs) == CollectIn(g, pattern, pkgs[..i])
    decreases |pkgs| - i
  {
    if i == |pkgs| {
      assert pkgs[..i] == pkgs;
    } else {
      CollectSnoc(g, pattern, pkgs, i);
      CollectErrSticky(g, pattern, pkgs, i + 1);
    }
  }

  /** Walks the packages of `prog` and scans the entry function of each one
      whose path is `pattern`. */
  method ExtractHandlers(prog: Program, pattern: string) returns (r: Result<Registry>)
    ensures r == CollectIn(prog.graph, pattern, prog.packages)
  {
    var g := prog.graph;
    var pkgs := prog.packages;
    var acc := Registry(map[], []);
    for i := 0 to |pkgs|
      invariant CollectIn(g, pattern, pkgs[..i]) == Ok(acc)
    {
      CollectSnoc(g, pattern, pkgs, i);
      var p := pkgs[i];
      if p.path == pattern {
        if EntryFunction !in p.funcs {
          CollectErrSticky(g, pattern, pkgs, i + 1);
          return Err("nil pointer dereference");
        }
        var step := ScanEntry(g, p.funcs[EntryFunction], acc);
        if step.Err? {
          CollectErrSticky(g, pattern, pkgs, i + 1);
          return step;
        }
        acc := step.value;
      }
    }
    assert pkgs[..|pkgs|] == pkgs;
    r := Ok(acc);
  }

  /** Every handler of `handlers` is a function of the program. */
  ghost predicate HandlersInRange(g: Graph, handlers: map<NodeId, map<string, FuncId>>) {
    forall call, slot :: call in handlers && slot in handlers[call] ==> handlers[call][slot] < |g.funcs|
  }

  lemma {:induction false} ReSlotsInRange(g: Graph, refs: seq<NodeId>)
    requires WellFormed(g) && ReSlots(g, refs).Ok?
    ensures forall s :: s in ReSlots(g, refs).value ==> ReSlots(g, refs).value[s] < |g.funcs|
  {
    if refs != [] {
      var init := refs[..|refs| - 1];
      ReSlotsInRange(g, init);
      var fa := refs[|refs| - 1];
      if InstrOf(g, fa).FieldAddr? {
        var st := Refs(g, fa)[0];
        WellFormedAt(g, InstrOf(g, st).val);
      }
    }
  }

  lemma ClassifyInRange(g: Graph, c: NodeId)
    requires WellFormed(g) && Classify(g, c).Recorded?
    ensures forall s :: s in Classify(g, c).slots ==> Classify(g, c).slots[s] < |g.funcs|
  {
    var a := LoadedAlloc(g, InstrOf(g, InstrOf(g, c).args[0]).x).value;
    if HasSuffix(TypeOf(g, a), FilteringHandlerType) {
      ReSlotsInRange(g, Refs(g, InnerHandlerAlloc(g, a).value));
    } else {
      ReSlotsInRange(g, Refs(g, a));
    }
  }

  lemma {:induction false} ScanInRange(g: Graph, acc: Registry, cs: seq<NodeId>)
    requires WellFormed(g) && HandlersInRange(g, acc.handlers) && Scan(g, acc, cs).Ok?
    ensures HandlersInRange(g, Scan(g, acc, cs).value.handlers)
  {
    if cs != [] {
      ScanInRange(g, acc, cs[..|cs| - 1]);
      var c := cs[|cs| - 1];
      if Classify(g, c).Recorded? {
        ClassifyInRange(g, c);
      }
    }
  }

  /** On a well-formed program, the registry only names functions of the
      program. */
  lemma {:induction false} CollectInRange(g: Graph, pattern: string, pkgs: seq<Package>)
    requires WellFormed(g) && CollectIn(g, pattern, pkgs).Ok?
    ensures HandlersInRange(g, CollectIn(g, pattern, pkgs).value.handlers)
  {
    if pkgs != [] {
      var init := pkgs[..|pkgs| - 1];
      CollectInRange(g, pattern, init);
      var p := pkgs[|pkgs| - 1];
      if p.path == pattern {
        ScanInRange(g, CollectIn(g, pattern, init).value, Instrs(FuncAt(g, p.funcs[EntryFunction])));
      }
    }
  }

  /** The registry extraction pass: the package pattern, the loaded program
      and the registrations found in it. */
  class Collector {
    var pattern: string
    var prog: Option<Program>
    var handlerMap: map<NodeId, map<string, FuncId>>

    /** A collector for `pattern` with nothing loaded and no handlers. */
    constructor (pattern: string)
      ensures this.pattern == pattern && prog == None && handlerMap == map[]
    {
      this.pattern := pattern;
      prog := None;
      handlerMap := map[];
    }

    /** Records the loaded program `p` and replaces the handler map by the
        registrations extracted from it; on a crash of the extraction the
        program is recorded and the map is left as it was. */
    method CollectEntryPoints(p: Program) returns (r: Result<Registry>)
      modifies this
      ensures r == CollectIn(p.graph, pattern, p.packages)
      ensures pattern == old(pattern) && prog == Some(p)
      ensures r.Ok? ==> handlerMap == r.value.handlers
      ensures r.Err? ==> handlerMap == old(handlerMap)
      ensures r.Ok? && WellFormed(p.graph) ==> HandlersInRange(p.graph, handlerMap)
    {
      prog := Some(p);
      r := ExtractHandlers(p, pattern);
      if r.Ok? {
        handlerMap := r.value.handlers;
        if WellFormed(p.graph) {
          CollectInRange(p.graph, pattern, p.packages);
        }
      }
    }
  }
}
