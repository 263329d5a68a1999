/** The handler-name collector over syntax trees: every `AddEventHandler`
    call whose argument is a handler literal contributes the method names
    bound to the literal's fields, in traversal order. */
module AstCollector {
  import opened Wrappers
  import opened Strings

  /** The expression shapes the pass distinguishes. */
  datatype Expr =
    | Ident(name: string)
    | Selector(x: Expr, sel: string)                      // `x.sel`
    | CompositeLit(typ: Option<Expr>, elts: seq<Expr>)    // `T{elts}`, the type elided or not
    | KeyValue(key: Expr, value: Expr)                    // `key: value`
    | FuncLit                                             // `func(...) {...}`
    | OtherExpr

  /** A call expression `fun(args)`. */
  datatype CallExpr = CallExpr(fun: Expr, args: seq<Expr>)

  /** The diagnostics the pass reports, in order. */
  datatype Diagnostic =
    | CallReported(fun: Expr)               // "call: ..."
    | HandlerReported(x: Expr, sel: string) // "handler: x.sel"
    | FuncLitUnsupported                    // "doesn't support FuncLit now"
    | NotSupported                          // "not supported"
    | NotSupportYet                         // "not support yet"

  /** The handler names collected and the diagnostics reported so far. */
  datatype State = State(handlers: seq<string>, diagnostics: seq<Diagnostic>)

  const RegisterMethod := "AddEventHandler"
  const FilteringHandlerType := "FilteringResourceEventHandler"
  const FuncsHandlerType := "ResourceEventHandlerFuncs"
  /** Packages whose path ends so are test variants and are skipped. */
  const TestSuffix := ".test"

  const Empty := State([], [])

  /** One element of a handler literal: it must be `key: value`; a selector
      value contributes its selected name, anything else is reported. */
  function ExtractHandler(st: State, e: Expr): (r: Result<State>)
    ensures r.Ok? <==> e.KeyValue?
    ensures r.Ok? ==> |r.value.diagnostics| == |st.diagnostics| + 1 && r.value.diagnostics[..|st.diagnostics|] == st.diagnostics
  {
    match e
    case KeyValue(_, v) =>
      (match v
       case Selector(x, sel) => Ok(State(st.handlers + [sel], st.diagnostics + [HandlerReported(x, sel)]))
       case FuncLit => Ok(st.(diagnostics := st.diagnostics + [FuncLitUnsupported]))
       case _ => Ok(st.(diagnostics := st.diagnostics + [NotSupported])))
    case _ => Err("interface conversion: not a key-value expression")
  }

  /** The names selected by the selector values of the key-value elements
      `elts`, in order. */
  function SelectorNames(elts: seq<Expr>): (r: seq<string>)
    ensures |r| <= |elts|
    ensures forall n :: n in r <==> exists e :: e in elts && e.KeyValue? && e.value.Selector? && e.value.sel == n
  {
    if elts == [] then []
    else
      var e := elts[|elts| - 1];
      assert elts == elts[..|elts| - 1] + [e];
      SelectorNames(elts[..|elts| - 1]) + if e.KeyValue? && e.value.Selector? then [e.value.sel] else []
  }

  /** The elements `elts` taken in order. */
  function ExtractAll(st: State, elts: seq<Expr>): Result<State> {
    if elts == [] then Ok(st)
    else
      match ExtractAll(st, elts[..|elts| - 1])
      case Err(e) => Err(e)
      case Ok(s) => ExtractHandler(s, elts[|elts| - 1])
  }

  /** Handling the elements fails exactly when one is not `key: value`; it
      then appends exactly the names of the selector values, and reports one
      diagnostic per element. */
  lemma {:induction false} ExtractAllSpec(st: State, elts: seq<Expr>)
    ensures ExtractAll(st, elts).Ok? <==> forall e :: e in elts ==> e.KeyValue?
    ensures ExtractAll(st, elts).Ok? ==> ExtractAll(st, elts).value.handlers == st.handlers + SelectorNames(elts)
    ensures ExtractAll(st, elts).Ok? ==>
      |ExtractAll(st, elts).value.diagnostics| == |st.diagnostics| + |elts|
      && ExtractAll(st, elts).value.diagnostics[..|st.diagnostics|] == st.diagnostics
  {
    if elts != [] {
      var init := elts[..|elts| - 1];
      ExtractAllSpec(st, init);
      assert elts == init + [elts[|elts| - 1]];
      var r := ExtractAll(st, init);
      if r.Ok? {
        assert st.handlers + SelectorNames(init) + (if elts[|elts| - 1].KeyValue? && elts[|elts| - 1].value.Selector? then [elts[|elts| - 1].value.sel] else [])
            == st.handlers + SelectorNames(elts);
        var d := r.value.diagnostics;
        if ExtractAll(st, elts).Ok? {
          var d' := ExtractAll(st, elts).value.diagnostics;
          assert d'[..|st.diagnostics|] == d'[..|d|][..|st.diagnostics|];
        }
      }
    }
  }

  /** Runs the handler extraction on every element of `elts`. */
  method ExtractElements(st: State, elts: seq<Expr>) returns (r: Result<State>)
    ensures r == ExtractAll(st, elts)
  {
    var s := st;
    for i := 0 to |elts|
      invariant ExtractAll(st, elts[..i]) == Ok(s)
    {
      assert elts[..i + 1][..i] == elts[..i];
      var step := ExtractHandler(s, elts[i]);
      if step.Err? {
        ExtractAllErrSticky(st, elts, i + 1);
        return step;
      }
      s := step.value;
    }
    assert elts[..|elts|] == elts;
    r := Ok(s);
  }

  lemma {:induction false} ExtractAllErrSticky(st: State, elts: seq<Expr>, i: nat)
    requires i <= |elts| && ExtractAll(st, elts[..i]).Err?
    ensures ExtractAll(st, elts) == ExtractAll(st, elts[..i])
    decreases |elts| - i
  {
    if i == |elts| {
      assert elts[..i] == elts;
    } else {
      assert elts[..i + 1][..i] == elts[..i];
      ExtractAllErrSticky(st, elts, i + 1);
    }
  }

  /** `ce` is a call of a method named `AddEventHandler`. */
  predicate IsRegistration(ce: CallExpr) {
    ce.fun.Selector? && ce.fun.sel == RegisterMethod
  }

  /** The elements whose handlers a registration contributes: those of the
      inner literal of a filtering handler, all elements of a plain handler
      literal, and none otherwise. */
  function HandlerElements(ce: CallExpr): seq<Expr> {
    if !IsRegistration(ce) || ce.args == [] || !ce.args[0].CompositeLit? then []
    else
      var cpl := ce.args[0];
      if !(cpl.typ.Some? && cpl.typ.value.Selector?) then []
      else if cpl.typ.value.sel == FilteringHandlerType then
        if |cpl.elts| >= 2 && cpl.elts[1].KeyValue? && cpl.elts[1].value.CompositeLit? then cpl.elts[1].value.elts else []
      else if cpl.typ.value.sel == FuncsHandlerType then cpl.elts
      else []
  }

  /** The pass on one call expression of the traversal. */
  function VisitCall(st: State, ce: CallExpr): Result<State> {
    if !IsRegistration(ce) then Ok(st)
    else
      var st1 := st.(diagnostics := st.diagnostics + [CallReported(ce.fun)]);
      if ce.args == [] then Err("index out of range")
      else match ce.args[0]
        case CompositeLit(typ, elts) =>
          if !(typ.Some? && typ.value.Selector?) then Err("interface conversion: type is not a selector")
          else if typ.value.sel == FilteringHandlerType then
            if |elts| < 2 then Err("index out of range")
            else if !elts[1].KeyValue? then Err("interface conversion: not a key-value expression")
            else if !elts[1].value.CompositeLit? then Err("interface conversion: not a composite literal")
            else ExtractAll(st1, elts[1].value.elts)
          else if typ.value.sel == FuncsHandlerType then ExtractAll(st1, elts)
          else Ok(st1.(diagnostics := st1.diagnostics + [NotSupportYet]))
        case _ => Ok(st1)
  }

  /** A call that is not a registration changes nothing. */
  lemma VisitIgnored(st: State, ce: CallExpr)
    requires !IsRegistration(ce)
    ensures VisitCall(st, ce) == Ok(st)
  {
  }

  /** A registration whose argument is not a composite literal only reports
      the call. */
  lemma VisitNotLiteral(st: State, ce: CallExpr)
    requires IsRegistration(ce) && ce.args != [] && !ce.args[0].CompositeLit?
    ensures VisitCall(st, ce) == Ok(st.(diagnostics := st.diagnostics + [CallReported(ce.fun)]))
  {
  }

  /** A successful visit appends exactly the selector names of the handler
      elements of the call, and keeps the earlier diagnostics. */
  lemma VisitHandlers(st: State, ce: CallExpr)
    requires VisitCall(st, ce).Ok?
    ensures VisitCall(st, ce).value.handlers == st.handlers + SelectorNames(HandlerElements(ce))
    ensures |VisitCall(st, ce).value.diagnostics| >= |st.diagnostics|
    ensures VisitCall(st, ce).value.diagnostics[..|st.diagnostics|] == st.diagnostics
  {
    var st1 := st.(diagnostics := st.diagnostics + [CallReported(ce.fun)]);
    if IsRegistration(ce) && ce.args[0].CompositeLit? {
      ExtractAllSpec(st1, HandlerElements(ce));
      assert st1.diagnostics[..|st.diagnostics|] == st.diagnostics;
    } else {
      assert st.handlers + [] == st.handlers;
    }
  }

  /** A filtering handler contributes exactly what its inner plain handler
      literal would contribute if registered directly. */
  lemma FilteringTransparent(fun: Expr, pkg: Expr, filter: Expr, key: Expr, innerType: Option<Expr>, inner: seq<Expr>)
    requires fun.Selector? && fun.sel == RegisterMethod
    ensures
      var plain := CallExpr(fun, [CompositeLit(Some(Selector(pkg, FuncsHandlerType)), inner)]);
      var filtering := CallExpr(fun, [CompositeLit(Some(Selector(pkg, FilteringHandlerType)), [filter, KeyValue(key, CompositeLit(innerType, inner))])]);
      HandlerElements(filtering) == HandlerElements(plain) == inner
  {
  }

  /** The pass over the call expressions `calls`, in traversal order. */
  function VisitAll(st: State, calls: seq<CallExpr>): Result<State> {
    if calls == [] then Ok(st)
    else
      match VisitAll(st, calls[..|calls| - 1])
      case Err(e) => Err(e)
      case Ok(s) => VisitCall(s, calls[|calls| - 1])
  }

  /** The handler list only grows, and so does the diagnostic list. */
  lemma {:induction false} VisitAllGrows(st: State, calls: seq<CallExpr>)
    requires VisitAll(st, calls).Ok?
    ensures |VisitAll(st, calls).value.handlers| >= |st.handlers|
    ensures VisitAll(st, calls).value.handlers[..|st.handlers|] == st.handlers
    ensures |VisitAll(st, calls).value.diagnostics| >= |st.diagnostics|
    ensures VisitAll(st, calls).value.diagnostics[..|st.diagnostics|] == st.diagnostics
  {
    if calls != [] {
      var init := calls[..|calls| - 1];
      VisitAllGrows(st, init);
      var s := VisitAll(st, init).value;
      VisitHandlers(s, calls[|calls| - 1]);
      var s' := VisitAll(st, calls).value;
      assert s'.handlers[..|st.handlers|] == s'.handlers[..|s.handlers|][..|st.handlers|];
      assert s'.diagnostics[..|st.diagnostics|] == s'.diagnostics[..|s.diagnostics|][..|st.diagnostics|];
    }
  }

  /** What the pass returns for the package `pkgPath` whose call expressions,
      in traversal order, are `calls`. */
  function PassResult(pkgPath: string, calls: seq<CallExpr>): Result<State> {
    if HasSuffix(pkgPath, TestSuffix) then Ok(Empty) else VisitAll(Empty, calls)
  }

  /** The pass: nothing for a test package, otherwise every call expression
      visited in traversal order. */
  method Run(pkgPath: string, calls: seq<CallExpr>) returns (r: Result<State>)
    ensures r == PassResult(pkgPath, calls)
    ensures HasSuffix(pkgPath, TestSuffix) ==> r == Ok(Empty)
  {
    if HasSuffix(pkgPath, TestSuffix) {
      return Ok(Empty);
    }
    var st := Empty;
    for i := 0 to |calls|
      invariant VisitAll(Empty, calls[..i]) == Ok(st)
    {
      assert calls[..i + 1][..i] == calls[..i];
      var step := VisitCall(st, calls[i]);
      if step.Err? {
        VisitAllErrSticky(Empty, calls, i + 1);
        return step;
      }
      st := step.value;
    }
    assert calls[..|calls|] == calls;
    r := Ok(st);
  }

  lemma {:induction false} VisitAllErrSticky(st: State, calls: seq<CallExpr>, i: nat)
    requires i <= |calls| && VisitAll(st, calls[..i]).Err?
    ensures VisitAll(st, calls) == VisitAll(st, calls[..i])
    decreases |calls| - i
  {
    if i == |calls| {
      assert calls[..i] == calls;
    } else {
      assert calls[..i + 1][..i] == calls[..i];
      VisitAllErrSticky(st, calls, i + 1);
    }
  }

  /** The registrations of the collector's test package: a plain handler
      literal and a filtering handler wrapping the same literal, both binding
      the three methods of `h`. */
  const Receiver := Ident("h")
  const HandlerPkg := Ident("handler")
  const BoundMethods := [
    KeyValue(Ident("AddFunc"), Selector(Receiver, "addHandler")),
    KeyValue(Ident("UpdateFunc"), Selector(Receiver, "updateHandler")),
    KeyValue(Ident("DeleteFunc"), Selector(Receiver, "deleteHandler"))]
  const PlainLiteral := CompositeLit(Some(Selector(HandlerPkg, FuncsHandlerType)), BoundMethods)
  const TestdataCalls := [
    CallExpr(Selector(HandlerPkg, RegisterMethod), [PlainLiteral]),
    CallExpr(Selector(HandlerPkg, RegisterMethod),
      [CompositeLit(Some(Selector(HandlerPkg, FilteringHandlerType)),
         [KeyValue(Ident("FilterFunc"), FuncLit), KeyValue(Ident("Handler"), PlainLiteral)])])]

  /** Both registrations of the test package report the call and the three
      bound methods, and the pass collects the three names twice. */
  lemma TestdataResult()
    ensures
      var call := CallReported(Selector(HandlerPkg, RegisterMethod));
      var reported := [HandlerReported(Receiver, "addHandler"), HandlerReported(Receiver, "updateHandler"), HandlerReported(Receiver, "deleteHandler")];
      var names := ["addHandler", "updateHandler", "deleteHandler"];
      PassResult("testdata", TestdataCalls) == Ok(State(names + names, [call] + reported + [call] + reported))
  {
    var call := CallReported(Selector(HandlerPkg, RegisterMethod));
    var reported := [HandlerReported(Receiver, "addHandler"), HandlerReported(Receiver, "updateHandler"), HandlerReported(Receiver, "deleteHandler")];
    var names := ["addHandler", "updateHandler", "deleteHandler"];
    assert "testdata"[3..] != TestSuffix by { assert "testdata"[3..][0] == 't'; }
    var st1 := State([], [call]);
    BoundMethodsExtracted(st1);
    var st2 := State(names, [call] + reported);
    var st3 := st2.(diagnostics := st2.diagnostics + [call]);
    BoundMethodsExtracted(st3);
    var calls := TestdataCalls;
    assert calls[..1][..0] == [];
    assert FuncsHandlerType != FilteringHandlerType by { assert FuncsHandlerType[0] != FilteringHandlerType[0]; }
    assert Empty.diagnostics + [call] == [call];
    assert VisitCall(Empty, calls[0]) == ExtractAll(st1, BoundMethods);
    assert [] + names == names;
    assert calls[..1][|calls[..1]| - 1] == calls[0];
    assert VisitAll(Empty, calls[..1]) == Ok(st2);
    assert calls[..1] == calls[..|calls| - 1];
    assert VisitCall(st2, calls[1]) == ExtractAll(st3, BoundMethods);
  }

  lemma BoundMethodsExtracted(st: State)
    ensures ExtractAll(st, BoundMethods) == Ok(State(
      st.handlers + ["addHandler", "updateHandler", "deleteHandler"],
      st.diagnostics + [HandlerReported(Receiver, "addHandler"), HandlerReported(Receiver, "updateHandler"), HandlerReported(Receiver, "deleteHandler")]))
  {
    ThreeSelectorsExtracted(st, Ident("AddFunc"), Ident("UpdateFunc"), Ident("DeleteFunc"), Receiver,
                            "addHandler", "updateHandler", "deleteHandler");
  }

  /** Three selector elements contribute their three names, in order. */
  lemma {:induction false} ThreeSelectorsExtracted(st: State, k1: Expr, k2: Expr, k3: Expr, x: Expr, n1: string, n2: string, n3: string)
    ensures ExtractAll(st, [KeyValue(k1, Selector(x, n1)), KeyValue(k2, Selector(x, n2)), KeyValue(k3, Selector(x, n3))]) ==
            Ok(State(st.handlers + [n1, n2, n3],
                     st.diagnostics + [HandlerReported(x, n1), HandlerReported(x, n2), HandlerReported(x, n3)]))
  {
    var e1, e2, e3 := KeyValue(k1, Selector(x, n1)), KeyValue(k2, Selector(x, n2)), KeyValue(k3, Selector(x, n3));
    var s1 := State(st.handlers + [n1], st.diagnostics + [HandlerReported(x, n1)]);
    var s2 := State(s1.handlers + [n2], s1.diagnostics + [HandlerReported(x, n2)]);
    var s3 := State(s2.handlers + [n3], s2.diagnostics + [HandlerReported(x, n3)]);
    assert ExtractAll(st, [e1]) == Ok(s1) by {
      SelectorExtracted(st, [], st, k1, x, n1);
      assert [] + [e1] == [e1];
    }
    assert ExtractAll(st, [e1, e2]) == Ok(s2) by {
      SelectorExtracted(st, [e1], s1, k2, x, n2);
      assert [e1] + [e2] == [e1, e2];
    }
    assert ExtractAll(st, [e1, e2, e3]) == Ok(s3) by {
      SelectorExtracted(st, [e1, e2], s2, k3, x, n3);
      assert [e1, e2] + [e3] == [e1, e2, e3];
    }
    assert s3.handlers == st.handlers + [n1, n2, n3];
    assert s3.diagnostics == st.diagnostics + [HandlerReported(x, n1), HandlerReported(x, n2), HandlerReported(x, n3)];
  }

  /** One more selector element extends a successful extraction by its name. */
  lemma {:induction false} SelectorExtracted(st: State, elts: seq<Expr>, s: State, key: Expr, x: Expr, sel: string)
    requires ExtractAll(st, elts) == Ok(s)
    ensures ExtractAll(st, elts + [KeyValue(key, Selector(x, sel))]) ==
            Ok(State(s.handlers + [sel], s.diagnostics + [HandlerReported(x, sel)]))
  {
    var e := elts + [KeyValue(key, Selector(x, sel))];
    assert e[..|e| - 1] == elts;
  }
}
