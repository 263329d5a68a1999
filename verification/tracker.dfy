/** The effect tracker: for a handler, the fields it writes (Phase A), the
    read points of those fields in the scheduler's driver method (Phase B),
    and the registered allocations that taint from those read points reaches
    (Phase C). */
module Tracker {
  import opened Wrappers
  import opened Ssa
  import opened WrittenMembers
  import opened ReadPoints
  import opened Taint
  import opened SsaCollector

  /** The type whose methods are searched for read points. */
  const DriverType := "k8s.io/kubernetes/pkg/scheduler.Scheduler"
  /** The only driver method searched. */
  const DriverMethod := "scheduleOne"
  /** The printed form of the allocation that counts as an effect. */
  const BindingEndpoint := "new k8s.io/kubernetes/vendor/k8s.io/api/core/v1.Binding (complit)"
  /** Method values bound to a receiver carry this suffix. */
  const BoundSuffix := "$bound"

  /** The methods recorded for type `name`, none when absent. */
  function MethodsOf(methodMap: map<string, seq<FuncId>>, name: string): seq<FuncId> {
    if name in methodMap then methodMap[name] else []
  }

  /** Phase B over the driver's methods `methods`, in order: every method
      named like the driver method is scanned for read points. */
  function DriverReadMap(g: Graph, methods: seq<FuncId>, written: set<NodeId>): map<FuncId, seq<NodeId>> {
    if methods == [] then map[]
    else
      var m := methods[|methods| - 1];
      var acc := DriverReadMap(g, methods[..|methods| - 1], written);
      if FuncAt(g, m).name != DriverMethod then acc
      else AppendTo(acc, m, ReadPointsAmong(g, Instrs(FuncAt(g, m)), |ReadMembers(g, written)|))
  }

  /** Read points are recorded only for driver methods, and each is a read
      invoke of the method it is recorded for. */
  lemma {:induction false} DriverReadMapContents(g: Graph, methods: seq<FuncId>, written: set<NodeId>)
    ensures forall f :: f in DriverReadMap(g, methods, written) ==> f in methods && FuncAt(g, f).name == DriverMethod
    ensures forall f, c :: f in DriverReadMap(g, methods, written) && c in DriverReadMap(g, methods, written)[f] ==>
      IsReadInvoke(g, c) && c in Instrs(FuncAt(g, f))
  {
    if methods != [] {
      var init := methods[..|methods| - 1];
      var m := methods[|methods| - 1];
      DriverReadMapContents(g, init, written);
      ReadPointsAmongMembers(g, Instrs(FuncAt(g, m)), |ReadMembers(g, written)|);
      assert methods == init + [m];
    }
  }

  /** Appending the read points of a scan with no qualifying member, or of
      code without read invokes, appends nothing. */
  lemma NoReadPoints(g: Graph, cs: seq<NodeId>, k: nat)
    requires k == 0 || CountReadInvokes(g, cs) == 0
    ensures ReadPointsAmong(g, cs, k) == []
  {
    ReadPointsAmongLength(g, cs, k);
  }

  /** Without a qualifying written member, or without read invokes in any
      driver method, there is no read point at all. */
  lemma {:induction false} DriverReadMapEmpty(g: Graph, methods: seq<FuncId>, written: set<NodeId>)
    requires
      || |ReadMembers(g, written)| == 0
      || forall m :: m in methods && FuncAt(g, m).name == DriverMethod ==> CountReadInvokes(g, Instrs(FuncAt(g, m))) == 0
    ensures DriverReadMap(g, methods, written) == map[]
  {
    if methods != [] {
      var init := methods[..|methods| - 1];
      var m := methods[|methods| - 1];
      assert forall x :: x in init ==> x in methods;
      DriverReadMapEmpty(g, init, written);
      if FuncAt(g, m).name == DriverMethod {
        NoReadPoints(g, Instrs(FuncAt(g, m)), |ReadMembers(g, written)|);
      }
    }
  }

  /** With some written member qualifying, every read invoke of every
      driver method is recorded for that method. */
  lemma {:induction false} DriverReadMapComplete(g: Graph, methods: seq<FuncId>, written: set<NodeId>)
    ensures forall m, c ::
      (m in methods && FuncAt(g, m).name == DriverMethod && c in Instrs(FuncAt(g, m)) && IsReadInvoke(g, c) &&
       |ReadMembers(g, written)| > 0) ==> c in Lookup(DriverReadMap(g, methods, written), m)
  {
    if methods != [] {
      var init := methods[..|methods| - 1];
      var last := methods[|methods| - 1];
      DriverReadMapComplete(g, init, written);
      ReadPointsAmongMembers(g, Instrs(FuncAt(g, last)), |ReadMembers(g, written)|);
      assert methods == init + [last];
    }
  }

  /** The elements of `s`. */
  function Elems(s: seq<NodeId>): (r: set<NodeId>)
    ensures forall x :: x in r <==> x in s
  {
    set x | x in s
  }

  /** Some field written from `handler` counts as read. */
  ghost predicate ReadFieldWritten(g: Graph, handler: FuncId) {
    exists fa :: WrittenFrom(g, handler, fa) && IsReadMember(g, fa)
  }

  /** The read points of the fields written from `handler`: the read invokes
      of the driver methods, provided some field written from `handler`
      counts as read. */
  ghost function ReadPointsOf(g: Graph, methodMap: map<string, seq<FuncId>>, handler: FuncId): set<NodeId> {
    if ReadFieldWritten(g, handler) then
      set m, c | m in MethodsOf(methodMap, DriverType) && c in Instrs(FuncAt(g, m)) &&
                 FuncAt(g, m).name == DriverMethod && IsReadInvoke(g, c) :: c
    else {}
  }

  /** A read invoke of a driver method is a read point once some written
      field counts as read. */
  lemma InReadPointsOf(g: Graph, methodMap: map<string, seq<FuncId>>, handler: FuncId, m: FuncId, c: NodeId)
    requires ReadFieldWritten(g, handler)
    requires m in MethodsOf(methodMap, DriverType) && c in Instrs(FuncAt(g, m))
    requires FuncAt(g, m).name == DriverMethod && IsReadInvoke(g, c)
    ensures c in ReadPointsOf(g, methodMap, handler)
  {
  }

  /** Phase B over the written fields records every read point. */
  lemma PointsRecorded(g: Graph, methodMap: map<string, seq<FuncId>>, handler: FuncId, written: set<NodeId>,
                       rm: map<FuncId, seq<NodeId>>, c: NodeId)
    requires forall fa :: fa in written <==> WrittenFrom(g, handler, fa)
    requires rm == DriverReadMap(g, MethodsOf(methodMap, DriverType), written)
    requires c in ReadPointsOf(g, methodMap, handler)
    ensures exists f :: f in rm && c in rm[f]
  {
    var methods := MethodsOf(methodMap, DriverType);
    var m :| m in methods && c in Instrs(FuncAt(g, m)) && FuncAt(g, m).name == DriverMethod && IsReadInvoke(g, c);
    var fa :| WrittenFrom(g, handler, fa) && IsReadMember(g, fa);
    assert fa in ReadMembers(g, written);
    DriverReadMapComplete(g, methods, written);
    assert c in Lookup(rm, m);
    assert m in rm && c in rm[m];
  }

  /** Phase B over the written fields records only read points, each a
      call. */
  lemma RecordedPoints(g: Graph, methodMap: map<string, seq<FuncId>>, handler: FuncId, written: set<NodeId>,
                       rm: map<FuncId, seq<NodeId>>, f: FuncId, c: NodeId)
    requires forall fa :: fa in written <==> WrittenFrom(g, handler, fa)
    requires rm == DriverReadMap(g, MethodsOf(methodMap, DriverType), written)
    requires f in rm && c in rm[f]
    ensures c in ReadPointsOf(g, methodMap, handler) && InstrOf(g, c).Call?
  {
    var methods := MethodsOf(methodMap, DriverType);
    DriverReadMapContents(g, methods, written);
    assert f in methods && FuncAt(g, f).name == DriverMethod;
    assert IsReadInvoke(g, c) && c in Instrs(FuncAt(g, f));
    DriverReadMapMember(g, methods, written, f, c);
    var fa :| fa in ReadMembers(g, written);
    assert WrittenFrom(g, handler, fa) && IsReadMember(g, fa);
    assert ReadFieldWritten(g, handler);
    InReadPointsOf(g, methodMap, handler, f, c);
  }

  /** A recorded read point comes from some qualifying written member. */
  lemma {:induction false} DriverReadMapMember(g: Graph, methods: seq<FuncId>, written: set<NodeId>, f: FuncId, c: NodeId)
    requires f in DriverReadMap(g, methods, written) && c in DriverReadMap(g, methods, written)[f]
    ensures |ReadMembers(g, written)| > 0
  {
    if |ReadMembers(g, written)| == 0 {
      DriverReadMapEmpty(g, methods, written);
      assert false;
    }
  }

  /** The set of the points `points`. */
  method ToSet(points: seq<NodeId>) returns (s: set<NodeId>)
    ensures forall x :: x in s <==> x in points
  {
    s := {};
    for i := 0 to |points|
      invariant forall x :: x in s <==> x in points[..i]
    {
      assert points[..i + 1] == points[..i] + [points[i]];
      s := s + {points[i]};
    }
    assert points[..|points|] == points;
  }

  /** The fields written by the functions reachable from `handler`. */
  ghost predicate WrittenFrom(g: Graph, handler: FuncId, fa: NodeId) {
    exists f :: Reachable(g, handler, f) && fa in WrittenBy(g, f)
  }

  /** Phase B: scans every method of `methods` named like the driver method
      for read points, in order. */
  method ScanDriverMethods(g: Graph, methods: seq<FuncId>, written: set<NodeId>) returns (readMap: map<FuncId, seq<NodeId>>)
    ensures readMap == DriverReadMap(g, methods, written)
  {
    readMap := map[];
    for i := 0 to |methods|
      invariant readMap == DriverReadMap(g, methods[..i], written)
    {
      assert methods[..i + 1][..i] == methods[..i];
      if FuncAt(g, methods[i]).name != DriverMethod {
        continue;
      }
      readMap := FindReadPoints(g, methods[i], written, readMap);
    }
    assert methods[..|methods|] == methods;
  }

  /** Runs the three phases for `handler`: the endpoints reached, in
      discovery order, and whether no propagation guard was hit.  The run
      fails exactly when Phase A panics; the endpoints are registered
      allocations that lie within every pair closed under propagation from
      the handler's read points, and a finished run reports every
      registered allocation some chain of taint steps reaches from them. */
  method TrackSingleEntryPoint(g: Graph, methodMap: map<string, seq<FuncId>>, registry: set<string>, handler: FuncId, fuel: nat)
    returns (r: Result<(seq<NodeId>, bool)>)
    requires WellFormed(g) && handler < |g.funcs|
    ensures r.Ok? <==> forall f :: Reachable(g, handler, f) ==> !Panics(g, f)
    ensures r.Ok? ==> forall e :: e in r.value.0 ==> IsEndpoint(g, registry, e)
    ensures r.Ok? ==> forall X, T :: UpperClosed(g, ReadPointsOf(g, methodMap, handler), X, T) ==>
                        forall e :: e in r.value.0 ==> e in X
    ensures r.Ok? && r.value.1 ==> forall v :: Reaches(g, ReadPointsOf(g, methodMap, handler), v) && IsEndpoint(g, registry, v) ==>
                                     v in r.value.0
    ensures r.Ok? && (forall fa :: WrittenFrom(g, handler, fa) ==> !IsReadMember(g, fa)) ==> r.value == ([], true)
    ensures r.Ok? && (forall m :: m in MethodsOf(methodMap, DriverType) && FuncAt(g, m).name == DriverMethod ==>
                        CountReadInvokes(g, Instrs(FuncAt(g, m))) == 0)
            ==> r.value == ([], true)
  {
    // Phase A
    var phaseA := FindWrittenMembers(g, handler);
    if phaseA.Err? {
      return Err(phaseA.msg);
    }
    var written := phaseA.value;

    var endpoints, complete := TrackWritten(g, methodMap, registry, handler, written, fuel);
    r := Ok((endpoints, complete));
  }

  /** Phases B and C for the fields `written` that Phase A found. */
  method TrackWritten(g: Graph, methodMap: map<string, seq<FuncId>>, registry: set<string>, handler: FuncId,
                      written: set<NodeId>, fuel: nat)
    returns (endpoints: seq<NodeId>, complete: bool)
    requires WellFormed(g)
    requires forall fa :: fa in written <==> WrittenFrom(g, handler, fa)
    ensures forall e :: e in endpoints ==> IsEndpoint(g, registry, e)
    ensures forall X, T :: UpperClosed(g, ReadPointsOf(g, methodMap, handler), X, T) ==>
              forall e :: e in endpoints ==> e in X
    ensures complete ==> forall v :: Reaches(g, ReadPointsOf(g, methodMap, handler), v) && IsEndpoint(g, registry, v) ==>
                           v in endpoints
    ensures (forall fa :: WrittenFrom(g, handler, fa) ==> !IsReadMember(g, fa)) ==> endpoints == [] && complete
    ensures (forall m :: m in MethodsOf(methodMap, DriverType) && FuncAt(g, m).name == DriverMethod ==>
               CountReadInvokes(g, Instrs(FuncAt(g, m))) == 0)
            ==> endpoints == [] && complete
  {
    // Phase B
    var methods := MethodsOf(methodMap, DriverType);
    var readMap := ScanDriverMethods(g, methods, written);
    if forall fa :: WrittenFrom(g, handler, fa) ==> !IsReadMember(g, fa) {
      assert ReadMembers(g, written) == {};
      DriverReadMapEmpty(g, methods, written);
    }
    if forall m :: m in methods && FuncAt(g, m).name == DriverMethod ==> CountReadInvokes(g, Instrs(FuncAt(g, m))) == 0 {
      DriverReadMapEmpty(g, methods, written);
    }
    ghost var points := ReadPointsOf(g, methodMap, handler);

    // Phase C
    ReadMapWithin(g, methodMap, handler, written, readMap, points);
    endpoints, complete := TrackReadMap(g, registry, readMap, points, fuel);
    if complete {
      ReadMapCovers(g, methodMap, registry, handler, written, readMap, endpoints);
    }
  }

  /** Every point recorded in `readMap` is one of `points` and a call. */
  ghost predicate PointsWithin(g: Graph, readMap: map<FuncId, seq<NodeId>>, points: set<NodeId>) {
    forall f, c :: f in readMap && c in readMap[f] ==> c in points && InstrOf(g, c).Call?
  }

  /** The read points Phase B records are all read points, each a call. */
  lemma ReadMapWithin(g: Graph, methodMap: map<string, seq<FuncId>>, handler: FuncId, written: set<NodeId>,
                      readMap: map<FuncId, seq<NodeId>>, points: set<NodeId>)
    requires forall fa :: fa in written <==> WrittenFrom(g, handler, fa)
    requires readMap == DriverReadMap(g, MethodsOf(methodMap, DriverType), written)
    requires points == ReadPointsOf(g, methodMap, handler)
    ensures PointsWithin(g, readMap, points)
  {
    forall f, c | f in readMap && c in readMap[f]
      ensures c in ReadPointsOf(g, methodMap, handler) && InstrOf(g, c).Call?
    {
      RecordedPoints(g, methodMap, handler, written, readMap, f, c);
    }
  }

  /** What taint reaches from some read point it reaches from the read
      points recorded for one function. */
  lemma ReadMapCovers(g: Graph, methodMap: map<string, seq<FuncId>>, registry: set<string>, handler: FuncId,
                      written: set<NodeId>, readMap: map<FuncId, seq<NodeId>>, endpoints: seq<NodeId>)
    requires WellFormed(g)
    requires forall fa :: fa in written <==> WrittenFrom(g, handler, fa)
    requires readMap == DriverReadMap(g, MethodsOf(methodMap, DriverType), written)
    requires forall f, v :: (f in readMap && Reaches(g, Elems(readMap[f]), v) && IsEndpoint(g, registry, v)) ==> v in endpoints
    ensures forall v :: Reaches(g, ReadPointsOf(g, methodMap, handler), v) && IsEndpoint(g, registry, v) ==> v in endpoints
  {
    var points := ReadPointsOf(g, methodMap, handler);
    forall v | Reaches(g, points, v) && IsEndpoint(g, registry, v)
      ensures v in endpoints
    {
      var p :| TaintPath(g, points, p) && p[|p| - 1] == v;
      PointsRecorded(g, methodMap, handler, written, readMap, p[0]);
      var f :| f in readMap && p[0] in readMap[f];
      ReachesFrom(g, points, Elems(readMap[f]), p);
    }
  }

  /** Phase C: tracks each function of `readMap` from its read points, the
      functions taken in any order, and concatenates the endpoints found.
      `points` holds every read point of the map. */
  method TrackReadMap(g: Graph, registry: set<string>, readMap: map<FuncId, seq<NodeId>>, ghost points: set<NodeId>, fuel: nat)
    returns (endpoints: seq<NodeId>, complete: bool)
    requires WellFormed(g)
    requires PointsWithin(g, readMap, points)
    ensures forall e :: e in endpoints ==> IsEndpoint(g, registry, e)
    ensures forall X, T :: UpperClosed(g, points, X, T) ==> forall e :: e in endpoints ==> e in X
    ensures complete ==> forall f, v ::
      (f in readMap && Reaches(g, Elems(readMap[f]), v) && IsEndpoint(g, registry, v)) ==> v in endpoints
    ensures readMap == map[] ==> endpoints == [] && complete
  {
    endpoints := [];
    complete := true;
    var rest := readMap.Keys;
    while rest != {}
      invariant rest <= readMap.Keys
      invariant forall e :: e in endpoints ==> IsEndpoint(g, registry, e)
      invariant forall X, T :: UpperClosed(g, points, X, T) ==> forall e :: e in endpoints ==> e in X
      invariant complete ==> forall f, v ::
        (f in readMap && f !in rest && Reaches(g, Elems(readMap[f]), v) && IsEndpoint(g, registry, v)) ==> v in endpoints
      invariant readMap == map[] ==> endpoints == [] && complete
      decreases rest
    {
      var f :| f in rest;
      var seeds := ToSet(readMap[f]);
      assert seeds == Elems(readMap[f]);
      var found, _, _, done, _ := TrackReadPointWithinMethod(g, registry, seeds, fuel);
      forall X, T | UpperClosed(g, points, X, T)
        ensures forall e :: e in endpoints + found ==> e in X
      {
        UpperClosedFewerSeeds(g, seeds, points, X, T);
      }
      assert SeedsPlain(g, seeds);
      ghost var before := endpoints;
      endpoints := endpoints + found;
      complete := complete && done;
      rest := rest - {f};
      if complete {
        forall f', v | f' in readMap && f' !in rest && Reaches(g, Elems(readMap[f']), v) && IsEndpoint(g, registry, v)
          ensures v in endpoints
        {
          if f' == f {
            assert v in found;
          } else {
            assert v in before;
          }
        }
      }
    }
  }

  /** What tracking one registered handler reports. */
  datatype Report = Report(call: NodeId, slot: string, handler: FuncId, endpoints: seq<NodeId>, complete: bool)

  /** The method list of a declared type: its value methods, then the
      methods of its pointer type. */
  method MethodList(t: TypeDecl) returns (list: seq<FuncId>)
    ensures list == t.valueMethods + t.pointerMethods
  {
    list := [];
    for i := 0 to |t.valueMethods|
      invariant list == t.valueMethods[..i]
    {
      list := list + [t.valueMethods[i]];
    }
    for i := 0 to |t.pointerMethods|
      invariant list == t.valueMethods + t.pointerMethods[..i]
    {
      list := list + [t.pointerMethods[i]];
    }
  }

  /** `m` after recording the method lists of the types `types`, in order. */
  function WithTypes(m: map<string, seq<FuncId>>, types: seq<TypeDecl>): map<string, seq<FuncId>> {
    if types == [] then m
    else
      var t := types[|types| - 1];
      WithTypes(m, types[..|types| - 1])[t.name := t.valueMethods + t.pointerMethods]
  }

  /** `m` after recording the types of every package whose path is
      `pattern`, in package order. */
  function MethodMapIn(m: map<string, seq<FuncId>>, pkgs: seq<Package>, pattern: string): map<string, seq<FuncId>> {
    if pkgs == [] then m
    else
      var p := pkgs[|pkgs| - 1];
      var acc := MethodMapIn(m, pkgs[..|pkgs| - 1], pattern);
      if p.path == pattern then WithTypes(acc, p.types) else acc
  }

  /** Every recorded type maps to the value methods followed by the pointer
      methods of the last declaration of that name. */
  lemma {:induction false} WithTypesContents(m: map<string, seq<FuncId>>, types: seq<TypeDecl>)
    ensures forall n :: n in WithTypes(m, types) <==> n in m || exists i :: 0 <= i < |types| && types[i].name == n
    ensures forall i :: 0 <= i < |types| && (forall j :: i < j < |types| ==> types[j].name != types[i].name) ==>
      WithTypes(m, types)[types[i].name] == types[i].valueMethods + types[i].pointerMethods
  {
    if types != [] {
      var init := types[..|types| - 1];
      WithTypesContents(m, init);
      assert forall i :: 0 <= i < |init| ==> types[i] == init[i];
    }
  }

  /** Method lists are recorded only for the packages matching the pattern. */
  lemma {:induction false} MethodMapInOthers(m: map<string, seq<FuncId>>, pkgs: seq<Package>, pattern: string)
    requires forall i :: 0 <= i < |pkgs| ==> pkgs[i].path != pattern
    ensures MethodMapIn(m, pkgs, pattern) == m
  {
    if pkgs != [] {
      MethodMapInOthers(m, pkgs[..|pkgs| - 1], pattern);
    }
  }

  /** The (call, slot) pairs of the registry whose handler is the bound
      method `target`. */
  ghost predicate IsTarget(g: Graph, handlerMap: map<NodeId, map<string, FuncId>>, target: string, call: NodeId, slot: string) {
    call in handlerMap && slot in handlerMap[call] && FuncAt(g, handlerMap[call][slot]).name == target + BoundSuffix
  }

  /** What tracking `handler` may report: registered allocations only,
      within every pair closed under propagation from the handler's read
      points, and, for a finished run, every registered allocation some
      chain of taint steps reaches from them. */
  ghost predicate TrackedFrom(g: Graph, methodMap: map<string, seq<FuncId>>, registry: set<string>, handler: FuncId,
                              endpoints: seq<NodeId>, complete: bool)
    requires WellFormed(g)
  {
    && (forall e :: e in endpoints ==> IsEndpoint(g, registry, e))
    && (forall X, T :: UpperClosed(g, ReadPointsOf(g, methodMap, handler), X, T) ==> forall e :: e in endpoints ==> e in X)
    && (complete ==> forall v :: Reaches(g, ReadPointsOf(g, methodMap, handler), v) && IsEndpoint(g, registry, v) ==>
                       v in endpoints)
  }

  /** No handler of the target slots of `call` reaches a panicking function. */
  ghost predicate CallPanicFree(g: Graph, handlerMap: map<NodeId, map<string, FuncId>>, target: string, call: NodeId) {
    forall slot, f :: IsTarget(g, handlerMap, target, call, slot) && Reachable(g, handlerMap[call][slot], f) ==> !Panics(g, f)
  }

  /** Every report is for a target registration, names its handler and
      carries what tracking that handler reports. */
  ghost predicate ReportsSound(g: Graph, handlerMap: map<NodeId, map<string, FuncId>>, methodMap: map<string, seq<FuncId>>,
                               registry: set<string>, target: string, reports: seq<Report>)
    requires WellFormed(g)
  {
    forall i :: 0 <= i < |reports| ==>
      && IsTarget(g, handlerMap, target, reports[i].call, reports[i].slot)
      && reports[i].handler == handlerMap[reports[i].call][reports[i].slot]
      && TrackedFrom(g, methodMap, registry, reports[i].handler, reports[i].endpoints, reports[i].complete)
  }

  ghost predicate Covered(reports: seq<Report>, call: NodeId, slot: string) {
    exists i :: 0 <= i < |reports| && reports[i].call == call && reports[i].slot == slot
  }

  lemma CoveredExtends(reports: seq<Report>, more: seq<Report>, call: NodeId, slot: string)
    requires Covered(reports, call, slot)
    ensures Covered(reports + more, call, slot)
  {
    var i :| 0 <= i < |reports| && reports[i].call == call && reports[i].slot == slot;
    assert (reports + more)[i] == reports[i];
  }

  /** Tracks the target handlers of the registration `call`, its slots taken
      in any order, appending one report per target slot to `reports`.  The
      run fails exactly when some target handler reaches a panic. */
  method TrackCall(g: Graph, handlerMap: map<NodeId, map<string, FuncId>>, methodMap: map<string, seq<FuncId>>,
                   registry: set<string>, target: string, call: NodeId, fuel: nat, reports: seq<Report>)
    returns (r: Result<seq<Report>>)
    requires WellFormed(g) && HandlersInRange(g, handlerMap) && call in handlerMap
    requires ReportsSound(g, handlerMap, methodMap, registry, target, reports)
    ensures r.Ok? <==> CallPanicFree(g, handlerMap, target, call)
    ensures r.Ok? ==> ReportsSound(g, handlerMap, methodMap, registry, target, r.value)
    ensures r.Ok? ==> |r.value| >= |reports| && r.value[..|reports|] == reports
    ensures r.Ok? ==> forall slot :: IsTarget(g, handlerMap, target, call, slot) ==> Covered(r.value, call, slot)
  {
    var out := reports;
    var singleMap := handlerMap[call];
    var slots := singleMap.Keys;
    while slots != {}
      invariant slots <= singleMap.Keys
      invariant ReportsSound(g, handlerMap, methodMap, registry, target, out)
      invariant |out| >= |reports| && out[..|reports|] == reports
      invariant forall slot :: slot in singleMap && slot !in slots && IsTarget(g, handlerMap, target, call, slot) ==>
        Covered(out, call, slot)
      invariant forall slot, f ::
        (slot !in slots && IsTarget(g, handlerMap, target, call, slot) && Reachable(g, handlerMap[call][slot], f)) ==>
        !Panics(g, f)
      decreases slots
    {
      var slot :| slot in slots;
      var handler := singleMap[slot];
      if FuncAt(g, handler).name == target + BoundSuffix {
        var one := TrackSingleEntryPoint(g, methodMap, registry, handler, fuel);
        if one.Err? {
          ghost var f :| Reachable(g, handler, f) && Panics(g, f);
          assert IsTarget(g, handlerMap, target, call, slot);
          return Err(one.msg);
        }
        var report := Report(call, slot, handler, one.value.0, one.value.1);
        forall s | s in singleMap && s !in slots && IsTarget(g, handlerMap, target, call, s)
          ensures Covered(out + [report], call, s)
        {
          CoveredExtends(out, [report], call, s);
        }
        assert (out + [report])[|out|] == report;
        assert TrackedFrom(g, methodMap, registry, handler, one.value.0, one.value.1);
        out := out + [report];
      }
      slots := slots - {slot};
    }
    r := Ok(out);
  }

  /** The tracker: the watched package, the loaded program, the handler
      registry from the collector, the method lists of the package's types
      and the endpoint registry. */
  class Tracker {
    var pattern: string
    var prog: Program
    var handlerMap: map<NodeId, map<string, FuncId>>
    var methodMap: map<string, seq<FuncId>>
    var endpoints: set<string>

    ghost predicate Valid()
      reads this
    {
      WellFormed(prog.graph) && HandlersInRange(prog.graph, handlerMap)
    }

    /** A tracker over what `c` collected: the method lists of the watched
        package's types and the single Binding endpoint. */
    constructor (c: Collector)
      requires c.prog.Some? && WellFormed(c.prog.value.graph) && HandlersInRange(c.prog.value.graph, c.handlerMap)
      ensures Valid()
      ensures pattern == c.pattern && prog == c.prog.value && handlerMap == c.handlerMap
      ensures methodMap == MethodMapIn(map[], prog.packages, pattern)
      ensures endpoints == {BindingEndpoint}
    {
      pattern := c.pattern;
      prog := c.prog.value;
      handlerMap := c.handlerMap;
      methodMap := map[];
      endpoints := {};
      new;
      GenerateMethodMap();
      endpoints := endpoints + {BindingEndpoint};
    }

    /** Records the method list of every type declared in a package whose
        path is the pattern. */
    method GenerateMethodMap()
      modifies this
      ensures methodMap == MethodMapIn(old(methodMap), prog.packages, pattern)
      ensures pattern == old(pattern) && prog == old(prog) && handlerMap == old(handlerMap) && endpoints == old(endpoints)
    {
      var pkgs := prog.packages;
      ghost var m0 := methodMap;
      for i := 0 to |pkgs|
        invariant methodMap == MethodMapIn(m0, pkgs[..i], pattern)
        invariant pattern == old(pattern) && prog == old(prog) && handlerMap == old(handlerMap) && endpoints == old(endpoints)
      {
        assert pkgs[..i + 1][..i] == pkgs[..i];
        if pkgs[i].path == pattern {
          var types := pkgs[i].types;
          ghost var before := methodMap;
          for j := 0 to |types|
            invariant methodMap == WithTypes(before, types[..j])
            invariant pattern == old(pattern) && prog == old(prog) && handlerMap == old(handlerMap) && endpoints == old(endpoints)
          {
            assert types[..j + 1][..j] == types[..j];
            var list := MethodList(types[j]);
            methodMap := methodMap[types[j].name := list];
          }
          assert types[..|types|] == types;
        }
      }
      assert pkgs[..|pkgs|] == pkgs;
    }

    /** Tracks every registered handler that is the bound method `target`,
        taking the registrations and their slots in any order.  A panic in
        any of them ends the run, and only a panic does. */
    method TrackEntryPoints(target: string, fuel: nat) returns (r: Result<seq<Report>>)
      requires Valid()
      ensures r.Ok? <==> forall call :: call in handlerMap ==> CallPanicFree(prog.graph, handlerMap, target, call)
      ensures r.Ok? ==> ReportsSound(prog.graph, handlerMap, methodMap, endpoints, target, r.value)
      ensures r.Ok? ==> forall call, slot :: IsTarget(prog.graph, handlerMap, target, call, slot) ==> Covered(r.value, call, slot)
    {
      var g := prog.graph;
      var reports: seq<Report> := [];
      var calls := handlerMap.Keys;
      while calls != {}
        invariant calls <= handlerMap.Keys
        invariant ReportsSound(g, handlerMap, methodMap, endpoints, target, reports)
        invariant forall call, slot :: call !in calls && IsTarget(g, handlerMap, target, call, slot) ==> Covered(reports, call, slot)
        invariant forall call :: call in handlerMap && call !in calls ==> CallPanicFree(g, handlerMap, target, call)
        decreases calls
      {
        var call :| call in calls;
        var step := TrackCall(g, handlerMap, methodMap, endpoints, target, call, fuel, reports);
        if step.Err? {
          return Err(step.msg);
        }
        forall c, slot | c !in calls && IsTarget(g, handlerMap, target, c, slot)
          ensures Covered(step.value, c, slot)
        {
          CoveredExtends(reports, step.value[|reports|..], c, slot);
          assert reports + step.value[|reports|..] == step.value;
        }
        reports := step.value;
        calls := calls - {call};
      }
      r := Ok(reports);
    }
  }
}
