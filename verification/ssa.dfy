/** The part of a single-assignment (SSA) program the analysis reads: values
    and instructions with their referrer (use) edges, and functions with
    parameters, free variables and basic blocks.  The IR itself is built by
    external package-loading machinery; here it is plain data. */
module Ssa {
  import opened Wrappers

  /** A value or instruction, identified by its position in `Graph.values`. */
  type NodeId = nat
  /** A function, identified by its position in `Graph.funcs`. */
  type FuncId = nat

  /** How a call designates its target. */
  datatype CallMode =
    | Invoke(recv: NodeId, name: string)    // interface method call `recv.name(args)`
    | Direct(callee: NodeId)                // call of a function value (static or dynamic)

  /** The instruction kinds the analysis distinguishes; every other value or
      instruction (parameters, free variables, constants, phis, ...) is `Other`. */
  datatype Instr =
    | Alloc(text: string)                         // `text` is the printed instruction, e.g. "new T (complit)"
    | Extract(tuple: NodeId, index: nat)
    | FieldAddr(x: NodeId, field: nat, text: string)  // `&x.f [#field]`
    | UnOp(x: NodeId)
    | Store(addr: NodeId, val: NodeId)
    | Call(mode: CallMode, args: seq<NodeId>, text: string)  // `text` is the printed call
    | MakeClosure(fn: FuncId, bindings: seq<NodeId>)
    | MakeInterface(x: NodeId)
    | FuncRef(fn: FuncId)                          // a function used as a value
    | Other

  /** A node: its instruction, its printed type and its referrers, in order. */
  datatype Value = Value(instr: Instr, typ: string, referrers: seq<NodeId>)

  datatype Function = Function(
    name: string,
    hasRecv: bool,            // declared with a receiver; then params[0] is the receiver
    params: seq<NodeId>,
    freeVars: seq<NodeId>,
    blocks: seq<seq<NodeId>>)

  datatype Graph = Graph(values: seq<Value>, funcs: seq<Function>)

  /** A package of the loaded program: its path, its package-level functions by
      name, and its declared types with their method sets. */
  datatype TypeDecl = TypeDecl(name: string, valueMethods: seq<FuncId>, pointerMethods: seq<FuncId>)
  datatype Package = Package(path: string, funcs: map<string, FuncId>, types: seq<TypeDecl>)
  datatype Program = Program(graph: Graph, packages: seq<Package>)

  function Node(g: Graph, v: NodeId): Value {
    if v < |g.values| then g.values[v] else Value(Other, "", [])
  }

  function InstrOf(g: Graph, v: NodeId): Instr {
    Node(g, v).instr
  }

  function TypeOf(g: Graph, v: NodeId): string {
    Node(g, v).typ
  }

  function Refs(g: Graph, v: NodeId): seq<NodeId> {
    Node(g, v).referrers
  }

  function FuncAt(g: Graph, f: FuncId): Function {
    if f < |g.funcs| then g.funcs[f] else Function("", false, [], [], [])
  }

  /** The instructions of a list of blocks, block after block. */
  function Flatten(blocks: seq<seq<NodeId>>): seq<NodeId> {
    if blocks == [] then [] else Flatten(blocks[..|blocks| - 1]) + blocks[|blocks| - 1]
  }

  function Instrs(f: Function): seq<NodeId> {
    Flatten(f.blocks)
  }

  lemma FlattenSnoc(blocks: seq<seq<NodeId>>, b: nat)
    requires b < |blocks|
    ensures Flatten(blocks[..b + 1]) == Flatten(blocks[..b]) + blocks[b]
  {
    assert blocks[..b + 1][..b] == blocks[..b];
  }

  lemma FlattenAll(blocks: seq<seq<NodeId>>)
    ensures Flatten(blocks[..|blocks|]) == Flatten(blocks)
  {
    assert blocks[..|blocks|] == blocks;
  }

  lemma {:induction false} FlattenPrefix(blocks: seq<seq<NodeId>>, j: nat)
    requires j <= |blocks|
    ensures forall x :: x in Flatten(blocks[..j]) ==> x in Flatten(blocks)
    decreases |blocks| - j
  {
    if j < |blocks| {
      FlattenSnoc(blocks, j);
      FlattenPrefix(blocks, j + 1);
    } else {
      FlattenAll(blocks);
    }
  }

  /** The ids below `n`. */
  function Below(n: nat): (r: set<nat>)
    ensures forall x: nat :: x in r <==> x < n
  {
    if n == 0 then {} else Below(n - 1) + {n - 1}
  }

  /** What the SSA builder guarantees of every function. */
  predicate FunctionWellFormed(f: Function) {
    f.hasRecv ==> |f.params| >= 1
  }

  /** What the SSA builder guarantees of the instruction at `v`: function
      references resolve, a closure binds one value per free variable, a
      direct call of a function passes one argument per parameter, and the
      base of a field address is defined before it. */
  predicate InstrWellFormed(g: Graph, v: NodeId, i: Instr) {
    match i
    case FieldAddr(x, _, _) => x < v
    case FuncRef(f) => f < |g.funcs|
    case MakeClosure(f, bindings) => f < |g.funcs| && |bindings| == |g.funcs[f].freeVars|
    case Call(Direct(c), args, _) =>
      InstrOf(g, c).FuncRef? && InstrOf(g, c).fn < |g.funcs| ==> |args| == |g.funcs[InstrOf(g, c).fn].params|
    case _ => true
  }

  /** A referrer of `v` uses `v` as an operand: a field address as its base,
      a store as its address or its stored value. */
  predicate UsesOperand(i: Instr, v: NodeId) {
    match i
    case FieldAddr(x, _, _) => x == v
    case Store(addr, val) => addr == v || val == v
    case _ => true
  }

  /** What the SSA builder guarantees of the whole program: besides the
      above, referrer lists are consistent with operands, and parameters and
      free variables are plain values (no allocation, no field address). */
  predicate WellFormed(g: Graph) {
    && (forall f :: 0 <= f < |g.funcs| ==> FunctionWellFormed(g.funcs[f]))
    && (forall v :: 0 <= v < |g.values| ==> InstrWellFormed(g, v, g.values[v].instr))
    && (forall v, r :: 0 <= v < |g.values| && r in g.values[v].referrers ==> UsesOperand(InstrOf(g, r), v))
    && (forall f :: 0 <= f < |g.funcs| ==>
          forall p :: p in g.funcs[f].params + g.funcs[f].freeVars ==> InstrOf(g, p).Other?)
  }

  lemma WellFormedAt(g: Graph, v: NodeId)
    requires WellFormed(g)
    ensures InstrWellFormed(g, v, InstrOf(g, v))
  {
  }

  lemma ReferrerUses(g: Graph, v: NodeId, r: NodeId)
    requires WellFormed(g) && r in Refs(g, v)
    ensures UsesOperand(InstrOf(g, r), v)
  {
  }
}
