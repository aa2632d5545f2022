/** The semantic plan language: operations, their arguments and their conditions. */
module Plan {
  import opened Json

  /** A source string is a sequence of literal text and {{ path }} placeholders. */
  datatype Piece = Text(text: string) | Hole(path: Path)

  /** Argument expressions of an operation. */
  datatype Expr =
    | Scalar(value: Json)                      // null, booleans and numbers
    | Words(pieces: seq<Piece>)                // a string, possibly with raw placeholders
    | Literal(data: Json)                      // a __trama_literal_json__ wrapper
    | List(items: seq<Expr>)
    | Dict(entries: map<string, Expr>)
    | Ref(ref: string, path: Path)             // {ref, path}
    | Template(parts: seq<Expr>)               // {type: "template", parts}

  /** JSONLogic over some kind of variable. */
  datatype Logic<V> =
    | Const(value: Json)
    | Protected(data: Json)                    // a literal wrapper: no JSONLogic operator
    | Var(v: V)
    | Group(items: seq<Logic<V>>)
    | Operator(op: string, args: seq<Logic<V>>)

  /** Variables of a plan condition: raw payload paths and structured references. */
  datatype Operand = Raw(path: Path) | To(ref: string, path: Path)

  type Cond = Logic<Operand>

  datatype Op =
    | Call(id: Option<string>, target: string, args: Expr, undo: Option<Expr>)
    | Wait(id: Option<string>, seconds: real)
    | Sequence(steps: seq<Op>)
    | Condition(id: Option<string>, when: Cond, steps: seq<Op>, otherwise: seq<Op>)
    | Parallel(id: Option<string>, branches: seq<Op>)

  /** Exactly one termination rule per repeat. */
  datatype Stop = Count(n: nat) | Duration(seconds: real) | Continuous | Deadline(unix: real)

  datatype Repeat = Repeat(
    id: string,
    body: seq<Op>,
    interval: real,
    stop: Stop,
    state: seq<Retained>,
    initial: map<string, Json>)

  /** One key of repeat.state and the expression whose value it retains. */
  datatype Retained = Retained(key: string, value: Expr)

  /** A plan has at most one repeat, at top level. */
  datatype Plan =
    | Straight(steps: seq<Op>)
    | Looping(before: seq<Op>, loop: Repeat, after: seq<Op>)

  // ---------------------------------------------------------------- explicit ids

  function Named(id: Option<string>): set<string>
  {
    match id
    case Some(s) => {s}
    case None => {}
  }

  function Ids(op: Op): set<string>
  {
    match op
    case Call(id, _, _, _) => Named(id)
    case Wait(id, _) => Named(id)
    case Sequence(steps) => IdsOf(steps)
    case Condition(id, _, steps, otherwise) => Named(id) + IdsOf(steps) + IdsOf(otherwise)
    case Parallel(id, branches) => Named(id) + IdsOf(branches)
  }

  function IdsOf(ops: seq<Op>): set<string>
  {
    if ops == [] then {} else Ids(ops[0]) + IdsOf(ops[1..])
  }

  // ---------------------------------------------------------------- size

  /** The number of graph nodes one execution of the operation can visit. */
  function Size(op: Op): nat
  {
    match op
    case Call(_, _, _, _) => 1
    case Wait(_, _) => 1
    case Sequence(steps) => SizeOf(steps)
    case Condition(_, _, steps, otherwise) => 1 + SizeOf(steps) + SizeOf(otherwise)
    case Parallel(_, branches) => 1 + SizeOf(branches)
  }

  function SizeOf(ops: seq<Op>): nat
  {
    if ops == [] then 0 else Size(ops[0]) + SizeOf(ops[1..])
  }
}
