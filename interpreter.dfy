/** The tree-walking evaluator (Parsing/Interpreter.cs) and the call of a user function
    (Functions/LoxFunction.cs, `Call`), which runs the evaluator on the function body.

    Exceptions become results: an expression yields a `Result<Value>`, a statement an
    `Exit` (completed, left through `return`, or failed). Every step takes a `fuel`
    budget that each nested evaluation decreases, so that a program which does not
    terminate ends in `OutOfFuel` instead. */
module Interpreting {
  import opened Tokens
  import opened Exceptions
  import opened Ast
  import opened Environments
  import opened Runtime

  // The messages of the errors reported here.
  const DivideByZero := "Cannot divide by zero"
  const OperandMustBeNumber := "Operand must be a number."
  const OperandsMustBeNumbers := "Operands must be numbers."
  const OperandsNumbersOrStrings := "Operands must be two numbers OR two strings."
  const NotCallable := "Can only call functions and classes."
  const DuplicateKey := "An item with the same key has already been added."
  const ReturnEscaped := "A return statement escaped to the top level."
  const FrameLacksName := "The resolved frame does not bind the name."
  const ClosureLacksThis := "The closure does not bind 'this'."

  /* ---------------- Values ---------------- */

  /** The run-time value of a literal token. */
  function LitValue(lit: Lit): (v: Value)
    ensures v.VNil? || v.VBool? || v.VNum? || v.VStr?
  {
    match lit
    case NilLit => VNil
    case BoolLit(b) => VBool(b)
    case NumLit(n) => VNum(n)
    case StrLit(s) => VStr(s)
  }

  /** `nil` and `false` are falsey; every other value is truthy. */
  function IsTruthy(v: Value): (b: bool)
    ensures !b <==> v == VNil || v == VBool(false)
  {
    match v
    case VNil => false
    case VBool(b) => b
    case _ => true
  }

  /** `nil` equals only `nil`; numbers, strings and booleans compare by value and
      functions, classes and instances by identity. */
  function IsEqual(a: Value, b: Value): (r: bool)
    ensures r <==> a == b
  {
    if a == VNil && b == VNil then true
    else if a == VNil then false
    else a == b
  }

  /** The error a unary minus raises on a non-number, if any. */
  function CheckNumberOperand(op: Token, operand: Value): (r: Option<Failure>)
    ensures r.None? <==> operand.VNum?
    ensures r.Some? ==> r.value == RuntimeError(op, OperandMustBeNumber)
  {
    if operand.VNum? then None else Some(RuntimeError(op, OperandMustBeNumber))
  }

  /** The error an arithmetic or comparison operator raises unless both operands are numbers. */
  function CheckNumberOperands(op: Token, left: Value, right: Value): (r: Option<Failure>)
    ensures r.None? <==> left.VNum? && right.VNum?
    ensures r.Some? ==> r.value == RuntimeError(op, OperandsMustBeNumbers)
  {
    if left.VNum? && right.VNum? then None else Some(RuntimeError(op, OperandsMustBeNumbers))
  }

  predicate IsNumericOperator(t: TokenType) {
    t == Greater || t == GreaterEqual || t == Less || t == LessEqual
    || t == Minus || t == Slash || t == Asterisk
  }

  /** A binary operator applied to two evaluated operands; `BinaryOpMeaning` states
      what each operator gives. */
  function BinaryOp(op: Token, left: Value, right: Value): (r: Result<Value>)
    ensures r.Err? ==> r.failure.RuntimeError? && r.failure.token == op
    ensures r.Ok? ==> r.value.VNil? || r.value.VBool? || r.value.VNum? || r.value.VStr?
  {
    if op.kind.EqualEqual? then Ok(VBool(IsEqual(left, right)))
    else if op.kind.BangEqual? then Ok(VBool(!IsEqual(left, right)))
    else if op.kind.Plus? then
      if left.VNum? && right.VNum? then Ok(VNum(left.n + right.n))
      else if left.VStr? && right.VStr? then Ok(VStr(left.s + right.s))
      else Err(RuntimeError(op, OperandsNumbersOrStrings))
    else if !IsNumericOperator(op.kind) then Ok(VNil)
    else if CheckNumberOperands(op, left, right).Some? then Err(CheckNumberOperands(op, left, right).value)
    else if op.kind.Greater? then Ok(VBool(left.n > right.n))
    else if op.kind.GreaterEqual? then Ok(VBool(left.n >= right.n))
    else if op.kind.Less? then Ok(VBool(left.n < right.n))
    else if op.kind.LessEqual? then Ok(VBool(left.n <= right.n))
    else if op.kind.Minus? then Ok(VNum(left.n - right.n))
    else if op.kind.Asterisk? then Ok(VNum(left.n * right.n))
    else if right.n == 0.0 then Err(RuntimeError(op, DivideByZero))
    else Ok(VNum(left.n / right.n))
  }

  /** What each operator gives: comparisons and arithmetic on two numbers, equality on
      any two values, `+` on two numbers or two strings, and nil for any other operator. */
  lemma BinaryOpMeaning(op: Token, left: Value, right: Value)
    ensures IsNumericOperator(op.kind) && !(left.VNum? && right.VNum?) ==>
              BinaryOp(op, left, right) == Err(RuntimeError(op, OperandsMustBeNumbers))
    ensures op.kind.Greater? && left.VNum? && right.VNum? ==> BinaryOp(op, left, right) == Ok(VBool(left.n > right.n))
    ensures op.kind.GreaterEqual? && left.VNum? && right.VNum? ==> BinaryOp(op, left, right) == Ok(VBool(left.n >= right.n))
    ensures op.kind.Less? && left.VNum? && right.VNum? ==> BinaryOp(op, left, right) == Ok(VBool(left.n < right.n))
    ensures op.kind.LessEqual? && left.VNum? && right.VNum? ==> BinaryOp(op, left, right) == Ok(VBool(left.n <= right.n))
    ensures op.kind.Minus? && left.VNum? && right.VNum? ==> BinaryOp(op, left, right) == Ok(VNum(left.n - right.n))
    ensures op.kind.Asterisk? && left.VNum? && right.VNum? ==> BinaryOp(op, left, right) == Ok(VNum(left.n * right.n))
    ensures op.kind.Slash? && left.VNum? && right.VNum? ==>
              BinaryOp(op, left, right) == if right.n == 0.0 then Err(RuntimeError(op, DivideByZero))
                                           else Ok(VNum(left.n / right.n))
    ensures op.kind.EqualEqual? ==> BinaryOp(op, left, right) == Ok(VBool(left == right))
    ensures op.kind.BangEqual? ==> BinaryOp(op, left, right) == Ok(VBool(left != right))
    ensures op.kind.Plus? ==>
              BinaryOp(op, left, right) == if left.VNum? && right.VNum? then Ok(VNum(left.n + right.n))
                                           else if left.VStr? && right.VStr? then Ok(VStr(left.s + right.s))
                                           else Err(RuntimeError(op, OperandsNumbersOrStrings))
    ensures !IsNumericOperator(op.kind) && op.kind !in {EqualEqual, BangEqual, Plus} ==> BinaryOp(op, left, right) == Ok(VNil)
  {
  }

  /** A unary operator applied to its evaluated operand. */
  function UnaryOp(op: Token, operand: Value): (r: Result<Value>)
    ensures op.kind.Bang? ==> r == Ok(VBool(operand == VNil || operand == VBool(false)))
    ensures op.kind.Minus? ==>
              r == if operand.VNum? then Ok(VNum(-operand.n))
                   else Err(RuntimeError(op, OperandMustBeNumber))
    ensures !op.kind.Bang? && !op.kind.Minus? ==> r == Ok(VNil)
  {
    match op.kind
    case Bang => Ok(VBool(!IsTruthy(operand)))
    case Minus =>
      (match CheckNumberOperand(op, operand)
       case Some(failure) => Err(failure)
       case None => Ok(VNum(-operand.n)))
    case _ => Ok(VNil)
  }

  /** Whether `and`/`or` is decided by its left operand alone: `or` by a truthy one,
      any other operator by a falsey one. The left operand is then the result. */
  function ShortCircuits(op: Token, left: Value): (b: bool)
    ensures op.kind.Or? ==> (b <==> left != VNil && left != VBool(false))
    ensures !op.kind.Or? ==> (b <==> left == VNil || left == VBool(false))
  {
    if op.kind.Or? then IsTruthy(left) else !IsTruthy(left)
  }

  /** The arity of a callable value; none for a value that cannot be called. */
  function ArityOf(callee: Value): (r: Option<nat>)
    ensures r.Some? <==> callee.VFunction? || callee.VClass? || callee.VClock?
  {
    match callee
    case VFunction(fn) => Some(fn.Arity())
    case VClass(cls) => Some(cls.Arity())
    case VClock => Some(0)
    case _ => None
  }

  function DigitChar(d: nat): (c: char)
    requires d < 10
    ensures IsDigit(c) && DigitValue(c) == d
  {
    ('0' as int + d) as char
  }

  /** Decimal rendering of a count, as string interpolation writes an `int`. */
  function NatToString(n: nat): (s: string)
    ensures |s| > 0 && AllDigits(s)
  {
    if n < 10 then [DigitChar(n)] else NatToString(n / 10) + [DigitChar(n % 10)]
  }

  /** The error a call raises before running anything: the callee cannot be called, or
      the number of arguments differs from its arity. */
  function CheckCall(paren: Token, callee: Value, argCount: nat): (r: Option<Failure>)
    ensures r.None? <==> ArityOf(callee) == Some(argCount)
    ensures ArityOf(callee).None? ==> r == Some(RuntimeError(paren, NotCallable))
    ensures ArityOf(callee).Some? && ArityOf(callee).value != argCount ==>
              r == Some(RuntimeError(paren, "Expected " + NatToString(ArityOf(callee).value)
                                            + " arguments but got " + NatToString(argCount) + "."))
  {
    match ArityOf(callee)
    case None => Some(RuntimeError(paren, NotCallable))
    case Some(arity) =>
      if argCount != arity
      then Some(RuntimeError(paren, "Expected " + NatToString(arity) + " arguments but got " + NatToString(argCount) + "."))
      else None
  }

  /** A function accepts exactly as many arguments as it declares parameters. */
  lemma FunctionArity(paren: Token, fn: LoxFunction, argCount: nat)
    ensures CheckCall(paren, VFunction(fn), argCount).None? <==> argCount == |fn.declaration.params|
  {
  }

  /** Calling a class accepts no arguments. */
  lemma ClassArity(paren: Token, cls: LoxClass, argCount: nat)
    ensures CheckCall(paren, VClass(cls), argCount).None? <==> argCount == 0
  {
  }

  /** The bindings a call adds to its new frame: parameter i to argument i, in order,
      so that a later parameter of the same name wins. */
  function ParamBindings(params: seq<Token>, args: seq<Value>): (m: map<string, Value>)
    requires |params| <= |args|
    ensures m.Keys == set p | p in params :: p.lexeme
    ensures forall k :: k in m ==> m[k] in args
    decreases |params|
  {
    if params == [] then map[]
    else ParamBindings(params[..|params| - 1], args)[params[|params| - 1].lexeme := args[|params| - 1]]
  }

  /* ---------------- What the evaluator can run ---------------- */

  /** Expressions the evaluator has a visitor for: it has none for property access,
      property assignment, `this` or `super`. */
  predicate ExprExecutable(e: Expr) {
    match e
    case Assign(_, _, value) => ExprExecutable(value)
    case Binary(_, left, _, right) => ExprExecutable(left) && ExprExecutable(right)
    case Call(_, callee, _, arguments) =>
      ExprExecutable(callee) && forall a | a in arguments :: ExprExecutable(a)
    case Grouping(_, expression) => ExprExecutable(expression)
    case Literal(_, _) => true
    case Logical(_, left, _, right) => ExprExecutable(left) && ExprExecutable(right)
    case Unary(_, _, right) => ExprExecutable(right)
    case Variable(_, _) => true
    case Get(_, _, _) => false
    case Set(_, _, _, _) => false
    case Super(_, _, _) => false
    case This(_, _) => false
  }

  /** Statements the evaluator has a visitor for: all but class declarations. */
  predicate StmtExecutable(s: Stmt) {
    match s
    case Block(statements) => forall t | t in statements :: StmtExecutable(t)
    case Class(_, _, _) => false
    case Expression(expression) => ExprExecutable(expression)
    case Function(decl) => forall t | t in decl.body :: StmtExecutable(t)
    case If(condition, thenBranch, elseBranch) =>
      ExprExecutable(condition) && StmtExecutable(thenBranch)
      && (elseBranch.Some? ==> StmtExecutable(elseBranch.value))
    case Print(expression) => ExprExecutable(expression)
    case Return(_, value) => value.Some? ==> ExprExecutable(value.value)
    case Var(_, initializer) => initializer.Some? ==> ExprExecutable(initializer.value)
    case While(condition, body) => ExprExecutable(condition) && StmtExecutable(body)
  }

  predicate AllExecutable(statements: seq<Stmt>) {
    forall s | s in statements :: StmtExecutable(s)
  }

  /** How a statement ends: it completes, a `return` unwinds with a value (the `Return`
      exception), or evaluation failed. */
  datatype Exit = Normal | Returned(value: Value) | Failed(failure: Failure)

  /** Every one of the exits is `Normal`: each statement completed. */
  predicate Completed(exits: seq<Exit>) {
    forall j | 0 <= j < |exits| :: exits[j].Normal?
  }

  /** `exits` are the exits of the first of `count` statements run in order: each ran
      only after the one before it completed, and they stop early only at an exit that
      is not `Normal`. */
  predicate RanInOrder(exits: seq<Exit>, count: nat) {
    && |exits| <= count
    && Completed(if exits == [] then [] else exits[..|exits| - 1])
    && (|exits| < count ==> |exits| > 0 && !exits[|exits| - 1].Normal?)
  }

  /** A statement that did not complete ends the run there. */
  lemma {:induction false} StoppedAt(exits: seq<Exit>, x: Exit, count: nat)
    requires Completed(exits) && |exits| < count && !x.Normal?
    ensures RanInOrder(exits + [x], count) && !Completed(exits + [x])
    ensures (exits + [x])[|exits|] == x
  {
    assert (exits + [x])[..|exits|] == exits;
    assert !(exits + [x])[|exits|].Normal?;
  }

  /** A statement that completed extends the completed prefix. */
  lemma {:induction false} CompletedSnoc(exits: seq<Exit>, count: nat)
    requires Completed(exits) && |exits| == count
    ensures RanInOrder(exits, count)
    ensures exits != [] ==> exits[|exits| - 1] == Normal
  {
  }

  /* ---------------- The reference evaluation ---------------- */

  /** How a run of statements ends: as its last statement did, or normally when there
      were none. */
  function FinalExit(exits: seq<Exit>): Exit {
    if exits == [] then Normal else exits[|exits| - 1]
  }

  /** What evaluating without side effects reads: the global bindings, the bindings of
      the current frame and of each frame around it (nearest first), the resolution
      table, and whether the current frame is the global one. */
  datatype Store = Store(globals: map<string, Value>, frames: seq<map<string, Value>>,
                         locals: map<nat, nat>, inGlobals: bool)

  /** A variable read: through the recorded distance when the reference was resolved,
      in the globals otherwise. */
  function Lookup(st: Store, name: Token, id: nat): (r: Result<Value>)
    ensures r.Err? && id !in st.locals ==> r.failure == UndefinedVariable(name)
    ensures r.Err? && id in st.locals ==> r.failure == HostFault(FrameLacksName)
    ensures r.Ok? <==> if id in st.locals then st.locals[id] < |st.frames| && name.lexeme in st.frames[st.locals[id]]
                       else name.lexeme in st.globals
  {
    if id !in st.locals then
      if name.lexeme in st.globals then Ok(st.globals[name.lexeme]) else Err(UndefinedVariable(name))
    else if st.locals[id] < |st.frames| && name.lexeme in st.frames[st.locals[id]]
    then Ok(st.frames[st.locals[id]][name.lexeme])
    else Err(HostFault(FrameLacksName))
  }

  /** `var name = value;` in the current frame, which may be the global one. */
  function Bound(st: Store, name: string, value: Value): (o: Store)
    ensures |o.frames| == |st.frames| && o.locals == st.locals && o.inGlobals == st.inGlobals
    ensures |st.frames| > 0 ==> o.frames[0] == st.frames[0][name := value] && o.frames[1..] == st.frames[1..]
    ensures o.globals == if st.inGlobals then st.globals[name := value] else st.globals
  {
    st.(frames := if st.frames == [] then [] else st.frames[0 := st.frames[0][name := value]],
        globals := if st.inGlobals then st.globals[name := value] else st.globals)
  }

  /** The expressions whose evaluation has no effect: literals, groupings, variable
      reads and the operators. */
  predicate IsPure(e: Expr) {
    match e
    case Literal(_, _) => true
    case Grouping(_, expression) => IsPure(expression)
    case Variable(_, _) => true
    case Unary(_, _, right) => IsPure(right)
    case Binary(_, left, _, right) => IsPure(left) && IsPure(right)
    case Logical(_, left, _, right) => IsPure(left) && IsPure(right)
    case _ => false
  }

  /** How deep the nesting of operators and groupings is: the fuel an evaluation needs. */
  function Height(e: Expr): nat {
    match e
    case Grouping(_, expression) => Height(expression) + 1
    case Unary(_, _, right) => Height(right) + 1
    case Binary(_, left, _, right) => if Height(left) < Height(right) then Height(right) + 1 else Height(left) + 1
    case Logical(_, left, _, right) => if Height(left) < Height(right) then Height(right) + 1 else Height(left) + 1
    case _ => 0
  }

  /** The value of an effect-free expression: operands left to right, the first
      failure ending the evaluation, `and`/`or` skipping the right operand when the
      left one decides. */
  function Eval(e: Expr, st: Store): (r: Result<Value>)
    requires IsPure(e)
    ensures r.Err? ==> r.failure.RuntimeError? || r.failure == HostFault(FrameLacksName)
  {
    match e
    case Literal(_, lit) => Ok(LitValue(lit))
    case Grouping(_, expression) => Eval(expression, st)
    case Variable(id, name) => Lookup(st, name, id)
    case Unary(_, op, right) =>
      var operand := Eval(right, st);
      if operand.Err? then operand else UnaryOp(op, operand.value)
    case Binary(_, left, op, right) =>
      var l := Eval(left, st);
      if l.Err? then l
      else
        var r := Eval(right, st);
        if r.Err? then r else BinaryOp(op, l.value, r.value)
    case Logical(_, left, op, right) =>
      var l := Eval(left, st);
      if l.Err? || ShortCircuits(op, l.value) then l else Eval(right, st)
  }

  /** A call whose callee and arguments are effect-free and within `fuel`. */
  predicate PureOperands(e: Expr, fuel: nat)
    requires e.Call?
  {
    && IsPure(e.callee) && Height(e.callee) < fuel
    && forall j | 0 <= j < |e.arguments| :: IsPure(e.arguments[j]) && Height(e.arguments[j]) < fuel
  }

  /** Statements that print, evaluate, declare or return an effect-free expression. */
  predicate SimpleStmt(s: Stmt) {
    match s
    case Print(expression) => IsPure(expression)
    case Expression(expression) => IsPure(expression)
    case Var(_, initializer) => initializer.Some? ==> IsPure(initializer.value)
    case Return(_, value) => value.Some? ==> IsPure(value.value)
    case _ => false
  }

  /** The fuel a simple statement needs beyond the one unit of running it. */
  function StmtHeight(s: Stmt): nat {
    match s
    case Print(expression) => Height(expression) + 1
    case Expression(expression) => Height(expression) + 1
    case Var(_, initializer) => if initializer.Some? then Height(initializer.value) + 1 else 0
    case Return(_, value) => if value.Some? then Height(value.value) + 1 else 0
    case _ => 0
  }

  /** Simple statements, every one of which `fuel` suffices for. */
  predicate SimpleBody(statements: seq<Stmt>, fuel: nat) {
    forall j | 0 <= j < |statements| :: SimpleStmt(statements[j]) && StmtHeight(statements[j]) < fuel
  }

  /** The store a block's statements start in: a new, empty frame inside the
      current one. */
  function InBlock(st: Store): Store {
    st.(frames := [map[]] + st.frames, inGlobals := false)
  }

  /** A run of simple statements in a block's frame leaves the frames around it, the
      globals and the resolution table as they were. */
  lemma {:induction false} BlockRestores(statements: seq<Stmt>, start: Store, after: Store)
    requires forall j | 0 <= j < |statements| :: SimpleStmt(statements[j])
    requires after == RunFrom(statements, 0, InBlock(start)).store
    ensures after.frames[1..] == start.frames && after.globals == start.globals && after.locals == start.locals
  {
    assert InBlock(start).frames[1..] == start.frames;
  }

  /** What a run of statements did: how each ended, what they printed, and the store
      they left. */
  datatype Outcome = Outcome(exit: Exit, printed: seq<Value>, store: Store)
  datatype Run = Run(exits: seq<Exit>, printed: seq<Value>, store: Store)

  /** One simple statement. */
  function Step(s: Stmt, st: Store): (o: Outcome)
    requires SimpleStmt(s)
    ensures o.exit.Returned? <==> s.Return? && !o.exit.Failed?
    ensures |o.printed| <= 1 && (o.printed != [] ==> s.Print? && o.exit.Normal?)
  {
    match s
    case Print(expression) =>
      var v := Eval(expression, st);
      if v.Err? then Outcome(Failed(v.failure), [], st) else Outcome(Normal, [v.value], st)
    case Expression(expression) =>
      var v := Eval(expression, st);
      Outcome(if v.Err? then Failed(v.failure) else Normal, [], st)
    case Var(name, initializer) =>
      var v := if initializer.None? then Ok(VNil) else Eval(initializer.value, st);
      if v.Err? then Outcome(Failed(v.failure), [], st) else Outcome(Normal, [], Bound(st, name.lexeme, v.value))
    case Return(_, value) =>
      var v := if value.None? then Ok(VNil) else Eval(value.value, st);
      Outcome(if v.Err? then Failed(v.failure) else Returned(v.value), [], st)
  }

  /** A simple statement changes at most the current frame, by the name a `var`
      declares, and the globals with it when it is the global frame. */
  lemma {:induction false} StepStore(s: Stmt, st: Store)
    requires SimpleStmt(s)
    ensures var o := Step(s, st);
            && (!(s.Var? && o.exit.Normal?) ==> o.store == st)
            && |o.store.frames| == |st.frames| && o.store.locals == st.locals && o.store.inGlobals == st.inGlobals
            && (|st.frames| > 0 ==>
                  o.store.frames[1..] == st.frames[1..] && (s.Var? && o.exit.Normal? ==> s.name.lexeme in o.store.frames[0]))
            && (!st.inGlobals ==> o.store.globals == st.globals)
  {
  }

  /** The simple statements from `i` on, in order, until one does not complete. Only
      the current frame, and the globals when it is the global frame, change. */
  function RunFrom(statements: seq<Stmt>, i: nat, st: Store): (o: Run)
    requires i <= |statements| && forall j | i <= j < |statements| :: SimpleStmt(statements[j])
    ensures RanInOrder(o.exits, |statements| - i)
    ensures |o.store.frames| == |st.frames| && o.store.locals == st.locals && o.store.inGlobals == st.inGlobals
    ensures |st.frames| > 0 ==> o.store.frames[1..] == st.frames[1..]
    ensures !st.inGlobals ==> o.store.globals == st.globals
    decreases |statements| - i
  {
    if i == |statements| then Run([], [], st)
    else
      var first := Step(statements[i], st);
      StepStore(statements[i], st);
      if !first.exit.Normal? then Run([first.exit], first.printed, first.store)
      else
        var rest := RunFrom(statements, i + 1, first.store);
        Run([Normal] + rest.exits, first.printed + rest.printed, rest.store)
  }

  /** The first `i` statements ended as `exits`, printed what `out` adds to `out0` and
      left `now`: the rest of the run from there completes `whole`. */
  predicate RunSoFar(statements: seq<Stmt>, i: nat, exits: seq<Exit>, whole: Run, out0: seq<Value>,
                     now: Store, out: seq<Value>)
    requires i <= |statements| && forall j | i <= j < |statements| :: SimpleStmt(statements[j])
  {
    var rest := RunFrom(statements, i, now);
    && out0 <= out
    && whole.exits == exits + rest.exits
    && whole.printed == out[|out0|..] + rest.printed
    && whole.store == rest.store
  }

  /** The run from `start` ended as `exits`, added its output to `out0` giving `out`,
      and left `now`. */
  predicate RunDone(statements: seq<Stmt>, exits: seq<Exit>, start: Store, out0: seq<Value>,
                    now: Store, out: seq<Value>)
    requires forall j | 0 <= j < |statements| :: SimpleStmt(statements[j])
  {
    var whole := RunFrom(statements, 0, start);
    exits == whole.exits && out == out0 + whole.printed && now == whole.store
  }

  /** Nothing has run yet. */
  lemma {:induction false} RunSoFarStart(statements: seq<Stmt>, start: Store, out0: seq<Value>)
    requires forall j | 0 <= j < |statements| :: SimpleStmt(statements[j])
    ensures RunSoFar(statements, 0, [], RunFrom(statements, 0, start), out0, start, out0)
  {
    assert out0[|out0|..] == [];
  }

  /** A statement that completes hands the run on to the next one. */
  lemma {:induction false} RunFromNormal(statements: seq<Stmt>, i: nat, st: Store, o: Outcome)
    requires i < |statements| && forall j | i <= j < |statements| :: SimpleStmt(statements[j])
    requires o == Step(statements[i], st) && o.exit.Normal?
    ensures var next := RunFrom(statements, i + 1, o.store);
            RunFrom(statements, i, st) == Run([Normal] + next.exits, o.printed + next.printed, next.store)
  {
  }

  /** Statement `i` completed: the run goes on with the next one. */
  lemma {:induction false} RunSoFarNext(statements: seq<Stmt>, i: nat, exits: seq<Exit>, whole: Run,
                                        out0: seq<Value>, now: Store, out: seq<Value>, o: Outcome)
    requires i < |statements| && forall j | i <= j < |statements| :: SimpleStmt(statements[j])
    requires RunSoFar(statements, i, exits, whole, out0, now, out)
    requires o == Step(statements[i], now) && o.exit.Normal?
    ensures RunSoFar(statements, i + 1, exits + [Normal], whole, out0, o.store, out + o.printed)
  {
    var next := RunFrom(statements, i + 1, o.store);
    RunFromNormal(statements, i, now, o);
    Regroup(exits, next.exits, out0, out, o.printed, next.printed);
  }

  /** Moving one completed statement from the rest of a run to the part already run. */
  lemma {:induction false} Regroup(exits: seq<Exit>, later: seq<Exit>, out0: seq<Value>, out: seq<Value>,
                                   printed: seq<Value>, laterPrinted: seq<Value>)
    requires out0 <= out
    ensures exits + ([Normal] + later) == (exits + [Normal]) + later
    ensures out0 <= out + printed
    ensures out[|out0|..] + (printed + laterPrinted) == (out + printed)[|out0|..] + laterPrinted
  {
    assert (out + printed)[|out0|..] == out[|out0|..] + printed;
  }

  /** Statement `i` did not complete: the run ends with it. */
  lemma {:induction false} RunSoFarStop(statements: seq<Stmt>, i: nat, exits: seq<Exit>, whole: Run,
                                        out0: seq<Value>, now: Store, out: seq<Value>, o: Outcome)
    requires i < |statements| && forall j | i <= j < |statements| :: SimpleStmt(statements[j])
    requires RunSoFar(statements, i, exits, whole, out0, now, out)
    requires o == Step(statements[i], now) && !o.exit.Normal?
    ensures exits + [o.exit] == whole.exits && out + o.printed == out0 + whole.printed && o.store == whole.store
  {
    assert RunFrom(statements, i, now) == Run([o.exit], o.printed, o.store);
    assert out == out0 + out[|out0|..];
  }

  /** Past the last statement the run is done. */
  lemma {:induction false} RunSoFarEnd(statements: seq<Stmt>, exits: seq<Exit>, whole: Run,
                                       out0: seq<Value>, now: Store, out: seq<Value>)
    requires RunSoFar(statements, |statements|, exits, whole, out0, now, out)
    ensures exits == whole.exits && out == out0 + whole.printed && now == whole.store
  {
    assert exits + [] == exits;
    assert out == out0 + out[|out0|..];
  }

  class Interpreter {
    /** The global frame; `clock` is bound in it. */
    const Globals: Environment<Value>
    /** The frame statements currently run in. */
    var environment: Environment<Value>
    /** The resolution table: expression id to the number of frames between its use
        and the frame that binds it. Absent ids are looked up as globals. */
    var locals: map<nat, nat>
    /** The values `print` wrote, in order. */
    var output: seq<Value>
    /** The runtime errors reported to the user, in order. */
    var reported: seq<Failure>
    /** What `clock()` returns: the host's tick count in seconds. */
    const clockReading: real
    /** Every frame the interpreter has created or can reach. */
    ghost var Frames: set<Environment<Value>>

    /** A function value is usable: its closure is a known, well-formed frame and its
        body can be run. */
    ghost predicate ValueOk(v: Value)
      reads this`Frames
    {
      v.VFunction? ==> v.fn.closure in Frames && v.fn.closure.Valid() && AllExecutable(v.fn.declaration.body)
    }

    ghost predicate Valid()
      reads this`Frames, this`environment, Frames
    {
      && Globals in Frames && environment in Frames
      && Globals.Valid() && Globals.ancestors == []
      && (forall f | f in Frames :: f.Valid() && f.Frames() <= Frames)
      && (forall f, k | f in Frames && k in f.values :: ValueOk(f.values[k]))
    }

    /** What every evaluation step keeps: the interpreter stays well formed, the
        current frame is restored, frames are only added, printed output is only
        appended to, and no frame that existed before gains or loses a name except
        `grown`, the frame a statement declares into. */
    twostate predicate Preserved(new grown: Environment?<Value>)
      reads this, Frames
    {
      && Valid()
      && environment == old(environment)
      && old(Frames) <= Frames && fresh(Frames - old(Frames))
      && old(output) <= output
      && (forall f | f in old(Frames) && f != grown :: f.values.Keys == old(f.values.Keys))
    }

    /** The store as seen from frame `env`. */
    ghost function StoreAt(env: Environment<Value>): Store
      requires env.Valid()
      reads this`locals, Globals, env.Frames()
    {
      Store(Globals.values, env.Chain(), locals, env == Globals)
    }

    /** The store a call of `fn` runs its body in: a new frame binding the parameters,
        inside the closure. */
    ghost function CallStore(fn: LoxFunction, args: seq<Value>): Store
      requires fn.closure.Valid() && |fn.declaration.params| <= |args|
      reads this`locals, Globals, fn.closure.Frames()
    {
      Store(Globals.values, [ParamBindings(fn.declaration.params, args)] + fn.closure.Chain(), locals, false)
    }

    /** No frame was created and none changed. */
    twostate predicate Untouched()
      reads this, Frames
    {
      Frames == old(Frames) && unchanged(Frames)
    }

    /** A step that created and changed no frame leaves the store as it was. */
    twostate lemma {:induction false} UntouchedStore()
      requires old(Valid()) && Untouched() && environment == old(environment) && locals == old(locals)
      ensures old(environment.Valid()) && StoreAt(environment) == old(StoreAt(environment))
    {
      environment.ChainUnchanged();
    }

    constructor (clockReading: real)
      ensures Valid() && environment == Globals
      ensures Globals.values == map["clock" := VClock]
      ensures locals == map[] && output == [] && reported == []
    {
      var globals := new Environment.Global();
      globals.Define("clock", VClock);
      Globals := globals;
      environment := globals;
      locals := map[];
      output := [];
      reported := [];
      this.clockReading := clockReading;
      Frames := {globals};
    }

    /** Records the resolver's distance for an expression; `Dictionary.Add` throws
        when the expression was already resolved. */
    method Resolve(id: nat, depth: nat) returns (r: Result<()>)
      modifies this`locals
      ensures id in old(locals) ==> r == Err(HostFault(DuplicateKey)) && locals == old(locals)
      ensures id !in old(locals) ==> r == Ok(()) && locals == old(locals)[id := depth]
    {
      if id in locals {
        return Err(HostFault(DuplicateKey));
      }
      locals := locals[id := depth];
      return Ok(());
    }

    /** Runs the statements in order; the first runtime error is reported and ends the
        run. Any other failure, and a `return` outside any function, escapes to the host.
        `exits` are the ways the statements that ran ended, in order; for simple
        statements they are those of the reference run from the current store. */
    method Interpret(statements: seq<Stmt>, fuel: nat) returns (r: Result<()>, ghost exits: seq<Exit>)
      requires Valid() && AllExecutable(statements)
      modifies this`environment, this`output, this`Frames, this`reported, Frames
      ensures Valid() && environment == old(environment) && old(output) <= output
      ensures r.Err? ==> reported == old(reported) && !r.failure.RuntimeError?
      ensures RanInOrder(exits, |statements|)
      ensures match FinalExit(exits)
              case Normal => r == Ok(()) && reported == old(reported)
              case Returned(_) => r == Err(HostFault(ReturnEscaped)) && reported == old(reported)
              case Failed(failure) =>
                if failure.RuntimeError? then r == Ok(()) && reported == old(reported) + [failure]
                else r == Err(failure) && reported == old(reported)
      ensures SimpleBody(statements, fuel) ==>
                RunDone(statements, exits, old(StoreAt(environment)), old(output), StoreAt(environment), output)
    {
      var x;
      x, exits := ExecuteStatements(statements, fuel);
      match x
      case Normal =>
        r := Ok(());
      case Returned(_) =>
        r := Err(HostFault(ReturnEscaped));
      case Failed(failure) =>
        if failure.RuntimeError? {
          reported := reported + [failure];
          r := Ok(());
        } else {
          r := Err(failure);
        }
    }

    /** Runs `statements` in `frame`, and restores the current frame however they end. */
    method ExecuteBlock(statements: seq<Stmt>, frame: Environment<Value>, fuel: nat)
        returns (x: Exit, ghost exits: seq<Exit>)
      requires Valid() && frame in Frames && AllExecutable(statements)
      modifies this`environment, this`output, this`Frames, Frames
      ensures Preserved(frame)
      ensures x.Returned? ==> ValueOk(x.value)
      ensures RanInOrder(exits, |statements|)
      ensures x == FinalExit(exits)
      ensures SimpleBody(statements, fuel) ==>
                RunDone(statements, exits, old(StoreAt(frame)), old(output), StoreAt(frame), output)
      decreases fuel, 4
    {
      var previous := environment;
      environment := frame;
      ghost var start, out0 := StoreAt(frame), output;
      x, exits := ExecuteStatements(statements, fuel);
      ghost var ran := StoreAt(frame);
      environment := previous;
      assert StoreAt(frame) == ran && old(StoreAt(frame)) == start;
    }

    /** The statements in order in the current frame, until one does not complete. */
    method ExecuteStatements(statements: seq<Stmt>, fuel: nat) returns (x: Exit, ghost exits: seq<Exit>)
      requires Valid() && AllExecutable(statements)
      modifies this`environment, this`output, this`Frames, Frames
      ensures Preserved(environment)
      ensures x.Returned? ==> ValueOk(x.value)
      ensures RanInOrder(exits, |statements|)
      ensures x == FinalExit(exits)
      ensures SimpleBody(statements, fuel) ==>
                RunDone(statements, exits, old(StoreAt(environment)), old(output), StoreAt(environment), output)
      decreases fuel, 3
    {
      ghost var simple, start := SimpleBody(statements, fuel), StoreAt(environment);
      ghost var whole := if simple then RunFrom(statements, 0, start) else Run([], [], start);
      if simple {
        RunSoFarStart(statements, start, output);
      }
      x, exits := RunStatements(statements, fuel, simple, whole);
    }

    /** The loop of `ExecuteStatements`; for simple statements it completes `whole`. */
    method RunStatements(statements: seq<Stmt>, fuel: nat, ghost simple: bool, ghost whole: Run)
        returns (x: Exit, ghost exits: seq<Exit>)
      requires Valid() && AllExecutable(statements)
      requires simple ==> SimpleBody(statements, fuel)
                          && RunSoFar(statements, 0, [], whole, output, StoreAt(environment), output)
      modifies this`environment, this`output, this`Frames, Frames
      ensures Preserved(environment)
      ensures x.Returned? ==> ValueOk(x.value)
      ensures RanInOrder(exits, |statements|)
      ensures x == FinalExit(exits)
      ensures simple ==> exits == whole.exits && output == old(output) + whole.printed && StoreAt(environment) == whole.store
      decreases fuel, 2
    {
      x := Normal;
      exits := [];
      ghost var out0 := output;
      var i := 0;
      while i < |statements|
        invariant 0 <= i <= |statements|
        invariant Preserved(environment) && x == Normal
        invariant |exits| == i && Completed(exits)
        invariant simple ==> RunSoFar(statements, i, exits, whole, out0, StoreAt(environment), output)
      {
        x := ExecuteNext(statements, i, fuel, simple, exits, whole, out0);
        if !x.Normal? {
          StoppedAt(exits, x, |statements|);
          exits := exits + [x];
          return;
        }
        exits := exits + [x];
        i := i + 1;
      }
      CompletedSnoc(exits, |statements|);
      if simple {
        RunSoFarEnd(statements, exits, whole, out0, StoreAt(environment), output);
      }
    }

    /** Statement `i` of a run; for simple statements, the run so far moves past it. */
    method ExecuteNext(statements: seq<Stmt>, i: nat, fuel: nat, ghost simple: bool, ghost exits: seq<Exit>,
                       ghost whole: Run, ghost out0: seq<Value>) returns (x: Exit)
      requires Valid() && AllExecutable(statements) && i < |statements|
      requires simple ==> SimpleBody(statements, fuel)
                          && RunSoFar(statements, i, exits, whole, out0, StoreAt(environment), output)
      modifies this`environment, this`output, this`Frames, Frames
      ensures Preserved(environment)
      ensures x.Returned? ==> ValueOk(x.value)
      ensures simple && x.Normal? ==>
                RunSoFar(statements, i + 1, exits + [Normal], whole, out0, StoreAt(environment), output)
      ensures simple && !x.Normal? ==>
                exits + [x] == whole.exits && output == out0 + whole.printed && StoreAt(environment) == whole.store
      decreases fuel, 1
    {
      ghost var now, out := StoreAt(environment), output;
      x := Execute(statements[i], fuel);
      if simple {
        if x.Normal? {
          RunSoFarNext(statements, i, exits, whole, out0, now, out, Step(statements[i], now));
        } else {
          RunSoFarStop(statements, i, exits, whole, out0, now, out, Step(statements[i], now));
        }
      }
    }

    method Execute(s: Stmt, fuel: nat) returns (x: Exit)
      requires Valid() && StmtExecutable(s)
      modifies this`environment, this`output, this`Frames, Frames
      ensures Preserved(environment)
      ensures x.Returned? ==> ValueOk(x.value)
      ensures s.Return? ==> !x.Normal?
      ensures s.Var? && x.Normal? ==> s.name.lexeme in environment.values
      ensures SimpleStmt(s) && StmtHeight(s) < fuel ==>
                var o := Step(s, old(StoreAt(environment)));
                x == o.exit && output == old(output) + o.printed && StoreAt(environment) == o.store
      decreases fuel, 0
    {
      if fuel == 0 {
        return Failed(OutOfFuel);
      }
      match s
      case Block(statements) =>
        x := VisitBlock(s, fuel - 1);
      case Function(decl) =>
        VisitFunction(s);
        x := Normal;
      case If(_, _, _) =>
        ghost var condition;
        x, condition := VisitIf(s, fuel - 1);
      case While(_, _) =>
        ghost var passes;
        x, passes := VisitWhile(s, fuel - 1);
      case Class(_, _, _) =>
        assert false;
      case _ =>
        x := ExecuteSimple(s, fuel - 1);
    }

    /** The statements `Step` describes: an expression statement, `print`, `return` and
        `var`. */
    method ExecuteSimple(s: Stmt, fuel: nat) returns (x: Exit)
      requires Valid() && StmtExecutable(s) && (s.Expression? || s.Print? || s.Return? || s.Var?)
      modifies this`environment, this`output, this`Frames, Frames
      ensures Preserved(environment)
      ensures x.Returned? ==> ValueOk(x.value)
      ensures s.Return? ==> !x.Normal?
      ensures s.Var? && x.Normal? ==> s.name.lexeme in environment.values
      ensures SimpleStmt(s) && StmtHeight(s) <= fuel ==>
                var o := Step(s, old(StoreAt(environment)));
                x == o.exit && output == old(output) + o.printed && StoreAt(environment) == o.store
      decreases fuel, 8
    {
      match s
      case Expression(expression) =>
        var r := Evaluate(expression, fuel);
        x := if r.Err? then Failed(r.failure) else Normal;
        if IsPure(expression) && Height(expression) < fuel {
          UntouchedStore();
        }
      case Print(_) =>
        ghost var value;
        x, value := VisitPrint(s, fuel);
        if SimpleStmt(s) && StmtHeight(s) <= fuel {
          UntouchedStore();
        }
      case Return(_, _) =>
        ghost var value;
        x, value := VisitReturn(s, fuel);
        if SimpleStmt(s) && StmtHeight(s) <= fuel {
          UntouchedStore();
        }
      case Var(_, _) =>
        ghost var value;
        x, value := VisitVar(s, fuel);
    }

    /** A block runs in a new frame inside the current one. Simple statements run as
        the reference run from an empty frame inside the current store, and what they
        declare is gone once the block ends. */
    method VisitBlock(s: Stmt, fuel: nat) returns (x: Exit)
      requires Valid() && s.Block? && StmtExecutable(s)
      modifies this`environment, this`output, this`Frames, Frames
      ensures Preserved(null)
      ensures x.Returned? ==> ValueOk(x.value)
      ensures SimpleBody(s.statements, fuel) ==>
                var run := RunFrom(s.statements, 0, InBlock(old(StoreAt(environment))));
                x == FinalExit(run.exits) && output == old(output) + run.printed
                && StoreAt(environment) == old(StoreAt(environment))
      decreases fuel, 7
    {
      ghost var start := StoreAt(environment);
      var frame := NewFrame();
      ghost var exits;
      x, exits := ExecuteBlock(s.statements, frame, fuel);
      if SimpleBody(s.statements, fuel) {
        assert StoreAt(environment) == start by {
          BlockRestores(s.statements, start, StoreAt(frame));
          assert environment.Chain() == frame.Chain()[1..];
        }
      }
    }

    /** `new Environment(environment)`: an empty frame inside the current one. */
    method NewFrame() returns (frame: Environment<Value>)
      requires Valid()
      modifies this`Frames
      ensures Valid() && fresh(frame) && frame.enclosing == environment && Frames == old(Frames) + {frame}
      ensures StoreAt(frame) == InBlock(old(StoreAt(environment)))
    {
      frame := new Environment(environment);
      Frames := Frames + {frame};
    }

    /** Binds the function's name in the current frame to a function closing over it. */
    method VisitFunction(s: Stmt)
      requires Valid() && s.Function? && StmtExecutable(s)
      modifies environment
      ensures Valid() && unchanged(this)
      ensures environment.values.Keys == old(environment.values.Keys) + {s.decl.name.lexeme}
      ensures environment.values == old(environment.values)[s.decl.name.lexeme := environment.values[s.decl.name.lexeme]]
      ensures var v := environment.values[s.decl.name.lexeme];
              && v.VFunction? && fresh(v.fn)
              && v.fn.declaration == s.decl && v.fn.closure == environment && !v.fn.isInitializer
    {
      var fn := new LoxFunction(s.decl, environment, false);
      environment.Define(s.decl.name.lexeme, VFunction(fn));
    }

    method VisitIf(s: Stmt, fuel: nat) returns (x: Exit, ghost condition: Result<Value>)
      requires Valid() && s.If? && StmtExecutable(s)
      modifies this`environment, this`output, this`Frames, Frames
      ensures Preserved(environment)
      ensures x.Returned? ==> ValueOk(x.value)
      ensures condition.Err? ==> x == Failed(condition.failure)
      ensures condition.Ok? && !IsTruthy(condition.value) && s.elseBranch.None? ==> x == Normal
      ensures IsPure(s.condition) && Height(s.condition) < fuel ==>
                condition == Eval(s.condition, old(StoreAt(environment)))
      ensures IsPure(s.condition) && Height(s.condition) < fuel && condition.Ok? ==>
                var branch := if IsTruthy(condition.value) then Some(s.thenBranch) else s.elseBranch;
                branch.Some? && SimpleStmt(branch.value) && StmtHeight(branch.value) < fuel ==>
                  var o := Step(branch.value, old(StoreAt(environment)));
                  x == o.exit && output == old(output) + o.printed && StoreAt(environment) == o.store
      decreases fuel, 7
    {
      var c := Evaluate(s.condition, fuel);
      condition := c;
      if c.Err? {
        return Failed(c.failure), condition;
      }
      if IsPure(s.condition) && Height(s.condition) < fuel {
        UntouchedStore();
      }
      if IsTruthy(c.value) {
        x := Execute(s.thenBranch, fuel);
      } else if s.elseBranch.Some? {
        x := Execute(s.elseBranch.value, fuel);
      } else {
        x := Normal;
      }
    }

    /** Evaluates the expression and appends its value to the output. */
    method VisitPrint(s: Stmt, fuel: nat) returns (x: Exit, ghost value: Result<Value>)
      requires Valid() && s.Print? && StmtExecutable(s)
      modifies this`environment, this`output, this`Frames, Frames
      ensures Preserved(null)
      ensures !x.Returned?
      ensures value.Err? ==> x == Failed(value.failure)
      ensures value.Ok? ==> x == Normal && |output| > 0 && output[|output| - 1] == value.value
      ensures IsPure(s.expression) && Height(s.expression) < fuel ==>
                value == Eval(s.expression, old(StoreAt(environment))) && Untouched()
                && output == old(output) + if value.Ok? then [value.value] else []
      decreases fuel, 7
    {
      var v := Evaluate(s.expression, fuel);
      value := v;
      if v.Err? {
        return Failed(v.failure), value;
      }
      output := output + [v.value];
      x := Normal;
    }

    /** Unwinds with the value of the expression, or `nil` when there is none. */
    method VisitReturn(s: Stmt, fuel: nat) returns (x: Exit, ghost value: Result<Value>)
      requires Valid() && s.Return? && StmtExecutable(s)
      modifies this`environment, this`output, this`Frames, Frames
      ensures Preserved(null)
      ensures x.Returned? ==> ValueOk(x.value)
      ensures x.Returned? || x.Failed?
      ensures s.value.None? ==> value == Ok(VNil) && output == old(output) && Untouched()
      ensures value.Err? ==> x == Failed(value.failure)
      ensures value.Ok? ==> x == Returned(value.value)
      ensures s.value.Some? && IsPure(s.value.value) && Height(s.value.value) < fuel ==>
                value == Eval(s.value.value, old(StoreAt(environment))) && Untouched() && output == old(output)
      decreases fuel, 7
    {
      if s.value.None? {
        return Returned(VNil), Ok(VNil);
      }
      var r := Evaluate(s.value.value, fuel);
      value := r;
      x := if r.Err? then Failed(r.failure) else Returned(r.value);
    }

    /** Binds the name in the current frame to the initializer's value, or to `nil`. */
    method VisitVar(s: Stmt, fuel: nat) returns (x: Exit, ghost value: Result<Value>)
      requires Valid() && s.Var? && StmtExecutable(s)
      modifies this`environment, this`output, this`Frames, Frames
      ensures Preserved(environment)
      ensures !x.Returned?
      ensures s.initializer.None? ==> value == Ok(VNil)
      ensures value.Err? ==> x == Failed(value.failure)
      ensures value.Ok? ==> x == Normal && s.name.lexeme in environment.values
                            && environment.values[s.name.lexeme] == value.value
      ensures (s.initializer.Some? ==> IsPure(s.initializer.value) && Height(s.initializer.value) < fuel) ==>
                && (s.initializer.Some? ==> value == Eval(s.initializer.value, old(StoreAt(environment))))
                && output == old(output)
                && StoreAt(environment) == if value.Ok? then Bound(old(StoreAt(environment)), s.name.lexeme, value.value)
                                           else old(StoreAt(environment))
      decreases fuel, 7
    {
      var v := Ok(VNil);
      if s.initializer.Some? {
        v := Evaluate(s.initializer.value, fuel);
        if v.Err? {
          return Failed(v.failure), v;
        }
      }
      value := v;
      DefineHere(s.name.lexeme, v.value);
      x := Normal;
    }

    /** `environment.Define(name, value)`: only the current frame changes, and the
        globals with it when it is the global frame. */
    method DefineHere(name: string, value: Value)
      requires Valid() && ValueOk(value)
      modifies environment
      ensures Valid() && environment.values == old(environment.values)[name := value]
      ensures StoreAt(environment) == Bound(old(StoreAt(environment)), name, value)
    {
      ghost var before := StoreAt(environment);
      environment.NotOwnAncestor();
      environment.Define(name, value);
      assert StoreAt(environment).frames[1..] == before.frames[1..];
    }

    /** Re-evaluates the condition before every pass; each pass spends one unit of fuel. */
    method VisitWhile(s: Stmt, fuel: nat) returns (x: Exit, ghost passes: nat)
      requires Valid() && s.While? && StmtExecutable(s)
      modifies this`environment, this`output, this`Frames, Frames
      ensures Preserved(environment)
      ensures x.Returned? ==> ValueOk(x.value)
      ensures passes <= fuel
      decreases fuel, 7
    {
      var budget: nat := fuel;
      passes := 0;
      while true
        invariant budget + passes == fuel
        invariant Preserved(environment)
        decreases budget
      {
        var condition := Evaluate(s.condition, budget);
        if condition.Err? {
          return Failed(condition.failure), passes;
        }
        if !IsTruthy(condition.value) {
          return Normal, passes;
        }
        if budget == 0 {
          return Failed(OutOfFuel), passes;
        }
        x := Execute(s.body, budget - 1);
        if !x.Normal? {
          return x, passes + 1;
        }
        budget := budget - 1;
        passes := passes + 1;
      }
    }

    method Evaluate(e: Expr, fuel: nat) returns (r: Result<Value>)
      requires Valid() && ExprExecutable(e)
      modifies this`environment, this`output, this`Frames, Frames
      ensures Preserved(null)
      ensures r.Ok? ==> ValueOk(r.value)
      ensures IsPure(e) && Height(e) < fuel ==>
                r == Eval(e, old(StoreAt(environment))) && Untouched() && output == old(output)
      decreases fuel, 0
    {
      if fuel == 0 {
        return Err(OutOfFuel);
      }
      match e
      case Assign(_, _, _) =>
        ghost var value;
        r, value := VisitAssign(e, fuel - 1);
      case Binary(_, _, _, _) =>
        ghost var left, right;
        r, left, right := VisitBinary(e, fuel - 1);
      case Call(_, _, _, _) =>
        ghost var callee, args, argument, exit;
        r, callee, args, argument, exit := VisitCall(e, fuel - 1);
      case Grouping(_, expression) =>
        r := Evaluate(expression, fuel - 1);
      case Literal(_, lit) =>
        r := Ok(LitValue(lit));
      case Logical(_, _, _, _) =>
        ghost var left, afterLeft, right;
        r, left, afterLeft, right := VisitLogical(e, fuel - 1);
      case Unary(_, _, _) =>
        ghost var operand;
        r, operand := VisitUnary(e, fuel - 1);
      case Variable(id, name) =>
        r := LookUpVariable(name, id);
      case Get(_, _, _) =>
        assert false;
      case Set(_, _, _, _) =>
        assert false;
      case Super(_, _, _) =>
        assert false;
      case This(_, _) =>
        assert false;
    }

    /** Both operands are evaluated, left first, before the operator is applied. */
    method VisitBinary(e: Expr, fuel: nat) returns (r: Result<Value>, ghost left: Result<Value>, ghost right: Result<Value>)
      requires Valid() && e.Binary? && ExprExecutable(e)
      modifies this`environment, this`output, this`Frames, Frames
      ensures Preserved(null)
      ensures r.Ok? ==> ValueOk(r.value)
      ensures left.Err? ==> r == left
      ensures left.Ok? && right.Err? ==> r == right
      ensures left.Ok? && right.Ok? ==> r == BinaryOp(e.op, left.value, right.value)
      ensures IsPure(e.left) && Height(e.left) < fuel ==> left == Eval(e.left, old(StoreAt(environment)))
      ensures IsPure(e) && Height(e) <= fuel ==>
                Untouched() && output == old(output) && (left.Ok? ==> right == Eval(e.right, old(StoreAt(environment))))
      decreases fuel, 7
    {
      var l := Evaluate(e.left, fuel);
      left := l;
      if l.Err? {
        return l, left, l;
      }
      var rv := Evaluate(e.right, fuel);
      right := rv;
      if rv.Err? {
        return rv, left, right;
      }
      r := BinaryOp(e.op, l.value, rv.value);
    }

    /** `or` and `and` return an operand, not a boolean; the right one is evaluated only
        when the left does not decide. */
    method VisitLogical(e: Expr, fuel: nat)
        returns (r: Result<Value>, ghost left: Result<Value>, ghost afterLeft: seq<Value>, ghost right: Result<Value>)
      requires Valid() && e.Logical? && ExprExecutable(e)
      modifies this`environment, this`output, this`Frames, Frames
      ensures Preserved(null)
      ensures r.Ok? ==> ValueOk(r.value)
      ensures old(output) <= afterLeft <= output
      ensures left.Err? ==> r == left && output == afterLeft
      ensures left.Ok? && ShortCircuits(e.op, left.value) ==> r == left && output == afterLeft
      ensures left.Ok? && !ShortCircuits(e.op, left.value) ==> r == right
      ensures IsPure(e.left) && Height(e.left) < fuel ==> left == Eval(e.left, old(StoreAt(environment)))
      ensures IsPure(e) && Height(e) <= fuel ==>
                Untouched() && output == old(output)
                && (left.Ok? && !ShortCircuits(e.op, left.value) ==> right == Eval(e.right, old(StoreAt(environment))))
      decreases fuel, 7
    {
      var l := Evaluate(e.left, fuel);
      left := l;
      afterLeft := output;
      if l.Err? || ShortCircuits(e.op, l.value) {
        return l, left, afterLeft, l;
      }
      r := Evaluate(e.right, fuel);
      right := r;
    }

    method VisitUnary(e: Expr, fuel: nat) returns (r: Result<Value>, ghost operand: Result<Value>)
      requires Valid() && e.Unary? && ExprExecutable(e)
      modifies this`environment, this`output, this`Frames, Frames
      ensures Preserved(null)
      ensures r.Ok? ==> ValueOk(r.value)
      ensures operand.Err? ==> r == operand
      ensures operand.Ok? ==> r == UnaryOp(e.op, operand.value)
      ensures IsPure(e.right) && Height(e.right) < fuel ==>
                operand == Eval(e.right, old(StoreAt(environment))) && Untouched() && output == old(output)
      decreases fuel, 7
    {
      var o := Evaluate(e.right, fuel);
      operand := o;
      if o.Err? {
        return o, operand;
      }
      r := UnaryOp(e.op, o.value);
    }

    /** A resolved variable is read from the frame at its recorded distance and nowhere
        else; an unresolved one is looked up in the global frame only. */
    method LookUpVariable(name: Token, id: nat) returns (r: Result<Value>)
      requires Valid()
      ensures r == Lookup(StoreAt(environment), name, id)
      ensures r.Ok? ==> ValueOk(r.value)
      ensures id !in locals ==>
                r == if name.lexeme in Globals.values then Ok(Globals.values[name.lexeme])
                     else Err(UndefinedVariable(name))
      ensures id in locals && locals[id] <= |environment.ancestors|
              && name.lexeme in environment.AncestorAt(locals[id]).values ==>
                r == Ok(environment.AncestorAt(locals[id]).values[name.lexeme])
      ensures id in locals && !(locals[id] <= |environment.ancestors|
              && name.lexeme in environment.AncestorAt(locals[id]).values) ==>
                r.Err? && r.failure.HostFault?
    {
      if id in locals {
        var distance := locals[id];
        var found := environment.Binds(distance, name.lexeme);
        if !found {
          return Err(HostFault(FrameLacksName));
        }
        var v := environment.GetAt(distance, name.lexeme);
        return Ok(v);
      }
      r := Globals.Get(name);
    }

    /** Evaluates the value, then stores it at the resolved distance or, unresolved, in
        the global frame; the value assigned is the value of the expression. */
    method VisitAssign(e: Expr, fuel: nat) returns (r: Result<Value>, ghost value: Result<Value>)
      requires Valid() && e.Assign? && ExprExecutable(e)
      modifies this`environment, this`output, this`Frames, Frames
      ensures Preserved(null)
      ensures r.Ok? ==> ValueOk(r.value)
      ensures value.Err? ==> r == value
      ensures r.Ok? ==> r == value
      ensures value.Ok? && e.id !in locals ==>
                (r.Ok? <==> e.name.lexeme in old(Globals.values))
                && (r.Err? ==> r.failure == UndefinedVariable(e.name))
                && (r.Ok? ==> e.name.lexeme in Globals.values && Globals.values[e.name.lexeme] == value.value)
      ensures value.Ok? && e.id in locals && r.Ok? ==>
                var d := locals[e.id];
                d <= |environment.ancestors| && e.name.lexeme in environment.AncestorAt(d).values
                && environment.AncestorAt(d).values[e.name.lexeme] == value.value
      ensures IsPure(e.value) && Height(e.value) < fuel ==> value == Eval(e.value, old(StoreAt(environment)))
      decreases fuel, 7
    {
      var v := Evaluate(e.value, fuel);
      value := v;
      if v.Err? {
        return v, value;
      }
      r := AssignVariable(e.id, e.name, v.value);
    }

    /** The store half of an assignment: through the resolved distance into the current
        frame's chain, or into the globals when the reference was not resolved. */
    method AssignVariable(id: nat, name: Token, value: Value) returns (r: Result<Value>)
      requires Valid() && ValueOk(value)
      modifies Frames
      ensures Preserved(null)
      ensures r.Ok? ==> r == Ok(value)
      ensures id !in locals ==>
                (r.Ok? <==> name.lexeme in old(Globals.values))
                && (r.Err? ==> r.failure == UndefinedVariable(name))
                && (r.Ok? ==> name.lexeme in Globals.values && Globals.values[name.lexeme] == value)
      ensures id in locals && r.Ok? ==>
                var d := locals[id];
                d <= |environment.ancestors| && name.lexeme in environment.AncestorAt(d).values
                && environment.AncestorAt(d).values[name.lexeme] == value
    {
      if id in locals {
        var distance := locals[id];
        var found := environment.Binds(distance, name.lexeme);
        if !found {
          return Err(HostFault(FrameLacksName));
        }
        environment.AssignAt(distance, name, value);
      } else {
        var outcome := Globals.Assign(name, value);
        if outcome.Err? {
          return Err(outcome.failure);
        }
      }
      r := Ok(value);
    }

    /** The callee, then the arguments left to right, are evaluated before the call is
        checked; a class call makes an instance and `clock` reads the clock. */
    method VisitCall(e: Expr, fuel: nat)
        returns (r: Result<Value>, ghost callee: Result<Value>, ghost args: seq<Value>,
                 ghost argument: Result<Value>, ghost exit: Exit)
      requires Valid() && e.Call? && ExprExecutable(e)
      modifies this`environment, this`output, this`Frames, Frames
      ensures Preserved(null)
      ensures r.Ok? ==> ValueOk(r.value)
      ensures callee.Err? ==> r == callee
      ensures |args| <= |e.arguments|
      ensures callee.Ok? && |args| < |e.arguments| ==> argument.Err? && r == argument
      ensures callee.Ok? && |args| == |e.arguments| && callee.value.VFunction?
              && CheckCall(e.paren, callee.value, |args|).None? ==>
                (exit.Failed? ==> r == Err(exit.failure))
                && (!exit.Failed? && !callee.value.fn.isInitializer ==>
                      r == Ok(if exit.Returned? then exit.value else VNil))
                && (!exit.Failed? && callee.value.fn.isInitializer ==>
                      r == if "this" in callee.value.fn.closure.values then Ok(callee.value.fn.closure.values["this"])
                           else Err(HostFault(ClosureLacksThis)))
      ensures callee.Ok? && |args| == |e.arguments| && CheckCall(e.paren, callee.value, |args|).Some? ==>
                r == Err(CheckCall(e.paren, callee.value, |args|).value)
      ensures callee.Ok? && |args| == |e.arguments| && callee.value == VClock && args == [] ==>
                r == Ok(VNum(clockReading))
      ensures callee.Ok? && |args| == |e.arguments| && callee.value.VClass? && args == [] ==>
                r.Ok? && r.value.VInstance? && fresh(r.value.inst)
                && r.value.inst.cls == callee.value.cls && r.value.inst.fields == map[]
      ensures PureOperands(e, fuel) ==>
                && callee == Eval(e.callee, old(StoreAt(environment)))
                && (forall j | 0 <= j < |args| :: Eval(e.arguments[j], old(StoreAt(environment))) == Ok(args[j]))
                && (callee.Ok? && |args| < |e.arguments| ==>
                      argument == Eval(e.arguments[|args|], old(StoreAt(environment))))
      decreases fuel, 7
    {
      var c, arguments, stop := EvaluateOperands(e, fuel);
      callee, args, exit := c, arguments, Normal;
      argument := if stop.Some? then Err(stop.value) else Ok(VNil);
      if c.Err? {
        return c, callee, args, argument, exit;
      }
      if stop.Some? {
        return Err(stop.value), callee, args, argument, exit;
      }
      r, exit := Invoke(e.paren, c.value, arguments, fuel);
    }

    /** The callee, then the arguments left to right, each evaluated only when all
        before it succeeded: `args` are the argument values obtained, and `stop` the
        failure of the argument that ended the evaluation early. */
    method EvaluateOperands(e: Expr, fuel: nat) returns (callee: Result<Value>, args: seq<Value>, stop: Option<Failure>)
      requires Valid() && e.Call? && ExprExecutable(e)
      modifies this`environment, this`output, this`Frames, Frames
      ensures Preserved(null)
      ensures callee.Ok? ==> ValueOk(callee.value)
      ensures forall a | a in args :: ValueOk(a)
      ensures callee.Err? ==> args == [] && stop.None?
      ensures |args| <= |e.arguments| && (callee.Ok? && |args| < |e.arguments| <==> stop.Some?)
      ensures PureOperands(e, fuel) ==>
                && callee == Eval(e.callee, old(StoreAt(environment)))
                && (forall j | 0 <= j < |args| :: Eval(e.arguments[j], old(StoreAt(environment))) == Ok(args[j]))
                && (stop.Some? ==> Eval(e.arguments[|args|], old(StoreAt(environment))) == Err(stop.value))
      decreases fuel, 6
    {
      callee := Evaluate(e.callee, fuel);
      if callee.Err? {
        return callee, [], None;
      }
      if IsPure(e.callee) && Height(e.callee) < fuel {
        UntouchedStore();
      }
      args, stop := EvaluateArguments(e.arguments, fuel);
    }

    /** A call once its callee and arguments are known: the arity is checked first; a
        function runs its body, a class makes an instance and `clock` reads the clock. */
    method Invoke(paren: Token, callee: Value, args: seq<Value>, fuel: nat) returns (r: Result<Value>, ghost exit: Exit)
      requires Valid() && ValueOk(callee) && forall a | a in args :: ValueOk(a)
      modifies this`environment, this`output, this`Frames, Frames
      ensures Preserved(null)
      ensures r.Ok? ==> ValueOk(r.value)
      ensures CheckCall(paren, callee, |args|).Some? ==> r == Err(CheckCall(paren, callee, |args|).value)
      ensures callee.VFunction? && CheckCall(paren, callee, |args|).None? ==>
                (exit.Failed? ==> r == Err(exit.failure))
                && (!exit.Failed? && !callee.fn.isInitializer ==> r == Ok(if exit.Returned? then exit.value else VNil))
                && (!exit.Failed? && callee.fn.isInitializer ==>
                      r == if "this" in callee.fn.closure.values then Ok(callee.fn.closure.values["this"])
                           else Err(HostFault(ClosureLacksThis)))
      ensures callee.VFunction? && CheckCall(paren, callee, |args|).None? && SimpleBody(callee.fn.declaration.body, fuel) ==>
                var run := RunFrom(callee.fn.declaration.body, 0, old(CallStore(callee.fn, args)));
                exit == FinalExit(run.exits) && output == old(output) + run.printed
      ensures callee == VClock && args == [] ==> r == Ok(VNum(clockReading))
      ensures callee.VClass? && args == [] ==>
                r.Ok? && r.value.VInstance? && fresh(r.value.inst)
                && r.value.inst.cls == callee.cls && r.value.inst.fields == map[]
      decreases fuel, 6
    {
      exit := Normal;
      var failure := CheckCall(paren, callee, |args|);
      if failure.Some? {
        return Err(failure.value), exit;
      }
      match callee
      case VFunction(fn) =>
        ghost var frame;
        r, frame, exit := CallFunction(fn, args, fuel);
      case VClass(cls) =>
        var instance := cls.Call(args);
        r := Ok(instance);
      case VClock =>
        r := Ok(VNum(clockReading));
    }

    /** The arguments of a call, left to right, until one fails: `values` are those
        evaluated, and `stop` is the failure that ended the evaluation early. */
    method EvaluateArguments(arguments: seq<Expr>, fuel: nat) returns (values: seq<Value>, stop: Option<Failure>)
      requires Valid() && forall a | a in arguments :: ExprExecutable(a)
      modifies this`environment, this`output, this`Frames, Frames
      ensures Preserved(null)
      ensures forall a | a in values :: ValueOk(a)
      ensures |values| <= |arguments| && (|values| < |arguments| <==> stop.Some?)
      ensures (forall j | 0 <= j < |arguments| :: IsPure(arguments[j]) && Height(arguments[j]) < fuel) ==>
                && Untouched() && output == old(output)
                && (forall j | 0 <= j < |values| :: Eval(arguments[j], old(StoreAt(environment))) == Ok(values[j]))
                && (stop.Some? ==> Eval(arguments[|values|], old(StoreAt(environment))) == Err(stop.value))
      decreases fuel, 5
    {
      ghost var pure := forall j | 0 <= j < |arguments| :: IsPure(arguments[j]) && Height(arguments[j]) < fuel;
      ghost var start := StoreAt(environment);
      values, stop := [], None;
      for i := 0 to |arguments|
        invariant |values| == i
        invariant Preserved(null)
        invariant forall a | a in values :: ValueOk(a)
        invariant pure ==> Untouched() && output == old(output)
                           && forall j | 0 <= j < i :: Eval(arguments[j], start) == Ok(values[j])
      {
        if pure {
          UntouchedStore();
        }
        var a := Evaluate(arguments[i], fuel);
        if a.Err? {
          return values, Some(a.failure);
        }
        values := values + [a.value];
      }
    }

    /** Binds parameter i to argument i in a new call frame, in order. */
    method DefineParameters(frame: Environment<Value>, params: seq<Token>, args: seq<Value>)
      requires Valid() && frame in Frames && frame.values == map[] && |params| <= |args|
      requires forall a | a in args :: ValueOk(a)
      modifies frame
      ensures Valid() && frame.values == ParamBindings(params, args)
    {
      for i := 0 to |params|
        invariant Valid() && frame.values == ParamBindings(params[..i], args)
      {
        assert params[..i + 1] == params[..i] + [params[i]];
        frame.Define(params[i].lexeme, args[i]);
      }
      assert params[..|params|] == params;
    }

    /** The frame a call runs its body in: a new frame inside the closure, binding each
        parameter to its argument. */
    method CallFrame(fn: LoxFunction, args: seq<Value>) returns (env: Environment<Value>)
      requires Valid() && ValueOk(VFunction(fn)) && |args| == fn.Arity()
      requires forall a | a in args :: ValueOk(a)
      modifies this`Frames
      ensures Valid() && fresh(env) && env.enclosing == fn.closure && Frames == old(Frames) + {env}
      ensures env.values == ParamBindings(fn.declaration.params, args)
      ensures StoreAt(env) == old(CallStore(fn, args))
    {
      env := new Environment(fn.closure);
      Frames := Frames + {env};
      DefineParameters(env, fn.declaration.params, args);
      fn.closure.ChainUnchanged();
    }

    /** `LoxFunction.Call`: binds the parameters in a new frame inside the closure, runs
        the body there and turns a `return` into the call's value. An initializer
        returns the `this` of its closure instead. */
    method CallFunction(fn: LoxFunction, args: seq<Value>, fuel: nat)
        returns (r: Result<Value>, ghost frame: Environment<Value>, ghost exit: Exit)
      requires Valid() && ValueOk(VFunction(fn)) && |args| == fn.Arity()
      requires forall a | a in args :: ValueOk(a)
      modifies this`environment, this`output, this`Frames, Frames
      ensures Preserved(null)
      ensures r.Ok? ==> ValueOk(r.value)
      ensures fresh(frame) && frame.enclosing == fn.closure
      ensures exit.Failed? ==> r == Err(exit.failure)
      ensures !exit.Failed? && !fn.isInitializer ==>
                r == Ok(if exit.Returned? then exit.value else VNil)
      ensures !exit.Failed? && fn.isInitializer ==>
                r == if "this" in fn.closure.values then Ok(fn.closure.values["this"])
                     else Err(HostFault(ClosureLacksThis))
      ensures SimpleBody(fn.declaration.body, fuel) ==>
                var run := RunFrom(fn.declaration.body, 0, old(CallStore(fn, args)));
                exit == FinalExit(run.exits) && output == old(output) + run.printed
      decreases fuel, 5
    {
      var env := CallFrame(fn, args);
      frame := env;
      ghost var exits;
      var x;
      x, exits := ExecuteBlock(fn.declaration.body, env, fuel);
      exit := x;
      if x.Failed? {
        return Err(x.failure), frame, exit;
      }
      if fn.isInitializer {
        var found := fn.closure.Binds(0, "this");
        if !found {
          return Err(HostFault(ClosureLacksThis)), frame, exit;
        }
        var self := fn.closure.GetAt(0, "this");
        return Ok(self), frame, exit;
      }
      r := Ok(if x.Returned? then x.value else VNil);
    }
  }

  /* ---------------- Lemmas ---------------- */

  /** The arity in an arity error reads back as the number it renders. */
  lemma {:induction false} NatToStringRoundTrip(n: nat)
    ensures DigitsValue(NatToString(n)) == n
  {
    var s := NatToString(n);
    if n >= 10 {
      NatToStringRoundTrip(n / 10);
      assert s[..|s| - 1] == NatToString(n / 10);
    }
  }

  /** Parameter `i` is bound to argument `i` when no later parameter has its name. */
  lemma {:induction false} ParamBindingsAt(params: seq<Token>, args: seq<Value>, i: nat)
    requires |params| <= |args| && i < |params|
    requires forall j | i < j < |params| :: params[j].lexeme != params[i].lexeme
    ensures ParamBindings(params, args)[params[i].lexeme] == args[i]
    decreases |params|
  {
    if i < |params| - 1 {
      var front := params[..|params| - 1];
      ParamBindingsAt(front, args, i);
    }
  }
}
