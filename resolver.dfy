/** The static resolution pass (Parsing/Resolver.cs). It walks the tree once with a
    stack of scopes, each mapping a declared name to whether its initializer has
    finished, records in the interpreter how many scopes out each local reference
    is bound, and reports scoping errors.

    The C# stack is a sequence here whose LAST element is the top of the stack, the
    innermost scope; `ElementAt(scopes, i)` is the scope `i` levels out from it, as
    `Stack.ElementAt(i)` counts from the top. A duplicate entry in the resolution
    table (`Dictionary.Add` in `Interpreter.Resolve`) is an exception nothing
    catches: every resolution step returns `Err` then and the pass stops. */
module Resolving {
  import opened Tokens
  import opened Exceptions
  import opened Ast
  import opened Interpreting

  // The messages of the errors reported here.
  const AlreadyDeclared := "Already a variable with this name in this scope."
  const InheritsFromItself := "A class can't inherit from itself."
  const ReturnFromTopLevel := "Can't return from top-level code."
  const ReturnValueFromInitializer := "Can't return a value from an initializer."
  const SuperOutsideClass := "Can't use 'super' outside of a class."
  const SuperWithoutSuperclass := "Can't use 'super' in a class with no superclass."
  const ThisOutsideClass := "Can't use 'this' outside of a class."
  const ReadInOwnInitializer := "Can't read local variable in its own initializer."

  datatype FunctionType = NoFunction | PlainFunction | Initializer | Method
  datatype ClassType = NoClass | PlainClass | Subclass

  /** A scope: each declared name, and whether it is defined (initialized) yet. */
  type Scope = map<string, bool>

  /** The scope `i` levels out from the innermost one. */
  function ElementAt(scopes: seq<Scope>, i: nat): Scope
    requires i < |scopes|
  {
    scopes[|scopes| - 1 - i]
  }

  /** The scope stack after `Declare(name)`: the name is added to the innermost scope as
      not yet defined, unless it is already there (an error) or no scope is open. */
  function Declared(scopes: seq<Scope>, name: string): (r: seq<Scope>)
    ensures |r| == |scopes| && (|r| > 0 ==> r[..|r| - 1] == scopes[..|scopes| - 1])
    ensures |r| > 0 ==> name in r[|r| - 1]
    ensures |r| > 0 && name in scopes[|scopes| - 1] ==> r == scopes
    ensures |r| > 0 && name !in scopes[|scopes| - 1] ==>
              r[|r| - 1] == scopes[|scopes| - 1][name := false]
  {
    if scopes == [] || name in scopes[|scopes| - 1] then scopes
    else scopes[|scopes| - 1 := scopes[|scopes| - 1][name := false]]
  }

  /** The scope stack after `Define(name)`: the name is marked defined in the innermost
      scope, when one is open. */
  function Defined(scopes: seq<Scope>, name: string): (r: seq<Scope>)
    ensures |r| == |scopes| && (|r| > 0 ==> r[..|r| - 1] == scopes[..|scopes| - 1])
    ensures |r| > 0 ==> r[|r| - 1] == scopes[|scopes| - 1][name := true]
  {
    if scopes == [] then scopes else scopes[|scopes| - 1 := scopes[|scopes| - 1][name := true]]
  }

  /** The innermost scope of the body of a function: each parameter in turn declared
      and defined in a fresh scope. */
  function ParameterScope(params: seq<Token>): Scope
    decreases |params|
  {
    if params == [] then map[]
    else ParameterScope(params[..|params| - 1])[params[|params| - 1].lexeme := true]
  }

  /** That scope binds exactly the parameters' names, every one of them defined. */
  lemma {:induction false} ParameterScopeBinds(params: seq<Token>)
    ensures ParameterScope(params).Keys == set p | p in params :: p.lexeme
    ensures forall k | k in ParameterScope(params) :: ParameterScope(params)[k]
    decreases |params|
  {
    if params != [] {
      var init, last := params[..|params| - 1], params[|params| - 1];
      ParameterScopeBinds(init);
      assert forall q | q in params :: q in init || q == last;
      assert forall q | q in init :: q in params;
    }
  }

  /** How many scopes out the NEAREST scope binding `name` is, if any. */
  function InnermostDistance(scopes: seq<Scope>, name: string): (r: Option<nat>)
    ensures r.Some? ==> r.value < |scopes| && name in ElementAt(scopes, r.value)
    ensures r.Some? ==> forall j | 0 <= j < r.value :: name !in ElementAt(scopes, j)
    ensures r.None? ==> forall j | 0 <= j < |scopes| :: name !in ElementAt(scopes, j)
    decreases |scopes|
  {
    if scopes == [] then None
    else if name in scopes[|scopes| - 1] then Some(0)
    else
      assert forall j | 1 <= j < |scopes| :: ElementAt(scopes, j) == ElementAt(scopes[..|scopes| - 1], j - 1);
      match InnermostDistance(scopes[..|scopes| - 1], name)
      case None => None
      case Some(d) => Some(d + 1)
  }

  /** How many scopes out the FARTHEST scope binding `name` is, if any: what the loop
      of `ResolveLocal` as written finds, since it starts from the bottom of the stack. */
  function OutermostDistance(scopes: seq<Scope>, name: string): (r: Option<nat>)
    ensures r.Some? ==> r.value < |scopes| && name in ElementAt(scopes, r.value)
    ensures r.Some? ==> forall j | r.value < j < |scopes| :: name !in ElementAt(scopes, j)
    ensures r.None? ==> forall j | 0 <= j < |scopes| :: name !in ElementAt(scopes, j)
    decreases |scopes|
  {
    if scopes == [] then None
    else if name in scopes[0] then Some(|scopes| - 1)
    else
      assert forall j | 0 <= j < |scopes| - 1 :: ElementAt(scopes[1..], j) == ElementAt(scopes, j);
      OutermostDistance(scopes[1..], name)
  }

  /** Both searches find a binding in the same cases, and they agree unless an inner
      scope shadows an outer one. */
  lemma {:induction false} DistancesAgreeWithoutShadowing(scopes: seq<Scope>, name: string)
    ensures InnermostDistance(scopes, name).Some? <==> OutermostDistance(scopes, name).Some?
    ensures InnermostDistance(scopes, name).Some? ==>
              InnermostDistance(scopes, name).value <= OutermostDistance(scopes, name).value
    ensures (forall i, j | 0 <= i < j < |scopes| :: !(name in ElementAt(scopes, i) && name in ElementAt(scopes, j)))
            ==> InnermostDistance(scopes, name) == OutermostDistance(scopes, name)
  {
    var inner := InnermostDistance(scopes, name);
    var outer := OutermostDistance(scopes, name);
    if inner.Some? {
      assert name in ElementAt(scopes, inner.value);
    }
    if outer.Some? {
      assert name in ElementAt(scopes, outer.value);
    }
  }

  /** `{ var a = 1; { var a = 2; print a; } }`: inside the inner block both scopes bind
      `a`, and the search as written picks the outer one. */
  lemma {:induction false} ShadowedNameResolvesOutward()
    ensures OutermostDistance([map["a" := true], map["a" := true]], "a") == Some(1)
    ensures InnermostDistance([map["a" := true], map["a" := true]], "a") == Some(0)
  {
    var scopes: seq<Scope> := [map["a" := true], map["a" := true]];
    assert "a" in scopes[0];
    assert scopes[..1] == [map["a" := true]];
  }

  /** Declaring then defining a name binds it as defined in the innermost scope, whether
      or not it was declared there already. */
  lemma {:induction false} DeclareThenDefine(outer: seq<Scope>, top: Scope, name: string)
    ensures Defined(Declared(outer + [top], name), name) == outer + [top[name := true]]
  {
    var scopes := outer + [top];
    if name in top {
      assert Declared(scopes, name) == scopes;
    } else {
      assert top[name := false][name := true] == top[name := true];
    }
    assert scopes[|scopes| - 1 := top[name := true]] == outer + [top[name := true]];
  }

  /** One step of declaring the parameters: the innermost scope grows by parameter `i`. */
  lemma {:induction false} DeclareParameter(outer: seq<Scope>, params: seq<Token>, i: nat)
    requires i < |params|
    ensures Defined(Declared(outer + [ParameterScope(params[..i])], params[i].lexeme), params[i].lexeme)
            == outer + [ParameterScope(params[..i + 1])]
  {
    DeclareThenDefine(outer, ParameterScope(params[..i]), params[i].lexeme);
    assert params[..i + 1][..i] == params[..i];
  }

  /* ---------------- The reference resolution ---------------- */

  /** Everything a resolution step reads and writes: the resolver's scopes, context
      flags and reported errors, and the interpreter's resolution table. */
  datatype ResolverState = ResolverState(
    scopes: seq<Scope>, functionType: FunctionType, classType: ClassType,
    errors: seq<StaticError>, locals: map<nat, nat>)

  /** How a resolution step ended, and the state it left. */
  datatype Resolution = Resolution(result: Result<()>, state: ResolverState)

  /** `Stack.Pop`, on a stack the resolver only pops after pushing. */
  function Popped(scopes: seq<Scope>): seq<Scope> {
    if scopes == [] then [] else scopes[..|scopes| - 1]
  }

  /** The errors declaring the parameters in turn reports: one for each parameter whose
      name an earlier parameter already took. */
  function DuplicateParams(params: seq<Token>): seq<StaticError>
    decreases |params|
  {
    if params == [] then []
    else
      var earlier, last := params[..|params| - 1], params[|params| - 1];
      DuplicateParams(earlier)
      + if last.lexeme in ParameterScope(earlier) then [StaticError(last, AlreadyDeclared)] else []
  }

  /** `Declare(name)`: the name enters the innermost scope as not yet defined, or is
      reported when that scope has it already. */
  function DeclareIn(st: ResolverState, name: Token): ResolverState {
    st.(scopes := Declared(st.scopes, name.lexeme),
        errors := if st.scopes != [] && name.lexeme in st.scopes[|st.scopes| - 1]
                  then st.errors + [StaticError(name, AlreadyDeclared)] else st.errors)
  }

  /** `Declare(name)` then `Define(name)`. */
  function DeclareAndDefine(st: ResolverState, name: Token): ResolverState {
    var declared := DeclareIn(st, name);
    declared.(scopes := Defined(declared.scopes, name.lexeme))
  }

  /** `ResolveLocal`: the reference is recorded at the distance of the nearest scope
      binding the name, and left to the globals when none does. */
  function RecordLocal(st: ResolverState, id: nat, name: Token): Resolution {
    match InnermostDistance(st.scopes, name.lexeme)
    case None => Resolution(Ok(()), st)
    case Some(d) =>
      if id in st.locals then Resolution(Err(HostFault(DuplicateKey)), st)
      else Resolution(Ok(()), st.(locals := st.locals[id := d]))
  }

  /** The statements from `i` on, in order, stopping at the first that fails. */
  function ResolvedStmts(statements: seq<Stmt>, i: nat, st: ResolverState): (o: Resolution)
    requires i <= |statements|
    ensures st.errors <= o.state.errors
    decreases statements, 2, |statements| - i
  {
    if i == |statements| then Resolution(Ok(()), st)
    else
      var first := ResolvedStmt(statements[i], st);
      if first.result.Err? then first else ResolvedStmts(statements, i + 1, first.state)
  }

  function ResolvedStmt(s: Stmt, st: ResolverState): (o: Resolution)
    ensures st.errors <= o.state.errors
    decreases s, 2, 0
  {
    match s
    case Block(statements) =>
      var inner := ResolvedStmts(statements, 0, st.(scopes := st.scopes + [map[]]));
      if inner.result.Err? then inner
      else Resolution(inner.result, inner.state.(scopes := Popped(inner.state.scopes)))
    case Class(_, _, _) => ResolvedClass(s, st)
    case Expression(expression) => ResolvedExpr(expression, st)
    case Function(decl) => ResolvedFunction(decl, PlainFunction, DeclareAndDefine(st, decl.name))
    case If(condition, thenBranch, elseBranch) =>
      var c := ResolvedExpr(condition, st);
      if c.result.Err? then c
      else
        var t := ResolvedStmt(thenBranch, c.state);
        if t.result.Err? || elseBranch.None? then t else ResolvedStmt(elseBranch.value, t.state)
    case Print(expression) => ResolvedExpr(expression, st)
    case Return(keyword, value) =>
      var reported := st.(errors := st.errors
        + (if st.functionType == NoFunction then [StaticError(keyword, ReturnFromTopLevel)] else [])
        + (if value.Some? && st.functionType == Initializer
           then [StaticError(keyword, ReturnValueFromInitializer)] else []));
      if value.None? then Resolution(Ok(()), reported) else ResolvedExpr(value.value, reported)
    case Var(name, initializer) =>
      var declared := DeclareIn(st, name);
      var init := if initializer.None? then Resolution(Ok(()), declared)
                  else ResolvedExpr(initializer.value, declared);
      if init.result.Err? then init
      else Resolution(Ok(()), init.state.(scopes := Defined(init.state.scopes, name.lexeme)))
    case While(condition, body) =>
      var c := ResolvedExpr(condition, st);
      if c.result.Err? then c else ResolvedStmt(body, c.state)
  }

  /** A function body: the parameters in a new scope, the function type set to `kind`,
      and both restored afterwards. */
  function ResolvedFunction(decl: FunctionDecl, kind: FunctionType, st: ResolverState): (o: Resolution)
    ensures st.errors <= o.state.errors
    decreases decl, 1, 0
  {
    var inner := ResolvedStmts(decl.body, 0, st.(
      functionType := kind,
      scopes := st.scopes + [ParameterScope(decl.params)],
      errors := st.errors + DuplicateParams(decl.params)));
    if inner.result.Err? then inner
    else Resolution(inner.result, inner.state.(scopes := Popped(inner.state.scopes), functionType := st.functionType))
  }

  /** A class declaration: its name, then the class type CLASS around the rest, restored
      afterwards. */
  function ResolvedClass(s: Stmt, st: ResolverState): (o: Resolution)
    requires s.Class?
    ensures st.errors <= o.state.errors
    decreases s, 1, 0
  {
    var inner := ResolvedClassScopes(s, DeclareAndDefine(st.(classType := PlainClass), s.name));
    if inner.result.Err? then inner else Resolution(inner.result, inner.state.(classType := st.classType))
  }

  /** The superclass and the scope binding `super`, when there is a superclass, around
      the class body. */
  function ResolvedClassScopes(s: Stmt, st: ResolverState): (o: Resolution)
    requires s.Class?
    ensures st.errors <= o.state.errors
    decreases s, 0, 0
  {
    if s.superclass.None? then ResolvedClassBody(s.methods, st)
    else
      var superclass := s.superclass.value;
      var named := st.(classType := Subclass,
                       errors := st.errors + if s.name.lexeme == superclass.name.lexeme
                                             then [StaticError(superclass.name, InheritsFromItself)] else []);
      var resolved := ResolvedVariable(superclass.id, superclass.name, named);
      if resolved.result.Err? then resolved else ResolvedSuperScope(s.methods, resolved.state)
  }

  /** The class body in a scope binding `super`. */
  function ResolvedSuperScope(methods: seq<FunctionDecl>, st: ResolverState): (o: Resolution)
    ensures st.errors <= o.state.errors
    decreases methods, 2, 0
  {
    var body := ResolvedClassBody(methods, st.(scopes := st.scopes + [map["super" := true]]));
    if body.result.Err? then body else Resolution(body.result, body.state.(scopes := Popped(body.state.scopes)))
  }

  /** The methods in a scope binding `this`. */
  function ResolvedClassBody(methods: seq<FunctionDecl>, st: ResolverState): (o: Resolution)
    ensures st.errors <= o.state.errors
    decreases methods, 1, 0
  {
    var inner := ResolvedMethods(methods, 0, st.(scopes := st.scopes + [map["this" := true]]));
    if inner.result.Err? then inner else Resolution(inner.result, inner.state.(scopes := Popped(inner.state.scopes)))
  }

  /** The function type a method's body is resolved with. */
  function MethodKind(m: FunctionDecl): FunctionType {
    if m.name.lexeme == "init" then Initializer else Method
  }

  /** The methods from `i` on, each as an initializer or a method. */
  function ResolvedMethods(methods: seq<FunctionDecl>, i: nat, st: ResolverState): (o: Resolution)
    requires i <= |methods|
    ensures st.errors <= o.state.errors
    decreases methods, 0, |methods| - i
  {
    if i == |methods| then Resolution(Ok(()), st)
    else
      var first := ResolvedFunction(methods[i], MethodKind(methods[i]), st);
      if first.result.Err? then first else ResolvedMethods(methods, i + 1, first.state)
  }

  /** A variable reference: reading a name declared but not yet defined in the innermost
      scope is reported, then the reference is recorded. */
  function ResolvedVariable(id: nat, name: Token, st: ResolverState): (o: Resolution)
    ensures st.errors <= o.state.errors
  {
    var sc := st.scopes;
    RecordLocal(st.(errors := if sc != [] && name.lexeme in sc[|sc| - 1] && !sc[|sc| - 1][name.lexeme]
                              then st.errors + [StaticError(name, ReadInOwnInitializer)] else st.errors),
                id, name)
  }

  function ResolvedExpr(e: Expr, st: ResolverState): (o: Resolution)
    ensures st.errors <= o.state.errors
    decreases e, 1, 0
  {
    match e
    case Assign(id, name, value) =>
      var v := ResolvedExpr(value, st);
      if v.result.Err? then v else RecordLocal(v.state, id, name)
    case Binary(_, left, _, right) =>
      var l := ResolvedExpr(left, st);
      if l.result.Err? then l else ResolvedExpr(right, l.state)
    case Call(_, callee, _, arguments) =>
      var c := ResolvedExpr(callee, st);
      if c.result.Err? then c else ResolvedExprs(arguments, 0, c.state)
    case Get(_, obj, _) => ResolvedExpr(obj, st)
    case Grouping(_, expression) => ResolvedExpr(expression, st)
    case Literal(_, _) => Resolution(Ok(()), st)
    case Logical(_, left, _, right) =>
      var l := ResolvedExpr(left, st);
      if l.result.Err? then l else ResolvedExpr(right, l.state)
    case Set(_, obj, _, value) =>
      var v := ResolvedExpr(value, st);
      if v.result.Err? then v else ResolvedExpr(obj, v.state)
    case Super(id, keyword, _) =>
      RecordLocal(st.(errors := st.errors
        + if st.classType == NoClass then [StaticError(keyword, SuperOutsideClass)]
          else if st.classType != Subclass then [StaticError(keyword, SuperWithoutSuperclass)]
          else []), id, keyword)
    case This(id, keyword) =>
      if st.classType == NoClass
      then Resolution(Ok(()), st.(errors := st.errors + [StaticError(keyword, ThisOutsideClass)]))
      else RecordLocal(st, id, keyword)
    case Unary(_, _, right) => ResolvedExpr(right, st)
    case Variable(id, name) => ResolvedVariable(id, name, st)
  }

  /** The call arguments from `i` on, left to right. */
  function ResolvedExprs(arguments: seq<Expr>, i: nat, st: ResolverState): (o: Resolution)
    requires i <= |arguments|
    ensures st.errors <= o.state.errors
    decreases arguments, 1, |arguments| - i
  {
    if i == |arguments| then Resolution(Ok(()), st)
    else
      var first := ResolvedExpr(arguments[i], st);
      if first.result.Err? then first else ResolvedExprs(arguments, i + 1, first.state)
  }

  /** `var a = a;`: inside a scope that does not hold `a` yet, the read in the initializer
      finds `a` declared but not defined and is reported, after which the reference is
      bound in that scope; at the top level, where no scope is open, nothing is reported
      and the reference is left to the globals. */
  lemma {:induction false} OwnInitializerRule(st: ResolverState, name: Token, id: nat, ref: Token)
    requires ref.lexeme == name.lexeme
    ensures var o := ResolvedStmt(Stmt.Var(name, Some(Variable(id, ref))), st);
            if st.scopes == [] then o == Resolution(Ok(()), st)
            else name.lexeme !in st.scopes[|st.scopes| - 1] ==>
              o.state.errors == st.errors + [StaticError(ref, ReadInOwnInitializer)] &&
              (id !in st.locals ==> o.result.Ok? && o.state.locals == st.locals[id := 0])
  {
    var declared := DeclareIn(st, name);
    var sc := declared.scopes;
    if st.scopes == [] {
      assert InnermostDistance(sc, ref.lexeme) == None;
    } else if name.lexeme !in st.scopes[|st.scopes| - 1] {
      assert declared.errors == st.errors;
      assert sc[|sc| - 1][name.lexeme] == false;
      assert InnermostDistance(sc, ref.lexeme) == Some(0);
    }
  }

  /** A function body that starts with `return <literal>;` is reported as a return from
      top-level code only when it is resolved outside any function, and as a value
      returned from an initializer exactly when it is resolved as one. */
  lemma {:induction false} ReturnInFunctionRule(decl: FunctionDecl, kind: FunctionType, st: ResolverState,
                                                keyword: Token, id: nat, lit: Lit)
    requires decl.body == [Stmt.Return(keyword, Some(Literal(id, lit)))]
    ensures var o := ResolvedFunction(decl, kind, st);
            o.result.Ok? &&
            o.state.errors == st.errors + DuplicateParams(decl.params)
              + (if kind == NoFunction then [StaticError(keyword, ReturnFromTopLevel)] else [])
              + (if kind == Initializer then [StaticError(keyword, ReturnValueFromInitializer)] else [])
  {
    var entered := st.(functionType := kind,
                       scopes := st.scopes + [ParameterScope(decl.params)],
                       errors := st.errors + DuplicateParams(decl.params));
    var first := ResolvedStmt(decl.body[0], entered);
    assert first.result.Ok?;
    assert ResolvedStmts(decl.body, 1, first.state) == Resolution(Ok(()), first.state);
  }

  /** The only method of a class, when it returns a value at once, is reported exactly
      when it is named `init`: a method is resolved as an initializer by its name. */
  lemma {:induction false} InitializerReturnRule(m: FunctionDecl, st: ResolverState, keyword: Token, id: nat, lit: Lit)
    requires m.body == [Stmt.Return(keyword, Some(Literal(id, lit)))]
    ensures var o := ResolvedClassBody([m], st);
            o.result.Ok? &&
            o.state.errors == st.errors + DuplicateParams(m.params)
              + (if m.name.lexeme == "init" then [StaticError(keyword, ReturnValueFromInitializer)] else [])
  {
    var inThis := st.(scopes := st.scopes + [map["this" := true]]);
    ReturnInFunctionRule(m, MethodKind(m), inThis, keyword, id, lit);
    var first := ResolvedFunction(m, MethodKind(m), inThis);
    assert ResolvedMethods([m], 1, first.state) == Resolution(Ok(()), first.state);
  }

  class Resolver {
    const interpreter: Interpreter
    /** The open scopes, innermost last. */
    var scopes: seq<Scope>
    var currentFunction: FunctionType
    var currentClass: ClassType
    /** The errors reported through `Lox.Error(token, message)`, in order. */
    var errors: seq<StaticError>

    constructor (interpreter: Interpreter)
      ensures this.interpreter == interpreter && scopes == [] && errors == []
      ensures currentFunction == NoFunction && currentClass == NoClass
    {
      this.interpreter := interpreter;
      scopes := [];
      currentFunction := NoFunction;
      currentClass := NoClass;
      errors := [];
    }

    /** What a resolution step reads and writes. */
    ghost function State(): ResolverState
      reads this, interpreter
    {
      ResolverState(scopes, currentFunction, currentClass, errors, interpreter.locals)
    }

    /** The scope stack has its old depth, only the innermost scope may differ, and the
        context flags have their old values. */
    twostate predicate Balanced()
      reads this
    {
      && |scopes| == |old(scopes)|
      && (|scopes| > 0 ==> scopes[..|scopes| - 1] == old(scopes)[..|old(scopes)| - 1])
      && currentFunction == old(currentFunction)
      && currentClass == old(currentClass)
    }

    /** Resolving `id` to distance `d` added that entry to the interpreter's table, or
        failed because the table already had one. */
    twostate predicate Recorded(id: nat, d: nat, new r: Result<()>)
      reads interpreter
    {
      if id in old(interpreter.locals)
      then r.Err? && r.failure.HostFault? && interpreter.locals == old(interpreter.locals)
      else r == Ok(()) && interpreter.locals == old(interpreter.locals)[id := d]
    }

    method BeginScope()
      modifies this`scopes
      ensures scopes == old(scopes) + [map[]]
    {
      scopes := scopes + [map[]];
    }

    /** `Stack.Pop`: callers only pop a scope they pushed. */
    method EndScope()
      requires |scopes| > 0
      modifies this`scopes
      ensures scopes == old(scopes)[..|old(scopes)| - 1]
    {
      scopes := scopes[..|scopes| - 1];
    }

    method Declare(name: Token)
      modifies this`scopes, this`errors
      ensures State() == DeclareIn(old(State()), name)
      ensures scopes == Declared(old(scopes), name.lexeme) && old(errors) <= errors
      ensures errors == if old(scopes) != [] && name.lexeme in old(scopes)[|old(scopes)| - 1]
                        then old(errors) + [StaticError(name, AlreadyDeclared)]
                        else old(errors)
    {
      if |scopes| < 1 {
        return;
      }
      if name.lexeme in scopes[|scopes| - 1] {
        errors := errors + [StaticError(name, AlreadyDeclared)];
      } else {
        scopes := scopes[|scopes| - 1 := scopes[|scopes| - 1][name.lexeme := false]];
      }
    }

    method Define(name: Token)
      modifies this`scopes
      ensures scopes == Defined(old(scopes), name.lexeme)
    {
      if |scopes| < 1 {
        return;
      }
      scopes := scopes[|scopes| - 1 := scopes[|scopes| - 1][name.lexeme := true]];
    }

    /** `ResolveLocal` as written: the loop starts at `Count - 1`, the bottom of the
        stack, and so records the distance of the outermost scope binding the name. */
    method ResolveLocalAsWritten(id: nat, name: Token) returns (r: Result<()>)
      modifies interpreter`locals
      ensures match OutermostDistance(scopes, name.lexeme)
              case None => r == Ok(()) && interpreter.locals == old(interpreter.locals)
              case Some(d) => Recorded(id, d, r)
    {
      var i := |scopes| - 1;
      while i >= 0
        invariant -1 <= i < |scopes|
        invariant forall j | i < j < |scopes| :: name.lexeme !in ElementAt(scopes, j)
      {
        if name.lexeme in ElementAt(scopes, i) {
          r := interpreter.Resolve(id, i);
          return;
        }
        i := i - 1;
      }
      r := Ok(());
    }

    /** `ResolveLocal` as evidently intended: search from the innermost scope outwards
        and record the distance of the nearest scope binding the name. */
    method ResolveLocal(id: nat, name: Token) returns (r: Result<()>)
      modifies interpreter`locals
      ensures Resolution(r, State()) == RecordLocal(old(State()), id, name)
      ensures match InnermostDistance(scopes, name.lexeme)
              case None => r == Ok(()) && interpreter.locals == old(interpreter.locals)
              case Some(d) => Recorded(id, d, r)
    {
      for i := 0 to |scopes|
        invariant forall j | 0 <= j < i :: name.lexeme !in ElementAt(scopes, j)
      {
        if name.lexeme in ElementAt(scopes, i) {
          r := interpreter.Resolve(id, i);
          return;
        }
      }
      r := Ok(());
    }

    /** Resolves the statements in order, stopping at a failure. */
    method Resolve(statements: seq<Stmt>) returns (r: Result<()>)
      modifies this`scopes, this`currentFunction, this`currentClass, this`errors, interpreter`locals
      ensures old(errors) <= errors
      ensures r.Ok? ==> Balanced()
      ensures Resolution(r, State()) == ResolvedStmts(statements, 0, old(State()))
      decreases statements, 2
    {
      for i := 0 to |statements|
        invariant old(errors) <= errors && Balanced()
        invariant ResolvedStmts(statements, 0, old(State())) == ResolvedStmts(statements, i, State())
      {
        r := ResolveStmt(statements[i]);
        if r.Err? {
          return;
        }
      }
      r := Ok(());
    }

    /** Declares and defines each parameter in the innermost scope, which is new. */
    method DefineParameters(params: seq<Token>)
      requires |scopes| > 0 && scopes[|scopes| - 1] == map[]
      modifies this`scopes, this`errors
      ensures scopes == old(scopes)[..|old(scopes)| - 1] + [ParameterScope(params)]
      ensures errors == old(errors) + DuplicateParams(params)
    {
      ghost var outer := scopes[..|scopes| - 1];
      assert scopes == outer + [ParameterScope(params[..0])];
      for i := 0 to |params|
        invariant scopes == outer + [ParameterScope(params[..i])]
        invariant errors == old(errors) + DuplicateParams(params[..i])
      {
        assert params[..i + 1][..i] == params[..i];
        DeclareParameter(outer, params, i);
        Declare(params[i]);
        Define(params[i]);
      }
      assert params[..|params|] == params;
    }

    /** Parameters are declared and defined in a new scope, the body is resolved in it
        with `currentFunction` set to `kind`, and both are then restored. */
    method ResolveFunction(decl: FunctionDecl, kind: FunctionType) returns (r: Result<()>)
      modifies this`scopes, this`currentFunction, this`currentClass, this`errors, interpreter`locals
      ensures old(errors) <= errors
      ensures r.Ok? ==> scopes == old(scopes) && Balanced()
      ensures Resolution(r, State()) == ResolvedFunction(decl, kind, old(State()))
      decreases decl, 1
    {
      var enclosingFunction := currentFunction;
      currentFunction := kind;
      BeginScope();
      DefineParameters(decl.params);
      assert State() == old(State()).(functionType := kind, scopes := old(scopes) + [ParameterScope(decl.params)],
                                      errors := old(errors) + DuplicateParams(decl.params));
      r := Resolve(decl.body);
      if r.Err? {
        return;
      }
      EndScope();
      currentFunction := enclosingFunction;
    }

    method ResolveStmt(s: Stmt) returns (r: Result<()>)
      modifies this`scopes, this`currentFunction, this`currentClass, this`errors, interpreter`locals
      ensures old(errors) <= errors
      ensures r.Ok? ==> Balanced()
      ensures r.Ok? && s.Block? ==> scopes == old(scopes)
      ensures r.Ok? && s.Var? ==> scopes == Defined(Declared(old(scopes), s.name.lexeme), s.name.lexeme)
      ensures r.Ok? && s.Function? ==> scopes == Defined(Declared(old(scopes), s.decl.name.lexeme), s.decl.name.lexeme)
      ensures r.Ok? && s.Class? ==> scopes == Defined(Declared(old(scopes), s.name.lexeme), s.name.lexeme)
      ensures Resolution(r, State()) == ResolvedStmt(s, old(State()))
      decreases s, 2
    {
      match s
      case Block(_) =>
        r := VisitBlock(s);
      case Class(_, _, _) =>
        r := VisitClass(s);
      case Expression(expression) =>
        r := ResolveExpr(expression);
      case Function(_) =>
        r := VisitFunction(s);
      case If(condition, thenBranch, elseBranch) =>
        r := ResolveExpr(condition);
        if r.Err? {
          return;
        }
        r := ResolveStmt(thenBranch);
        if r.Err? || elseBranch.None? {
          return;
        }
        r := ResolveStmt(elseBranch.value);
      case Print(expression) =>
        r := ResolveExpr(expression);
      case Return(_, _) =>
        r := VisitReturn(s);
      case Var(_, _) =>
        r := VisitVar(s);
      case While(condition, body) =>
        r := ResolveExpr(condition);
        if r.Err? {
          return;
        }
        r := ResolveStmt(body);
    }

    /** A block is resolved in a scope of its own, which is popped afterwards. */
    method VisitBlock(s: Stmt) returns (r: Result<()>)
      requires s.Block?
      modifies this`scopes, this`currentFunction, this`currentClass, this`errors, interpreter`locals
      ensures old(errors) <= errors
      ensures r.Ok? ==> scopes == old(scopes) && Balanced()
      ensures Resolution(r, State()) == ResolvedStmt(s, old(State()))
      decreases s, 0
    {
      BeginScope();
      assert State() == old(State()).(scopes := old(scopes) + [map[]]);
      r := Resolve(s.statements);
      if r.Err? {
        return;
      }
      EndScope();
    }

    /** The class name is declared and defined; a superclass is resolved as a variable
        (an error when it names the class itself) and adds a scope binding `super`; a
        scope binding `this` encloses the methods, each resolved as an initializer when
        named `init` and as a method otherwise, with `currentClass` set to SUBCLASS or
        CLASS. */
    method VisitClass(s: Stmt) returns (r: Result<()>)
      requires s.Class?
      modifies this`scopes, this`currentFunction, this`currentClass, this`errors, interpreter`locals
      ensures old(errors) <= errors
      ensures s.superclass.Some? && s.name.lexeme == s.superclass.value.name.lexeme ==>
                StaticError(s.superclass.value.name, InheritsFromItself) in errors
      ensures r.Ok? ==> Balanced() && scopes == Defined(Declared(old(scopes), s.name.lexeme), s.name.lexeme)
      ensures Resolution(r, State()) == ResolvedClass(s, old(State()))
      decreases s, 1
    {
      var enclosingClass := currentClass;
      currentClass := PlainClass;
      Declare(s.name);
      Define(s.name);
      ghost var selfError := |errors|;
      r := ResolveClassScopes(s);
      if s.superclass.Some? && s.name.lexeme == s.superclass.value.name.lexeme {
        assert errors[selfError] == StaticError(s.superclass.value.name, InheritsFromItself);
      }
      if r.Err? {
        return;
      }
      currentClass := enclosingClass;
    }

    /** Everything inside the class declaration after its name: the superclass and its
        `super` scope, then the methods in their `this` scope. */
    method ResolveClassScopes(s: Stmt) returns (r: Result<()>)
      requires s.Class?
      modifies this`scopes, this`currentFunction, this`currentClass, this`errors, interpreter`locals
      ensures old(errors) <= errors
      ensures s.superclass.Some? && s.name.lexeme == s.superclass.value.name.lexeme ==>
                |errors| > |old(errors)|
                && errors[|old(errors)|] == StaticError(s.superclass.value.name, InheritsFromItself)
      ensures r.Ok? ==> scopes == old(scopes) && currentFunction == old(currentFunction)
      ensures Resolution(r, State()) == ResolvedClassScopes(s, old(State()))
      decreases s, 0
    {
      if s.superclass.Some? {
        currentClass := Subclass;
        ghost var named := old(State()).(classType := Subclass, errors := old(errors)
          + if s.name.lexeme == s.superclass.value.name.lexeme
            then [StaticError(s.superclass.value.name, InheritsFromItself)] else []);
        assert State().(errors := named.errors) == named;
        r := ResolveSuperclass(s.name, s.superclass.value);
        if r.Err? {
          return;
        }
        ghost var reported := errors;
        r := ResolveSuperScope(s.methods);
        assert errors[..|reported|] == reported;
      } else {
        r := ResolveClassBody(s.methods);
      }
    }

    /** The class body in a new scope binding `super`, which is popped afterwards. */
    method ResolveSuperScope(methods: seq<FunctionDecl>) returns (r: Result<()>)
      modifies this`scopes, this`currentFunction, this`currentClass, this`errors, interpreter`locals
      ensures old(errors) <= errors
      ensures r.Ok? ==> scopes == old(scopes) && Balanced()
      ensures Resolution(r, State()) == ResolvedSuperScope(methods, old(State()))
      decreases methods, 2
    {
      BeginScope();
      scopes := scopes[|scopes| - 1 := scopes[|scopes| - 1]["super" := true]];
      assert map[]["super" := true] == map["super" := true];
      assert State() == old(State()).(scopes := old(scopes) + [map["super" := true]]);
      r := ResolveClassBody(methods);
      if r.Err? {
        return;
      }
      EndScope();
    }

    /** The superclass is resolved as a variable reference; naming the class itself is
        reported first. */
    method ResolveSuperclass(name: Token, superclass: VariableRef) returns (r: Result<()>)
      modifies this`errors, interpreter`locals
      ensures old(errors) <= errors
      ensures name.lexeme == superclass.name.lexeme ==>
                |errors| > |old(errors)|
                && errors[|old(errors)|] == StaticError(superclass.name, InheritsFromItself)
      ensures match InnermostDistance(scopes, superclass.name.lexeme)
              case None => r == Ok(()) && interpreter.locals == old(interpreter.locals)
              case Some(d) => Recorded(superclass.id, d, r)
      ensures Resolution(r, State()) == ResolvedVariable(superclass.id, superclass.name, old(State()).(
                errors := old(errors) + if name.lexeme == superclass.name.lexeme
                                        then [StaticError(superclass.name, InheritsFromItself)] else []))
    {
      if name.lexeme == superclass.name.lexeme {
        errors := errors + [StaticError(superclass.name, InheritsFromItself)];
      }
      ghost var reported := errors;
      r := VisitVariable(superclass.id, superclass.name);
      assert errors[..|reported|] == reported;
    }

    /** The methods are resolved in a new scope that binds `this`. */
    method ResolveClassBody(methods: seq<FunctionDecl>) returns (r: Result<()>)
      modifies this`scopes, this`currentFunction, this`currentClass, this`errors, interpreter`locals
      ensures old(errors) <= errors
      ensures r.Ok? ==> scopes == old(scopes) && Balanced()
      ensures Resolution(r, State()) == ResolvedClassBody(methods, old(State()))
      decreases methods, 1
    {
      BeginScope();
      scopes := scopes[|scopes| - 1 := scopes[|scopes| - 1]["this" := true]];
      assert map[]["this" := true] == map["this" := true];
      assert State() == old(State()).(scopes := old(scopes) + [map["this" := true]]);
      r := ResolveMethods(methods);
      if r.Err? {
        return;
      }
      EndScope();
    }

    /** Resolves each method in turn, as an initializer when it is named `init` and as a
        method otherwise. */
    method ResolveMethods(methods: seq<FunctionDecl>) returns (r: Result<()>)
      modifies this`scopes, this`currentFunction, this`currentClass, this`errors, interpreter`locals
      ensures old(errors) <= errors
      ensures r.Ok? ==> scopes == old(scopes) && Balanced()
      ensures Resolution(r, State()) == ResolvedMethods(methods, 0, old(State()))
      decreases methods, 0
    {
      for i := 0 to |methods|
        invariant scopes == old(scopes) && Balanced() && old(errors) <= errors
        invariant ResolvedMethods(methods, 0, old(State())) == ResolvedMethods(methods, i, State())
      {
        var declaration := if methods[i].name.lexeme == "init" then Initializer else Method;
        r := ResolveFunction(methods[i], declaration);
        if r.Err? {
          return;
        }
      }
      r := Ok(());
    }

    /** The function's name is declared and defined before its body is resolved, so the
        body can refer to it; the body is resolved as a plain function. */
    method VisitFunction(s: Stmt) returns (r: Result<()>)
      requires s.Function?
      modifies this`scopes, this`currentFunction, this`currentClass, this`errors, interpreter`locals
      ensures old(errors) <= errors
      ensures r.Ok? ==> Balanced() && scopes == Defined(Declared(old(scopes), s.decl.name.lexeme), s.decl.name.lexeme)
      ensures Resolution(r, State()) == ResolvedStmt(s, old(State()))
      decreases s, 0
    {
      Declare(s.decl.name);
      Define(s.decl.name);
      r := ResolveFunction(s.decl, PlainFunction);
    }

    /** A `return` outside any function is an error, and so is a `return` with a value in
        an initializer; both are reported before the value is resolved. */
    method VisitReturn(s: Stmt) returns (r: Result<()>)
      requires s.Return?
      modifies this`errors, interpreter`locals
      ensures var expected := (if currentFunction == NoFunction
                               then [StaticError(s.keyword, ReturnFromTopLevel)] else [])
                              + (if s.value.Some? && currentFunction == Initializer
                                 then [StaticError(s.keyword, ReturnValueFromInitializer)] else []);
              |errors| >= |old(errors)| + |expected| && errors[..|old(errors)| + |expected|] == old(errors) + expected
      ensures s.value.None? ==> r == Ok(()) && interpreter.locals == old(interpreter.locals)
      ensures Resolution(r, State()) == ResolvedStmt(s, old(State()))
      decreases s, 0
    {
      ghost var expected: seq<StaticError> := [];
      ghost var reported := old(State()).(errors := old(errors)
        + (if currentFunction == NoFunction then [StaticError(s.keyword, ReturnFromTopLevel)] else [])
        + (if s.value.Some? && currentFunction == Initializer
           then [StaticError(s.keyword, ReturnValueFromInitializer)] else []));
      if currentFunction == NoFunction {
        errors := errors + [StaticError(s.keyword, ReturnFromTopLevel)];
        expected := [StaticError(s.keyword, ReturnFromTopLevel)];
      }
      r := Ok(());
      if s.value.Some? {
        if currentFunction == Initializer {
          errors := errors + [StaticError(s.keyword, ReturnValueFromInitializer)];
          expected := expected + [StaticError(s.keyword, ReturnValueFromInitializer)];
        }
        assert State() == reported && reported.errors == old(errors) + expected;
        r := ResolveExpr(s.value.value);
        assert errors[..|reported.errors|] == reported.errors;
      }
    }

    /** The name is declared (not yet defined) while the initializer is resolved, and
        defined afterwards. */
    method VisitVar(s: Stmt) returns (r: Result<()>)
      requires s.Var?
      modifies this`scopes, this`errors, interpreter`locals
      ensures old(errors) <= errors
      ensures r.Ok? ==> scopes == Defined(Declared(old(scopes), s.name.lexeme), s.name.lexeme)
      ensures Resolution(r, State()) == ResolvedStmt(s, old(State()))
      decreases s, 0
    {
      Declare(s.name);
      assert State() == DeclareIn(old(State()), s.name);
      if s.initializer.Some? {
        r := ResolveExpr(s.initializer.value);
        if r.Err? {
          return;
        }
      }
      Define(s.name);
      r := Ok(());
    }

    /** Resolving an expression never changes the scopes or the context flags. */
    method ResolveExpr(e: Expr) returns (r: Result<()>)
      modifies this`errors, interpreter`locals
      ensures old(errors) <= errors
      ensures e.Literal? ==> r == Ok(()) && errors == old(errors) && interpreter.locals == old(interpreter.locals)
      ensures e.Assign? && r.Ok? && InnermostDistance(scopes, e.name.lexeme).Some? ==>
                e.id in interpreter.locals && interpreter.locals[e.id] == InnermostDistance(scopes, e.name.lexeme).value
      ensures Resolution(r, State()) == ResolvedExpr(e, old(State()))
      decreases e, 1
    {
      match e
      case Assign(_, _, _) =>
        r := VisitAssign(e);
      case Binary(_, left, _, right) =>
        r := ResolveExpr(left);
        if r.Err? {
          return;
        }
        r := ResolveExpr(right);
      case Call(_, callee, _, arguments) =>
        r := ResolveExpr(callee);
        if r.Err? {
          return;
        }
        ghost var afterCallee := State();
        for i := 0 to |arguments|
          invariant old(errors) <= errors
          invariant ResolvedExprs(arguments, 0, afterCallee) == ResolvedExprs(arguments, i, State())
        {
          r := ResolveExpr(arguments[i]);
          if r.Err? {
            return;
          }
        }
        r := Ok(());
      case Get(_, obj, _) =>
        r := ResolveExpr(obj);
      case Grouping(_, expression) =>
        r := ResolveExpr(expression);
      case Literal(_, _) =>
        r := Ok(());
      case Logical(_, left, _, right) =>
        r := ResolveExpr(left);
        if r.Err? {
          return;
        }
        r := ResolveExpr(right);
      case Set(_, obj, _, value) =>
        r := ResolveExpr(value);
        if r.Err? {
          return;
        }
        r := ResolveExpr(obj);
      case Super(_, _, _) =>
        r := VisitSuper(e);
      case This(_, _) =>
        r := VisitThis(e);
      case Unary(_, _, right) =>
        r := ResolveExpr(right);
      case Variable(id, name) =>
        r := VisitVariable(id, name);
    }

    /** The assigned value is resolved first; then the target is recorded at its innermost
        distance, or left to the globals when no scope binds it. */
    method VisitAssign(e: Expr) returns (r: Result<()>)
      requires e.Assign?
      modifies this`errors, interpreter`locals
      ensures old(errors) <= errors
      ensures Resolution(r, State()) == ResolvedExpr(e, old(State()))
      decreases e, 0
    {
      r := ResolveExpr(e.value);
      if r.Err? {
        return;
      }
      r := ResolveLocal(e.id, e.name);
    }

    /** `super` outside a class, or in a class without a superclass, is reported; the
        keyword is resolved either way. */
    method VisitSuper(e: Expr) returns (r: Result<()>)
      requires e.Super?
      modifies this`errors, interpreter`locals
      ensures errors == old(errors) + (
                if currentClass == NoClass then [StaticError(e.keyword, SuperOutsideClass)]
                else if currentClass != Subclass then [StaticError(e.keyword, SuperWithoutSuperclass)]
                else [])
      ensures match InnermostDistance(scopes, e.keyword.lexeme)
              case None => r == Ok(()) && interpreter.locals == old(interpreter.locals)
              case Some(d) => Recorded(e.id, d, r)
      ensures Resolution(r, State()) == ResolvedExpr(e, old(State()))
      decreases e, 0
    {
      if currentClass == NoClass {
        errors := errors + [StaticError(e.keyword, SuperOutsideClass)];
      } else if currentClass != Subclass {
        errors := errors + [StaticError(e.keyword, SuperWithoutSuperclass)];
      }
      r := ResolveLocal(e.id, e.keyword);
    }

    /** `this` outside a class is reported and left unresolved. */
    method VisitThis(e: Expr) returns (r: Result<()>)
      requires e.This?
      modifies this`errors, interpreter`locals
      ensures currentClass == NoClass ==>
                r == Ok(()) && interpreter.locals == old(interpreter.locals)
                && errors == old(errors) + [StaticError(e.keyword, ThisOutsideClass)]
      ensures currentClass != NoClass ==>
                errors == old(errors)
                && match InnermostDistance(scopes, e.keyword.lexeme)
                   case None => r == Ok(()) && interpreter.locals == old(interpreter.locals)
                   case Some(d) => Recorded(e.id, d, r)
      ensures Resolution(r, State()) == ResolvedExpr(e, old(State()))
      decreases e, 0
    {
      if currentClass == NoClass {
        errors := errors + [StaticError(e.keyword, ThisOutsideClass)];
        return Ok(());
      }
      r := ResolveLocal(e.id, e.keyword);
    }

    /** Reading a name that the innermost scope declares but has not defined yet is
        reported; the reference is resolved either way. */
    method VisitVariable(id: nat, name: Token) returns (r: Result<()>)
      modifies this`errors, interpreter`locals
      ensures errors == if scopes != [] && name.lexeme in scopes[|scopes| - 1] && !scopes[|scopes| - 1][name.lexeme]
                        then old(errors) + [StaticError(name, ReadInOwnInitializer)]
                        else old(errors)
      ensures match InnermostDistance(scopes, name.lexeme)
              case None => r == Ok(()) && interpreter.locals == old(interpreter.locals)
              case Some(d) => Recorded(id, d, r)
      ensures Resolution(r, State()) == ResolvedVariable(id, name, old(State()))
      decreases name, 0
    {
      if |scopes| > 0 && name.lexeme in scopes[|scopes| - 1] {
        if scopes[|scopes| - 1][name.lexeme] == false {
          errors := errors + [StaticError(name, ReadInOwnInitializer)];
        }
      }
      r := ResolveLocal(id, name);
    }
  }
}
