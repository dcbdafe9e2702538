/** The recursive-descent parser (Parsing/Parser.cs): a cursor over the scanner's tokens,
    one method per grammar rule, errors reported through `Lox.Error(token, message)` (the
    `errors` field here) and thrown as a `ParseError` that the declaration rule catches. */
module Parsing {
  import opened Tokens
  import opened Exceptions
  import opened Ast

  // The messages of the parse errors the parser reports.
  const ExpectVariableName := "Expect variable name."
  const ExpectSemicolonAfterVar := "Expect ';' after variable declaration."
  const ExpectSemicolonAfterValue := "Expect ';' after value."
  const ExpectSemicolonAfterExpression := "Expect ';' after expression."
  const ExpectBraceAfterBlock := "Expect '}' after block."
  const InvalidAssignmentTarget := "Invalid assignment target."
  const ExpectExpression := "Expect expression."
  const ExpectParenAfterExpression := "Expect ')' after expression."

  /** What a grammar rule returns: the tree it built, or the `ParseError` it threw. */
  datatype Outcome<+T> = Parsed(value: T) | ParseError(message: string)

  /** Precedence levels of the expression grammar, loosest last: 0 primary, 1 unary,
      2 factor, 3 term, 4 comparison, 5 equality, 6 assignment. */
  const AssignmentLevel: nat := 6

  /** The level whose rule builds a binary node for `kind`, or 0 for a token that is no
      binary operator. */
  function BinaryLevel(kind: TokenType): (level: nat)
    ensures level <= 5
    ensures level != 1
  {
    match kind
    case Asterisk => 2
    case Slash => 2
    case Minus => 3
    case Plus => 3
    case Greater => 4
    case GreaterEqual => 4
    case Less => 4
    case LessEqual => 4
    case BangEqual => 5
    case EqualEqual => 5
    case _ => 0
  }

  /** The operators the rule of a binary level matches, in the order it tries them. */
  function Operators(level: nat): seq<TokenType> {
    if level == 5 then [BangEqual, EqualEqual]
    else if level == 4 then [Greater, GreaterEqual, Less, LessEqual]
    else if level == 3 then [Minus, Plus]
    else if level == 2 then [Asterisk, Slash]
    else []
  }

  /** Those lists are exactly the operators `BinaryLevel` places at each level. */
  lemma {:induction false} OperatorsAtLevel(kind: TokenType, level: nat)
    requires 2 <= level
    ensures kind in Operators(level) <==> BinaryLevel(kind) == level
  {
  }

  /** `e` is a tree the rule of level `level` can build: a binary node's operator sits at
      its own level with a left operand of that level and a right operand one level
      tighter (left associativity), a unary operand is unary again, a group holds a whole
      expression, and an assignment's value is again an assignment (right
      associativity). */
  predicate AtLevel(e: Expr, level: nat) {
    match e
    case Literal(_, _) => true
    case Variable(_, _) => true
    case Grouping(_, inner) => AtLevel(inner, AssignmentLevel)
    case Unary(_, op, right) => 1 <= level && (op.kind.Bang? || op.kind.Minus?) && AtLevel(right, 1)
    case Binary(_, left, op, right) =>
      var k := BinaryLevel(op.kind);
      2 <= k <= level && AtLevel(left, k) && AtLevel(right, k - 1)
    case Assign(_, _, value) => level == AssignmentLevel && AtLevel(value, AssignmentLevel)
    case _ => false
  }

  /** The number of tokens the tree was parsed from. */
  function Size(e: Expr): nat {
    match e
    case Assign(_, _, value) => 2 + Size(value)
    case Binary(_, left, _, right) => Size(left) + 1 + Size(right)
    case Grouping(_, inner) => Size(inner) + 2
    case Unary(_, _, right) => 1 + Size(right)
    case _ => 1
  }

  /** The literal value the primary rule makes of token `t`. */
  predicate Denotes(t: Token, lit: Lit) {
    || (t.kind.False? && lit == BoolLit(false))
    || (t.kind.True? && lit == BoolLit(true))
    || (t.kind.Nil? && lit == NilLit)
    || ((t.kind.Number? || t.kind.String?) && lit == t.literal)
  }

  /** `e` is the tree of exactly the tokens `ts`: every operator, name and literal of the
      tree is its token, in order, with the parentheses of each group around it. */
  predicate Spells(e: Expr, ts: seq<Token>) {
    && |ts| == Size(e)
    && match e
       case Literal(_, lit) => Denotes(ts[0], lit)
       case Variable(_, name) => ts[0] == name && name.kind.Identifier?
       case Grouping(_, inner) =>
         ts[0].kind.LeftParen? && ts[|ts| - 1].kind.RightParen? && Spells(inner, ts[1..|ts| - 1])
       case Unary(_, op, right) => ts[0] == op && Spells(right, ts[1..])
       case Binary(_, left, op, right) =>
         var n := Size(left);
         Spells(left, ts[..n]) && ts[n] == op && Spells(right, ts[n + 1..])
       case Assign(_, name, value) =>
         ts[0] == name && name.kind.Identifier? && ts[1].kind.Equal? && Spells(value, ts[2..])
       case _ => false
  }

  lemma SpellsBinary(ts: seq<Token>, a: nat, b: nat, c: nat, id: nat, left: Expr, op: Token, right: Expr)
    requires a <= b < c <= |ts| && Spells(left, ts[a..b]) && ts[b] == op && Spells(right, ts[b + 1..c])
    ensures Spells(Binary(id, left, op, right), ts[a..c])
  {
    assert ts[a..c][..b - a] == ts[a..b];
    assert ts[a..c][b - a + 1..] == ts[b + 1..c];
  }

  lemma SpellsUnary(ts: seq<Token>, a: nat, c: nat, id: nat, op: Token, right: Expr)
    requires a < c <= |ts| && ts[a] == op && Spells(right, ts[a + 1..c])
    ensures Spells(Unary(id, op, right), ts[a..c])
  {
    assert ts[a..c][1..] == ts[a + 1..c];
  }

  lemma SpellsGrouping(ts: seq<Token>, a: nat, c: nat, id: nat, inner: Expr)
    requires a + 1 < c <= |ts| && ts[a].kind.LeftParen? && ts[c - 1].kind.RightParen?
    requires Spells(inner, ts[a + 1..c - 1])
    ensures Spells(Grouping(id, inner), ts[a..c])
  {
    var group := ts[a..c];
    var within := group[1..|group| - 1];
    forall k | 0 <= k < |within|
      ensures within[k] == ts[a + 1 + k]
    {
      assert within[k] == group[1 + k];
    }
    assert within == ts[a + 1..c - 1];
    assert group[0] == ts[a] && group[|group| - 1] == ts[c - 1];
  }

  lemma SpellsAssign(ts: seq<Token>, a: nat, c: nat, id: nat, name: Token, value: Expr)
    requires a + 2 <= c <= |ts| && ts[a] == name && name.kind.Identifier? && ts[a + 1].kind.Equal?
    requires Spells(value, ts[a + 2..c])
    ensures Spells(Assign(id, name, value), ts[a..c])
  {
    assert ts[a..c][2..] == ts[a + 2..c];
  }

  /** The token types the primary rule turns into a literal. */
  predicate IsLiteralKind(kind: TokenType) {
    kind.False? || kind.True? || kind.Nil? || kind.Number? || kind.String?
  }

  /** The keywords that start a statement: error recovery resumes before one of them. */
  predicate StartsStatement(kind: TokenType) {
    kind.Class? || kind.Fun? || kind.Var? || kind.For?
    || kind.If? || kind.While? || kind.Print? || kind.Return?
  }

  /** The declarations that parsed, in order; a failed one is a null entry in the source. */
  function Present(entries: seq<Option<Stmt>>): (statements: seq<Stmt>)
    ensures |statements| <= |entries|
    ensures (forall i | 0 <= i < |entries| :: entries[i].Some?) ==> |statements| == |entries|
  {
    if entries == [] then []
    else (if entries[0].Some? then [entries[0].value] else []) + Present(entries[1..])
  }

  /** The number of failed declarations. */
  function Failures(entries: seq<Option<Stmt>>): nat {
    if entries == [] then 0 else (if entries[|entries| - 1].None? then 1 else 0) + Failures(entries[..|entries| - 1])
  }

  /** The `ParseError` carrying `message` was thrown at token `at`: it is the last error
      reported since `errors0`. */
  ghost predicate Reported(ts: seq<Token>, at: nat, message: string, errors0: seq<StaticError>, errors: seq<StaticError>) {
    at < |ts| && |errors| > |errors0| && errors[|errors| - 1] == StaticError(ts[at], message)
  }

  /** What an expression rule of level `level` promises when it starts at token `from`
      with `errors0` reported and stops before token `to` with `errors` reported: a
      parsed tree consumed at least one token and has the shape of that level, and when
      no error was reported on the way it is the tree of exactly the consumed tokens; a
      thrown error is the last one reported. */
  ghost predicate Derived(ts: seq<Token>, r: Outcome<Expr>, level: nat, from: nat, to: nat,
                          errors0: seq<StaticError>, errors: seq<StaticError>)
  {
    && from <= to < |ts| && errors0 <= errors
    && (r.Parsed? ==>
          && from < to && AtLevel(r.value, level)
          && (|errors| == |errors0| ==> Spells(r.value, ts[from..to])))
    && (r.ParseError? ==> Reported(ts, to, r.message, errors0, errors))
  }

  /** No binary operator of a level up to `level` is token `at`: the rule that stopped
      there took the longest expression it could. */
  predicate Longest(ts: seq<Token>, at: nat, level: nat) {
    at < |ts| && !(2 <= BinaryLevel(ts[at].kind) <= level)
  }

  /** Where error recovery stops: just after a `;`, or before a statement keyword. */
  predicate SyncPoint(ts: seq<Token>, i: nat) {
    0 < i < |ts| && (ts[i - 1].kind.Semicolon? || StartsStatement(ts[i].kind))
  }

  /** The first position from `i` on where error recovery stops: the end of file, just
      after a `;`, or before a statement keyword. */
  function SyncFrom(ts: seq<Token>, i: nat): (j: nat)
    requires 0 < i < |ts| && ts[|ts| - 1].kind.Eof?
    ensures i <= j < |ts|
    ensures ts[j].kind.Eof? || SyncPoint(ts, j)
    decreases |ts| - i
  {
    if ts[i].kind.Eof? || SyncPoint(ts, i) then i else SyncFrom(ts, i + 1)
  }

  /** Recovery skips no place where a statement could start. */
  lemma {:induction false} SyncFromSkipsNone(ts: seq<Token>, i: nat, k: nat)
    requires 0 < i < |ts| && ts[|ts| - 1].kind.Eof?
    requires i <= k < SyncFrom(ts, i)
    ensures !ts[k].kind.Eof? && !SyncPoint(ts, k)
    decreases |ts| - i
  {
    if k > i {
      SyncFromSkipsNone(ts, i + 1, k);
    }
  }

  /** A binary node built from a derived left operand, the operator token after it and a
      derived right operand one level tighter is derived at the operator's level. */
  lemma {:induction false} LeftAssociates(ts: seq<Token>, from: nat, at: nat, to: nat, level: nat, id: nat,
                                          left: Expr, op: Token, right: Outcome<Expr>,
                                          errors0: seq<StaticError>, errors1: seq<StaticError>, errors: seq<StaticError>)
    requires at < |ts| && ts[at] == op && BinaryLevel(op.kind) == level && 2 <= level
    requires Derived(ts, Parsed(left), level, from, at, errors0, errors1)
    requires right.Parsed? && Derived(ts, right, level - 1, at + 1, to, errors1, errors)
    ensures Derived(ts, Parsed(Binary(id, left, op, right.value)), level, from, to, errors0, errors)
  {
    PrefixTransitive(errors0, errors1, errors);
    if |errors| == |errors0| {
      SpellsBinary(ts, from, at, to, id, left, op, right.value);
    }
  }

  /** A literal token on its own is a derived primary expression. */
  lemma LiteralDerived(ts: seq<Token>, at: nat, id: nat, lit: Lit, errors: seq<StaticError>)
    requires at + 1 < |ts| && Denotes(ts[at], lit)
    ensures Derived(ts, Parsed(Literal(id, lit)), 0, at, at + 1, errors, errors)
  {
    assert ts[at..at + 1][0] == ts[at];
  }

  /** An identifier on its own is a derived primary expression. */
  lemma VariableDerived(ts: seq<Token>, at: nat, id: nat, errors: seq<StaticError>)
    requires at + 1 < |ts| && ts[at].kind.Identifier?
    ensures Derived(ts, Parsed(Variable(id, ts[at])), 0, at, at + 1, errors, errors)
  {
    assert ts[at..at + 1][0] == ts[at];
  }

  /** An error thrown by a rule called part-way through another is thrown by that one too. */
  lemma PassesOn(ts: seq<Token>, r: Outcome<Expr>, level: nat, inner: nat, from: nat, mid: nat, to: nat,
                 errors0: seq<StaticError>, errors1: seq<StaticError>, errors: seq<StaticError>)
    requires r.ParseError? && from <= mid && errors0 <= errors1
    requires Derived(ts, r, inner, mid, to, errors1, errors)
    ensures Derived(ts, r, level, from, to, errors0, errors)
  {
    PrefixTransitive(errors0, errors1, errors);
  }

  lemma PrefixTransitive<T>(a: seq<T>, b: seq<T>, c: seq<T>)
    requires a <= b && b <= c
    ensures a <= c
  {
    assert |a| <= |b| <= |c|;
    forall i | 0 <= i < |a| ensures a[i] == c[i] {
      assert a[i] == b[i];
    }
  }

  class Parser {
    const tokens: seq<Token>
    var current: nat
    /** The errors reported through `Lox.Error(token, message)`, in order. */
    var errors: seq<StaticError>
    /** The identity the next tree node gets. */
    var nextId: nat

    /** The tokens end with the end-of-file token, and the cursor never passes it. */
    ghost predicate Valid()
      reads this
    {
      |tokens| > 0 && tokens[|tokens| - 1].kind.Eof? && current < |tokens|
    }

    constructor (tokens: seq<Token>)
      requires |tokens| > 0 && tokens[|tokens| - 1].kind.Eof?
      ensures Valid() && this.tokens == tokens && current == 0 && errors == []
    {
      this.tokens := tokens;
      current := 0;
      errors := [];
      nextId := 0;
    }

    /** At the end when the next token is end-of-file, which the last position always is. */
    function IsAtEnd(): (r: bool)
      requires Valid()
      reads this
      ensures current == |tokens| - 1 ==> r
    {
      tokens[current].kind.Eof?
    }

    /** The next token, not yet consumed: end-of-file at the last position. */
    function Peek(): (t: Token)
      requires Valid()
      reads this
      ensures t in tokens
      ensures current == |tokens| - 1 ==> t.kind.Eof?
    {
      tokens[current]
    }

    /** The token consumed last: one already passed, never the final end-of-file. */
    function Previous(): (t: Token)
      requires Valid() && current > 0
      reads this
      ensures t in tokens[..current] && t in tokens[..|tokens| - 1]
    {
      tokens[current - 1]
    }

    /** Whether the next token has type `kind`; never true for the end-of-file type. */
    function Check(kind: TokenType): (r: bool)
      requires Valid()
      reads this
      ensures r <==> !kind.Eof? && tokens[current].kind == kind
    {
      if IsAtEnd() then false else Peek().kind == kind
    }

    /** Consumes the next token unless it is the end of file, and returns the last
        consumed token. */
    method Advance() returns (t: Token)
      requires Valid() && (current > 0 || !IsAtEnd())
      modifies this`current
      ensures Valid() && current > 0 && t == tokens[current - 1]
      ensures current == old(current) + if old(IsAtEnd()) then 0 else 1
    {
      if !IsAtEnd() {
        current := current + 1;
      }
      t := Previous();
    }

    /** Consumes the next token when its type is one of `kinds`. */
    method Match(kinds: seq<TokenType>) returns (matched: bool)
      requires Valid()
      modifies this`current
      ensures Valid()
      ensures matched <==> old(!IsAtEnd()) && old(tokens[current].kind) in kinds
      ensures current == old(current) + if matched then 1 else 0
    {
      for i := 0 to |kinds|
        invariant current == old(current)
        invariant forall j | 0 <= j < i :: !Check(kinds[j])
      {
        if Check(kinds[i]) {
          var _ := Advance();
          return true;
        }
      }
      return false;
    }

    /** Reports `message` at `token` (`Lox.Error`); the caller throws or carries on. */
    method Error(token: Token, message: string)
      modifies this`errors
      ensures errors == old(errors) + [StaticError(token, message)]
    {
      errors := errors + [StaticError(token, message)];
    }

    /** Consumes a token of type `kind`, or reports `message` at the next token and throws. */
    method Consume(kind: TokenType, message: string) returns (r: Outcome<Token>)
      requires Valid()
      modifies this`current, this`errors
      ensures Valid()
      ensures r.Parsed? <==> old(!kind.Eof? && tokens[current].kind == kind)
      ensures r.Parsed? ==>
                && r.value == old(tokens[current]) && r.value.kind == kind
                && current == old(current) + 1 && errors == old(errors)
      ensures r.ParseError? ==>
                && r.message == message && current == old(current)
                && errors == old(errors) + [StaticError(tokens[current], message)]
    {
      if Check(kind) {
        var t := Advance();
        return Parsed(t);
      }
      Error(Peek(), message);
      return ParseError(message);
    }

    method NewId() returns (id: nat)
      modifies this`nextId
      ensures id == old(nextId) && nextId == old(nextId) + 1
    {
      id := nextId;
      nextId := nextId + 1;
    }

    /** Parses every declaration up to the end of file; a declaration that fails is a
        null entry, and parsing resumes after it. */
    method Parse() returns (statements: seq<Option<Stmt>>)
      requires Valid()
      modifies this`current, this`errors, this`nextId
      ensures Valid() && IsAtEnd() && old(errors) <= errors
      ensures Failures(statements) <= |errors| - |old(errors)|
      ensures errors == old(errors) ==> forall i | 0 <= i < |statements| :: statements[i].Some?
    {
      statements := [];
      while !IsAtEnd()
        invariant Valid() && old(errors) <= errors
        invariant Failures(statements) <= |errors| - |old(errors)|
        invariant errors == old(errors) ==> forall i | 0 <= i < |statements| :: statements[i].Some?
        decreases |tokens| - current
      {
        var declaration := Declaration();
        assert (statements + [declaration])[..|statements|] == statements;
        statements := statements + [declaration];
      }
    }

    /** A declaration or statement. On a thrown error the parser resynchronises and the
        result is null. It always consumes at least one token. */
    method Declaration() returns (r: Option<Stmt>)
      requires Valid() && !IsAtEnd()
      modifies this`current, this`errors, this`nextId
      ensures Valid() && old(current) < current && old(errors) <= errors
      ensures r.None? ==> |errors| > |old(errors)| && (IsAtEnd() || SyncPoint(tokens, current))
      ensures errors == old(errors) ==> r.Some?
      ensures r.Some? && old(tokens[current].kind).Var? ==> r.value.Var?
      ensures r.Some? && old(tokens[current].kind).Print? ==> r.value.Print?
      ensures r.Some? && old(tokens[current].kind).LeftBrace? ==> r.value.Block?
      decreases |tokens| - current, 12
    {
      var isVar := Match([TokenType.Var]);
      var s: Outcome<Stmt>;
      if isVar {
        s := VarDeclaration();
      } else {
        s := Statement();
      }
      if s.ParseError? {
        Synchronise();
        return None;
      }
      return Some(s.value);
    }

    /** After `var`: a name, optionally `=` and an initializer, then `;`. */
    method VarDeclaration() returns (r: Outcome<Stmt>)
      requires Valid() && current > 0
      modifies this`current, this`errors, this`nextId
      ensures Valid() && old(current) <= current && old(errors) <= errors
      ensures r.Parsed? ==>
                && old(current) + 1 < current && tokens[current - 1].kind.Semicolon?
                && r.value.Var? && r.value.name == old(tokens[current])
                && old(tokens[current]).kind.Identifier?
                && (r.value.initializer.Some? <==> old(tokens[current + 1]).kind.Equal?)
      ensures !old(tokens[current].kind).Identifier? ==>
                r == ParseError(ExpectVariableName) && current == old(current) && |errors| == |old(errors)| + 1
      ensures r.ParseError? ==> Reported(tokens, current, r.message, old(errors), errors)
      decreases |tokens| - current, 10
    {
      var name := Consume(Identifier, ExpectVariableName);
      if name.ParseError? {
        return ParseError(name.message);
      }
      var initializer := Initializer();
      if initializer.ParseError? {
        return ParseError(initializer.message);
      }
      ghost var errorsBefore := errors;
      var semicolon := Consume(Semicolon, ExpectSemicolonAfterVar);
      PrefixTransitive(old(errors), errorsBefore, errors);
      if semicolon.ParseError? {
        return ParseError(semicolon.message);
      }
      return Parsed(Stmt.Var(name.value, initializer.value));
    }

    /** The optional `= expression` part of a variable declaration. */
    method Initializer() returns (r: Outcome<Option<Expr>>)
      requires Valid()
      modifies this`current, this`errors, this`nextId
      ensures Valid() && old(current) <= current && old(errors) <= errors
      ensures !old(tokens[current]).kind.Equal? ==> r == Parsed(None) && current == old(current) && |errors| == |old(errors)|
      ensures old(tokens[current]).kind.Equal? && r.Parsed? ==>
                && old(current) + 1 < current && r.value.Some? && AtLevel(r.value.value, AssignmentLevel)
                && (|errors| == |old(errors)| ==> Spells(r.value.value, tokens[old(current) + 1..current]))
      ensures r.ParseError? ==> Reported(tokens, current, r.message, old(errors), errors)
      decreases |tokens| - current, 10
    {
      var hasInitializer := Match([Equal]);
      if !hasInitializer {
        return Parsed(None);
      }
      var e := Expression();
      if e.ParseError? {
        return ParseError(e.message);
      }
      return Parsed(Some(e.value));
    }

    /** A print statement, a block, or an expression statement. */
    method Statement() returns (r: Outcome<Stmt>)
      requires Valid() && !IsAtEnd()
      modifies this`current, this`errors, this`nextId
      ensures Valid() && old(current) <= current && old(errors) <= errors
      ensures r.Parsed? ==> old(current) < current
      ensures r.Parsed? && old(tokens[current].kind).Print? ==> r.value.Print?
      ensures r.Parsed? && old(tokens[current].kind).LeftBrace? ==> r.value.Block?
      ensures r.Parsed? && !old(tokens[current].kind).Print? && !old(tokens[current].kind).LeftBrace? ==>
                r.value.Expression?
      ensures r.ParseError? ==> Reported(tokens, current, r.message, old(errors), errors)
      decreases |tokens| - current, 11
    {
      var isPrint := Match([TokenType.Print]);
      if isPrint {
        r := PrintStatement();
        return;
      }
      var isBlock := Match([LeftBrace]);
      if isBlock {
        var statements := Block();
        if statements.ParseError? {
          return ParseError(statements.message);
        }
        return Parsed(Stmt.Block(Present(statements.value)));
      }
      r := ExpressionStatement();
    }

    /** After `print`: an expression and `;`. */
    method PrintStatement() returns (r: Outcome<Stmt>)
      requires Valid() && current > 0
      modifies this`current, this`errors, this`nextId
      ensures Valid() && old(current) <= current && old(errors) <= errors
      ensures r.Parsed? ==>
                && r.value.Print? && old(current) + 1 < current && tokens[current - 1].kind.Semicolon?
                && AtLevel(r.value.expression, AssignmentLevel)
                && (|errors| == |old(errors)| ==> Spells(r.value.expression, tokens[old(current)..current - 1]))
      ensures r.ParseError? ==> Reported(tokens, current, r.message, old(errors), errors)
      decreases |tokens| - current, 10
    {
      var value := Expression();
      if value.ParseError? {
        return ParseError(value.message);
      }
      var semicolon := Consume(Semicolon, ExpectSemicolonAfterValue);
      if semicolon.ParseError? {
        return ParseError(semicolon.message);
      }
      return Parsed(Stmt.Print(value.value));
    }

    /** An expression followed by `;`. */
    method ExpressionStatement() returns (r: Outcome<Stmt>)
      requires Valid()
      modifies this`current, this`errors, this`nextId
      ensures Valid() && old(current) <= current && old(errors) <= errors
      ensures r.Parsed? ==>
                && r.value.Expression? && old(current) + 1 < current && tokens[current - 1].kind.Semicolon?
                && AtLevel(r.value.expression, AssignmentLevel)
                && (|errors| == |old(errors)| ==> Spells(r.value.expression, tokens[old(current)..current - 1]))
      ensures r.ParseError? ==> Reported(tokens, current, r.message, old(errors), errors)
      decreases |tokens| - current, 10
    {
      var e := Expression();
      if e.ParseError? {
        return ParseError(e.message);
      }
      var semicolon := Consume(Semicolon, ExpectSemicolonAfterExpression);
      if semicolon.ParseError? {
        return ParseError(semicolon.message);
      }
      return Parsed(Stmt.Expression(e.value));
    }

    /** After `{`: declarations up to `}`, which is consumed. */
    method Block() returns (r: Outcome<seq<Option<Stmt>>>)
      requires Valid()
      modifies this`current, this`errors, this`nextId
      ensures Valid() && old(current) <= current && old(errors) <= errors
      ensures r.Parsed? ==>
                && old(current) < current && tokens[current - 1].kind.RightBrace?
                && Failures(r.value) <= |errors| - |old(errors)|
                && (errors == old(errors) ==> forall i | 0 <= i < |r.value| :: r.value[i].Some?)
      ensures r.ParseError? ==> r.message == ExpectBraceAfterBlock && IsAtEnd() && Reported(tokens, current, r.message, old(errors), errors)
      decreases |tokens| - current, 13
    {
      var statements: seq<Option<Stmt>> := [];
      while !Check(RightBrace) && !IsAtEnd()
        invariant Valid() && old(current) <= current && old(errors) <= errors
        invariant Failures(statements) <= |errors| - |old(errors)|
        invariant errors == old(errors) ==> forall i | 0 <= i < |statements| :: statements[i].Some?
        decreases |tokens| - current
      {
        var declaration := Declaration();
        assert (statements + [declaration])[..|statements|] == statements;
        statements := statements + [declaration];
      }
      var brace := Consume(RightBrace, ExpectBraceAfterBlock);
      if brace.ParseError? {
        return ParseError(brace.message);
      }
      return Parsed(statements);
    }

    /** Skips the failing token, then tokens up to the first place after it where a
        statement can start: after a `;`, before a statement keyword, or at the end. */
    method Synchronise()
      requires Valid() && (current > 0 || !IsAtEnd())
      modifies this`current
      ensures Valid() && current > 0
      ensures old(IsAtEnd()) ==> current == old(current)
      ensures !old(IsAtEnd()) ==> current == SyncFrom(tokens, old(current) + 1)
      ensures IsAtEnd() || SyncPoint(tokens, current)
    {
      var _ := Advance();
      while !IsAtEnd()
        invariant Valid() && current > 0
        invariant old(IsAtEnd()) ==> current == old(current)
        invariant !old(IsAtEnd()) ==> old(current) < current <= SyncFrom(tokens, old(current) + 1)
        invariant !old(IsAtEnd()) ==> SyncFrom(tokens, current) == SyncFrom(tokens, old(current) + 1)
        decreases |tokens| - current
      {
        if Previous().kind.Semicolon? {
          return;
        }
        if StartsStatement(Peek().kind) {
          return;
        }
        var _ := Advance();
      }
    }

    method Expression() returns (r: Outcome<Expr>)
      requires Valid()
      modifies this`current, this`errors, this`nextId
      ensures Valid() && Derived(tokens, r, AssignmentLevel, old(current), current, old(errors), errors)
      ensures r.Parsed? ==> Longest(tokens, current, 5) && !tokens[current].kind.Equal?
      decreases |tokens| - current, 9
    {
      r := Assignment();
    }

    /** An equality expression, and when `=` follows, an assignment to it. */
    method Assignment() returns (r: Outcome<Expr>)
      requires Valid()
      modifies this`current, this`errors, this`nextId
      ensures Valid() && Derived(tokens, r, AssignmentLevel, old(current), current, old(errors), errors)
      ensures r.Parsed? ==> Longest(tokens, current, 5) && !tokens[current].kind.Equal?
      decreases |tokens| - current, 7
    {
      var expr := Equality();
      if expr.ParseError? {
        return expr;
      }
      var isAssign := Match([Equal]);
      if !isAssign {
        return expr;
      }
      r := FinishAssignment(old(current), expr.value);
    }

    /** After `left =`: the value, parsed as an assignment again, then the assignment of
        it to `left` when `left` is a variable; any other target is reported as invalid
        (without throwing) and `left` is returned unchanged. */
    method FinishAssignment(ghost from: nat, left: Expr) returns (r: Outcome<Expr>)
      requires Valid() && from < current - 1 && tokens[current - 1].kind.Equal?
      requires AtLevel(left, 5)
      modifies this`current, this`errors, this`nextId
      ensures Valid() && old(current) <= current && old(errors) <= errors
      ensures r.ParseError? ==> Reported(tokens, current, r.message, old(errors), errors)
      ensures r.Parsed? ==> Longest(tokens, current, 5) && !tokens[current].kind.Equal? && AtLevel(r.value, AssignmentLevel)
      ensures r.Parsed? && left.Variable? ==> r.value.Assign? && r.value.name == left.name
      ensures r.Parsed? && !left.Variable? ==>
                && r.value == left && |errors| > 0
                && errors[|errors| - 1] == StaticError(old(tokens[current - 1]), InvalidAssignmentTarget)
      ensures r.Parsed? && |errors| == |old(errors)| && Spells(left, tokens[from..old(current) - 1]) ==>
                Spells(r.value, tokens[from..current])
      decreases |tokens| - current, 8
    {
      var equals := Previous();
      var value := Assignment();
      if value.ParseError? {
        return value;
      }
      if left.Variable? {
        var id := NewId();
        if |errors| == |old(errors)| && Spells(left, tokens[from..old(current) - 1]) {
          assert tokens[from] == left.name;
          SpellsAssign(tokens, from, current, id, left.name, value.value);
        }
        return Parsed(Assign(id, left.name, value.value));
      }
      Error(equals, InvalidAssignmentTarget);
      return Parsed(left);
    }

    /** `!=` and `==` over comparisons, grouped to the left. */
    method Equality() returns (r: Outcome<Expr>)
      requires Valid()
      modifies this`current, this`errors, this`nextId
      ensures Valid() && Derived(tokens, r, 5, old(current), current, old(errors), errors)
      ensures r.Parsed? ==> Longest(tokens, current, 5)
      decreases |tokens| - current, 6
    {
      var expr := Comparison();
      if expr.ParseError? {
        return expr;
      }
      var e := expr.value;
      while true
        invariant Valid() && Derived(tokens, Parsed(e), 5, old(current), current, old(errors), errors)
        invariant Longest(tokens, current, 4)
        decreases |tokens| - current
      {
        ghost var at, errorsBefore := current, errors;
        OperatorsAtLevel(tokens[current].kind, 5);
        var more := Match(Operators(5));
        if !more {
          return Parsed(e);
        }
        var op := Previous();
        var right := Comparison();
        if right.ParseError? {
          PassesOn(tokens, right, 5, 5 - 1, old(current), at + 1, current, old(errors), errorsBefore, errors);
          return right;
        }
        var id := NewId();
        LeftAssociates(tokens, old(current), at, current, 5, id, e, op, right, old(errors), errorsBefore, errors);
        e := Binary(id, e, op, right.value);
      }
    }

    /** `>`, `>=`, `<` and `<=` over terms, grouped to the left. */
    method Comparison() returns (r: Outcome<Expr>)
      requires Valid()
      modifies this`current, this`errors, this`nextId
      ensures Valid() && Derived(tokens, r, 4, old(current), current, old(errors), errors)
      ensures r.Parsed? ==> Longest(tokens, current, 4)
      decreases |tokens| - current, 5
    {
      var expr := Term();
      if expr.ParseError? {
        return expr;
      }
      var e := expr.value;
      while true
        invariant Valid() && Derived(tokens, Parsed(e), 4, old(current), current, old(errors), errors)
        invariant Longest(tokens, current, 3)
        decreases |tokens| - current
      {
        ghost var at, errorsBefore := current, errors;
        OperatorsAtLevel(tokens[current].kind, 4);
        var more := Match(Operators(4));
        if !more {
          return Parsed(e);
        }
        var op := Previous();
        var right := Term();
        if right.ParseError? {
          PassesOn(tokens, right, 4, 4 - 1, old(current), at + 1, current, old(errors), errorsBefore, errors);
          return right;
        }
        var id := NewId();
        LeftAssociates(tokens, old(current), at, current, 4, id, e, op, right, old(errors), errorsBefore, errors);
        e := Binary(id, e, op, right.value);
      }
    }

    /** `-` and `+` over factors, grouped to the left. */
    method Term() returns (r: Outcome<Expr>)
      requires Valid()
      modifies this`current, this`errors, this`nextId
      ensures Valid() && Derived(tokens, r, 3, old(current), current, old(errors), errors)
      ensures r.Parsed? ==> Longest(tokens, current, 3)
      decreases |tokens| - current, 4
    {
      var expr := Factor();
      if expr.ParseError? {
        return expr;
      }
      var e := expr.value;
      while true
        invariant Valid() && Derived(tokens, Parsed(e), 3, old(current), current, old(errors), errors)
        invariant Longest(tokens, current, 2)
        decreases |tokens| - current
      {
        ghost var at, errorsBefore := current, errors;
        OperatorsAtLevel(tokens[current].kind, 3);
        var more := Match(Operators(3));
        if !more {
          return Parsed(e);
        }
        var op := Previous();
        var right := Factor();
        if right.ParseError? {
          PassesOn(tokens, right, 3, 3 - 1, old(current), at + 1, current, old(errors), errorsBefore, errors);
          return right;
        }
        var id := NewId();
        LeftAssociates(tokens, old(current), at, current, 3, id, e, op, right, old(errors), errorsBefore, errors);
        e := Binary(id, e, op, right.value);
      }
    }

    /** `*` and `/` over unary expressions, grouped to the left. */
    method Factor() returns (r: Outcome<Expr>)
      requires Valid()
      modifies this`current, this`errors, this`nextId
      ensures Valid() && Derived(tokens, r, 2, old(current), current, old(errors), errors)
      ensures r.Parsed? ==> Longest(tokens, current, 2)
      decreases |tokens| - current, 3
    {
      var expr := Unary();
      if expr.ParseError? {
        return expr;
      }
      var e := expr.value;
      while true
        invariant Valid() && Derived(tokens, Parsed(e), 2, old(current), current, old(errors), errors)
        invariant Longest(tokens, current, 1)
        decreases |tokens| - current
      {
        ghost var at, errorsBefore := current, errors;
        OperatorsAtLevel(tokens[current].kind, 2);
        var more := Match(Operators(2));
        if !more {
          return Parsed(e);
        }
        var op := Previous();
        var right := Unary();
        if right.ParseError? {
          PassesOn(tokens, right, 2, 2 - 1, old(current), at + 1, current, old(errors), errorsBefore, errors);
          return right;
        }
        var id := NewId();
        LeftAssociates(tokens, old(current), at, current, 2, id, e, op, right, old(errors), errorsBefore, errors);
        e := Binary(id, e, op, right.value);
      }
    }

    /** `!` or `-` applied to a unary expression, or a primary expression. */
    method Unary() returns (r: Outcome<Expr>)
      requires Valid()
      modifies this`current, this`errors, this`nextId
      ensures Valid() && Derived(tokens, r, 1, old(current), current, old(errors), errors)
      decreases |tokens| - current, 2
    {
      var isOperator := Match([Bang, Minus]);
      if isOperator {
        var op := Previous();
        var right := Unary();
        if right.ParseError? {
          return right;
        }
        var id := NewId();
        if |errors| == |old(errors)| {
          SpellsUnary(tokens, old(current), current, id, op, right.value);
        }
        return Parsed(Expr.Unary(id, op, right.value));
      }
      r := Primary();
    }

    /** A literal, a variable or a parenthesised expression; any other token is reported
        as "Expect expression." and thrown. */
    method Primary() returns (r: Outcome<Expr>)
      requires Valid()
      modifies this`current, this`errors, this`nextId
      ensures Valid() && Derived(tokens, r, 0, old(current), current, old(errors), errors)
      ensures IsLiteralKind(old(tokens[current].kind)) ==>
                && r.Parsed? && r.value.Literal? && Denotes(old(tokens[current]), r.value.lit)
                && current == old(current) + 1
      ensures old(tokens[current].kind).Identifier? ==>
                r.Parsed? && r.value.Variable? && r.value.name == old(tokens[current]) && current == old(current) + 1
      ensures old(tokens[current].kind).LeftParen? && r.Parsed? ==>
                r.value.Grouping? && tokens[current - 1].kind.RightParen?
      ensures !IsLiteralKind(old(tokens[current].kind)) && !old(tokens[current].kind).Identifier? && !old(tokens[current].kind).LeftParen? ==>
                r == ParseError(ExpectExpression) && current == old(current) && |errors| == |old(errors)| + 1
      decreases |tokens| - current, 1
    {
      ghost var t := tokens[current];
      var isFalse := Match([False]);
      if isFalse {
        var id := NewId();
        LiteralDerived(tokens, old(current), id, BoolLit(false), errors);
        return Parsed(Literal(id, BoolLit(false)));
      }
      assert !t.kind.False?;
      var isTrue := Match([True]);
      if isTrue {
        var id := NewId();
        LiteralDerived(tokens, old(current), id, BoolLit(true), errors);
        return Parsed(Literal(id, BoolLit(true)));
      }
      assert !t.kind.True?;
      var isNil := Match([Nil]);
      if isNil {
        var id := NewId();
        LiteralDerived(tokens, old(current), id, NilLit, errors);
        return Parsed(Literal(id, NilLit));
      }
      assert !t.kind.Nil?;
      var isLiteral := Match([Number, String]);
      if isLiteral {
        var id := NewId();
        LiteralDerived(tokens, old(current), id, Previous().literal, errors);
        return Parsed(Literal(id, Previous().literal));
      }
      r := NameOrGroup();
    }

    /** The rest of the primary rule once no literal matched: a variable, a parenthesised
        expression, or the "Expect expression." error. */
    method NameOrGroup() returns (r: Outcome<Expr>)
      requires Valid() && !IsLiteralKind(tokens[current].kind)
      modifies this`current, this`errors, this`nextId
      ensures Valid() && Derived(tokens, r, 0, old(current), current, old(errors), errors)
      ensures old(tokens[current].kind).Identifier? ==>
                r.Parsed? && r.value.Variable? && r.value.name == old(tokens[current]) && current == old(current) + 1
      ensures old(tokens[current].kind).LeftParen? && r.Parsed? ==>
                r.value.Grouping? && tokens[current - 1].kind.RightParen?
      ensures !old(tokens[current].kind).Identifier? && !old(tokens[current].kind).LeftParen? ==>
                r == ParseError(ExpectExpression) && current == old(current) && |errors| == |old(errors)| + 1
      decreases |tokens| - current, 0
    {
      ghost var t := tokens[current];
      var isName := Match([Identifier]);
      if isName {
        var id := NewId();
        VariableDerived(tokens, old(current), id, errors);
        return Parsed(Variable(id, Previous()));
      }
      assert !t.kind.Identifier?;
      var isGroup := Match([LeftParen]);
      if isGroup {
        r := Group();
        return;
      }
      Error(tokens[current], ExpectExpression);
      return ParseError(ExpectExpression);
    }

    /** The parenthesised branch of the primary rule, after `(`: an expression and `)`. */
    method Group() returns (r: Outcome<Expr>)
      requires Valid() && current > 0 && tokens[current - 1].kind.LeftParen?
      modifies this`current, this`errors, this`nextId
      ensures Valid() && Derived(tokens, r, 0, old(current) - 1, current, old(errors), errors)
      ensures r.Parsed? ==> r.value.Grouping? && tokens[current - 1].kind.RightParen?
      decreases |tokens| - current, 10
    {
      var e := Expression();
      if e.ParseError? {
        return e;
      }
      ghost var errorsBefore := errors;
      var paren := Consume(RightParen, ExpectParenAfterExpression);
      if paren.ParseError? {
        PrefixTransitive(old(errors), errorsBefore, errors);
        return ParseError(paren.message);
      }
      var id := NewId();
      if |errors| == |old(errors)| {
        SpellsGrouping(tokens, old(current) - 1, current, id, e.value);
      }
      return Parsed(Grouping(id, e.value));
    }
  }
}
