# Shlox core in Dafny

A model of the core of Shlox, a tree-walking interpreter for the Lox language. Its
stages are:

- **Scanner** (`scanner.dfy`, module `Scanning`): turns source text into tokens.
- **Parser** (`parser.dfy`, module `Parsing`): recursive descent over the tokens. It recovers
  from errors by synchronising on statement boundaries.
- **Resolver** (`resolver.dfy`, module `Resolving`): a static pass over the tree. It
  reports scope errors. It records each local variable's scope distance in the
  interpreter's resolution table.
- **Environment chain** (`environment.dfy`, module `Environments`).
- **Runtime objects** (`runtime.dfy`, module `Runtime`): functions, classes and instances.
- **Interpreter** (`interpreter.dfy`, module `Interpreting`): evaluates expressions and
  executes statements.

Tokens, failures and the syntax tree are in `tokens.dfy`, `exceptions.dfy` and `ast.dfy`.

The source changes state step by step in every one of these stages, so each stage is a
`class`:

- The scanner keeps its cursor, line and token list.
- The parser keeps its cursor and the errors it reports.
- The resolver keeps its stack of scopes.
- A frame keeps its map of bindings.
- An instance keeps its fields.
- The interpreter keeps its current frame, resolution table and printed output.

Their methods are proved against functions and predicates over that state:

- `Scanned`/`InOrder`: a token is exactly the text it came from, and fits that text.
- `Step`/`Tokenize`: the reference scan, one lexeme after another, which the scanning loop follows exactly.
- `Spells`/`AtLevel`: a parsed tree is exactly the tokens it was parsed from, with the
  grammar's precedence and associativity.
- `Declared`/`Defined`/`InnermostDistance`: resolver scopes and distances.
- `Distance`/`AncestorAt`: the frame chain.
- `BinaryOp`/`UnaryOp`/`IsTruthy`: operator semantics.

Errors are values. A Lox `RuntimeError` and the static errors reported through
`Lox.Error` are recorded as values. A .NET exception that nothing catches, such as a
duplicate or missing dictionary key, is returned as a `HostFault`.

## Model

| member | source | states |
|---|---|---|
| Scanning.Scanner.constructor | src/Lexing/Scanner.cs:19-23 | a new scanner is at offset 0 on line 1 with no tokens and no errors |
| Scanning.KeywordTypes | src/Lexing/Scanner.cs:25-43 | every key of the keyword table is identifier text mapped to a keyword token type |
| Scanning.Scanner.ScanTokens | src/Lexing/Scanner.cs:45-55 | the result is exactly the tokens of the reference scan `Tokenize` from the starting offset and line, followed by one EOF token on the line that scan ends on. The reported errors are exactly the scan's errors, appended. The whole source is consumed, every other token is exactly the text of its span and fits it, no other token is EOF, and spans and lines never go back (corrected comment and number scanning, see Findings) |
| Scanning.Scanner.ScanAll | src/Lexing/Scanner.cs:47-51 | the loop consumes the whole source. The tokens and errors it appends, and the line it ends on, are exactly those of `Tokenize` from where it started. The token list stays a scan of the source |
| Scanning.Tokenize | src/Lexing/Scanner.cs:45-55 | the reference scan: one `Step` after another to the end of the text. Lines never go back, and there are no more tokens than characters |
| Scanning.TokenizeThrough | src/Lexing/Scanner.cs:47-51 | scanning the next lexeme moves its token and error from what remains to be scanned to what has been scanned, and leaves the final line unchanged |
| Scanning.TokenizeLines | src/Lexing/Scanner.cs:53 | the final line is at most the starting line plus the line breaks in the text, and exactly that when no `/*` occurs in it: a block comment is the only lexeme whose line breaks are not counted |
| Scanning.StepLines | src/Lexing/Scanner.cs:57-167 | one lexeme moves the line on by at most the line breaks it spans, and by exactly that many unless it is a block comment |
| Scanning.Step | src/Lexing/Scanner.cs:57-167 | one lexeme consumes at least one character and never moves back a line. Its token, if any, is exactly the text consumed, on the line reached, with no error beside it |
| Scanning.SymbolStep | src/Lexing/Scanner.cs:60-146 | it reports "Unexpected character: c" on the current line exactly when no lexeme starts with `c`, and a blank adds no token and no error |
| Scanning.SlashStep | src/Lexing/Scanner.cs:112-137 | `//` adds nothing and stops at a line break or the end. `/*` adds no token. Without an error it ends just after a `*/`. The only error is the open comment, at the end of the text, on the current line. No branch changes the line |
| Scanning.WordStep | src/Lexing/Scanner.cs:148-160 | a string, number or identifier always gives a token unless it reports an error |
| Scanning.StringStep | src/Lexing/Scanner.cs:171-190 | a terminated string gives a STRING token whose literal is the text between the quotes, and moves the line on by the line breaks inside. An unterminated one consumes the rest and reports "Unterminated string." on the last line, and exactly then has no token |
| Scanning.NumberStep | src/Lexing/Scanner.cs:192-197 | always a NUMBER token with no error, on the same line (corrected, see Findings) |
| Scanning.IdentifierStep | src/Lexing/Scanner.cs:202-215 | always an identifier-shaped token with no error on the same line. It is an IDENTIFIER exactly when its text is no keyword |
| Scanning.QuoteFrom | src/Lexing/Scanner.cs:173 | the first quote from the index on, or the end: no quote is skipped |
| Scanning.LineEnd | src/Lexing/Scanner.cs:115 | the first line break from the index on, or the end: no line break is skipped |
| Scanning.CommentEnd | src/Lexing/Scanner.cs:119 | the first `*/` from the index on, or the end: no earlier `*/` is skipped |
| Scanning.DigitsEnd | src/Lexing/Scanner.cs:194 | the end of the run of digits from the index: every character before it is a digit and the one at it is not |
| Scanning.NumeralEnd | src/Lexing/Scanner.cs:194 | the end of the numeral from the index: digits or `.` up to it, and no digit at it |
| Scanning.NumeralEndIsNumeral | src/Lexing/Scanner.cs:194-196 | the text up to `NumeralEnd` is a decimal numeral, whose `.` ends the first run of digits |
| Scanning.WordEnd | src/Lexing/Scanner.cs:204 | the end of the run of letters, digits and `_`: every character before it continues a word and the one at it does not |
| Scanning.Scanner.ScanNext | src/Lexing/Scanner.cs:47-51 | one loop turn starts the lexeme where the last ended and does exactly what `Step` says for that offset and line: it resumes at the step's end, on its line, with its token and its error appended. The token list stays a scan of the source |
| Scanning.Scanner.ScanToken | src/Lexing/Scanner.cs:57-167 | scanning one lexeme does exactly what `Step` says: where it resumes, the line, and the token and error it adds. At most one token is added, and it is the text consumed |
| Scanning.Scanner.ScanSymbol | src/Lexing/Scanner.cs:60-146 | exactly `SymbolStep`: a single-character token, an operator, a slash or comment, a skipped blank (a line break moves to the next line), or "Unexpected character: c" on the current line with no token |
| Scanning.SingleCharKind | src/Lexing/Scanner.cs:62-97 | each one-character token's type has exactly that character as its fixed lexeme. Such a character starts no word, blank, comment or operator |
| Scanning.OperatorKind | src/Lexing/Scanner.cs:99-110 | defined exactly for `!`, `=`, `<` and `>`. The type fits the one- or two-character lexeme, according to whether `=` follows |
| Scanning.Scanner.ScanOperator | src/Lexing/Scanner.cs:99-110 | a following `=` is consumed exactly when present, and the token is the two-character operator then. Otherwise it is the one-character operator |
| Scanning.Scanner.ScanSlash | src/Lexing/Scanner.cs:112-137 | exactly `SlashStep`: `//` adds nothing and stops at a line break or the end. `/*` skips up to and including the first `*/`, or reports the comment left open on the current line at the end (corrected, see Findings). A lone `/` appends a SLASH token |
| Scanning.Scanner.SkipLineComment | src/Lexing/Scanner.cs:115 | stops at `LineEnd`: the first line break (not consumed) or the end, and skips no line break |
| Scanning.Scanner.SkipBlockCommentAsWritten | src/Lexing/Scanner.cs:117-131 | the loop as written stops at the first index whose character is `*` OR whose next character is `/`, then skips two. At the end it reports the comment with `start`, a character offset, as its line, and runs two past the source |
| Scanning.Scanner.SkipBlockComment | src/Lexing/Scanner.cs:117-131 | corrected: stops just after the first `*/`, which `CommentEnd` finds, and skips no earlier one. When there is none, it reaches the end and reports "Multiline Comment left open." on the current line |
| Scanning.Scanner.ScanWord | src/Lexing/Scanner.cs:148-160 | exactly `WordStep`: a quote starts a string, a digit a number and a letter an identifier or keyword (corrected number scanning, see Findings) |
| Scanning.Scanner.HandleString | src/Lexing/Scanner.cs:171-190 | exactly `StringStep`: either a STRING token from the opening quote to the first closing quote, whose literal is the text between them, or, with no closing quote, the rest of the source consumed, "Unterminated string." reported and no token. Either way, line breaks inside are counted |
| Scanning.Scanner.SkipStringBody | src/Lexing/Scanner.cs:173-177 | advances to the first quote or the end, adding to the line count the line breaks it passes |
| Scanning.Scanner.AddStringToken | src/Lexing/Scanner.cs:186-189 | the appended token's lexeme is the quoted text and its literal the text inside the quotes |
| Scanning.Scanner.HandleNumberAsWritten | src/Lexing/Scanner.cs:192-197 | the lexeme runs through every digit and every `.` followed by a digit. A numeral gives a NUMBER token with its value. Anything else (`1.2.3`) is a `double.Parse` fault and no token |
| Scanning.Scanner.ScanNumeralAsWritten | src/Lexing/Scanner.cs:194 | the loop as written: each consumed character is a digit or a `.` followed by a digit, and it stops at the first that is neither |
| Scanning.Scanner.HandleNumber | src/Lexing/Scanner.cs:192-197 | corrected: the lexeme is always a numeral, and NUMBER carries its value. It is the longest numeral: no digit follows, and a `.`-digit pair follows only when the lexeme already has its `.` |
| Scanning.Scanner.ScanNumeral | src/Lexing/Scanner.cs:194 | digits, then `.` and digits only when a digit follows the `.`: the consumed text is a numeral and the longest one |
| Scanning.Scanner.SkipDigits | src/Lexing/Scanner.cs:194 | consumes a maximal run of digits |
| Scanning.Scanner.HandleIdentifier | src/Lexing/Scanner.cs:202-215 | the lexeme is the longest run of letters, digits and `_`. It is a keyword token exactly when the text is in the keyword table, and an IDENTIFIER otherwise |
| Scanning.Scanner.AddToken | src/Lexing/Scanner.cs:227-231 | appends the token whose lexeme is the source from `start` to `current`, on the current line |
| Scanning.Scanner.Match | src/Lexing/Scanner.cs:237-242 | consumes one character exactly when it is the expected one |
| Scanning.Scanner.Peek | src/Lexing/Scanner.cs:244-253 | the character `amount` ahead, or `'\0'` past the end |
| Scanning.Scanner.IsAtEnd | src/Lexing/Scanner.cs:258 | in a valid state, at the end exactly when the whole source has been consumed |
| Tokens.CharacterClasses | src/Lexing/Scanner.cs:255-256 | a digit is one of the ten characters `0`-`9`, a word starts with an ASCII letter or `_`, and continues with those or a digit |
| Tokens.NumberValue | src/Lexing/Scanner.cs:196 | the value of a numeral lies between its integer digits and the next integer: they are its floor |
| Scanning.BlockCommentAsWrittenStopsEarly | src/Lexing/Scanner.cs:119 | in `/* a/b */` the loop as written stops before `a/b`'s slash and resumes scanning at offset 5 |
| Scanning.BlockCommentSkipsToClose | src/Lexing/Scanner.cs:119 | the corrected loop skips that whole comment (offset 9) with no error |
| Scanning.OpenCommentLineAsWritten | src/Lexing/Scanner.cs:123 | an open comment on line 3 after two line breaks is reported as written on "line" 2, the comment's character offset |
| Scanning.OpenCommentLine | src/Lexing/Scanner.cs:123 | the corrected scanner reports it on line 3 |
| Scanning.SecondDotAsWritten | src/Lexing/Scanner.cs:194-196 | as written, `1.2.3` is one lexeme of five characters, and parsing it faults |
| Scanning.SecondDot | src/Lexing/Scanner.cs:194-196 | corrected, `1.2.3` yields the NUMBER `1.2` and scanning resumes at the second `.` |
| Scanning.SecondDotStops | src/Lexing/Scanner.cs:194 | the only place a longest numeral at the start of `1.2.3` can end is offset 3 |
| Scanning.NotNumeral | src/Lexing/Scanner.cs:196 | `1.2.3` is not a decimal numeral |
| Parsing.Parser.constructor | src/Parsing/Parser.cs:17-20 | the parser starts at token 0 with no errors, over a token list that ends with EOF |
| Parsing.Parser.Parse | src/Parsing/Parser.cs:22-30 | declarations are parsed until EOF. Each null entry (a failed declaration) has an error reported for it. With no errors, every entry is a statement |
| Parsing.Parser.Expression | src/Parsing/Parser.cs:34-37 | the result has assignment-level shape, consumed at least one token, and is the tree of exactly the consumed tokens when no error was reported. A thrown error is the last one reported |
| Parsing.Parser.Assignment | src/Parsing/Parser.cs:39-58 | as `Expression`. It stops only before a token that can continue no level, and never before `=` |
| Parsing.Parser.FinishAssignment | src/Parsing/Parser.cs:43-55 | a variable target becomes an `Assign` of that name. Any other target is returned unchanged, with "Invalid assignment target." reported at the `=`. The result spells target, `=` and value |
| Parsing.Parser.Declaration | src/Parsing/Parser.cs:60-72 | consumes at least one token. `var` gives a `Var` statement, `print` a `Print` and `{` a `Block`. A failure reports an error and leaves the cursor at EOF or at a synchronisation point. With no error, the result is a statement |
| Parsing.Parser.Statement | src/Parsing/Parser.cs:74-80 | `print` gives a `Print` statement, `{` a `Block` and anything else an expression statement. A thrown error is the last one reported |
| Parsing.Parser.PrintStatement | src/Parsing/Parser.cs:82-87 | a `Print` of an assignment-level expression spelled by the tokens before the closing `;` |
| Parsing.Parser.VarDeclaration | src/Parsing/Parser.cs:89-101 | a `Var` named by the identifier after `var`, ending at a `;`. It has an initializer exactly when `=` follows the name. A missing name throws "Expect variable name." without consuming anything |
| Parsing.Parser.Initializer | src/Parsing/Parser.cs:93-97 | no `=`: no initializer and nothing consumed. Otherwise an assignment-level expression spelled by the tokens after the `=` |
| Parsing.Parser.ExpressionStatement | src/Parsing/Parser.cs:103-108 | an expression statement spelled by the tokens before the closing `;` |
| Parsing.Parser.Block | src/Parsing/Parser.cs:110-121 | declarations up to a `}`, with each null entry accounted for by an error. A missing `}` throws "Expect '}' after block." at EOF |
| Parsing.Parser.Equality | src/Parsing/Parser.cs:123-135 | a tree of equality level or below, spelling the consumed tokens. It stops before the first token that is no operator of this level or a tighter one |
| Parsing.Parser.Comparison | src/Parsing/Parser.cs:137-149 | as `Equality`, at comparison level |
| Parsing.Parser.Term | src/Parsing/Parser.cs:151-163 | as `Equality`, at term level |
| Parsing.Parser.Factor | src/Parsing/Parser.cs:165-177 | as `Equality`, at factor level |
| Parsing.LeftAssociates | src/Parsing/Parser.cs:127-132 | wrapping the tree so far as the left operand of the next operator of the same level keeps it a derivation of the longer token run, so the binary operators associate to the left |
| Parsing.Parser.Unary | src/Parsing/Parser.cs:179-189 | `!` or `-` followed by a unary-level operand, or a primary |
| Parsing.Parser.Primary | src/Parsing/Parser.cs:191-215 | `false`, `true`, `nil`, numbers and strings become literals of their values, consuming one token. An identifier becomes a variable. `(` becomes a group closed by `)`. Anything else throws "Expect expression." without consuming |
| Parsing.Parser.NameOrGroup | src/Parsing/Parser.cs:202-215 | the identifier, parenthesis and error branches of the primary rule |
| Parsing.Parser.Group | src/Parsing/Parser.cs:207-212 | a `Grouping` of an expression, followed by the `)` it consumed |
| Parsing.Parser.Match | src/Parsing/Parser.cs:221-232 | consumes one token exactly when it is not EOF and its type is among the given ones |
| Parsing.Parser.Check | src/Parsing/Parser.cs:234-238 | true exactly when the current token has the type and is not EOF |
| Parsing.Parser.Advance | src/Parsing/Parser.cs:240-244 | moves one token on unless at EOF, and returns the previous token |
| Parsing.Parser.Consume | src/Parsing/Parser.cs:263-268 | succeeds exactly when the current token has the type. It then returns that token and advances. Otherwise it reports the message at the current token and consumes nothing |
| Parsing.Parser.IsAtEnd | src/Parsing/Parser.cs:246-249 | the last token, the EOF that ends every token list, is always the end |
| Parsing.Parser.Peek | src/Parsing/Parser.cs:251-254 | the current token, one of the list. At the last position it is EOF |
| Parsing.Parser.Previous | src/Parsing/Parser.cs:256-259 | a token already passed, and never the final EOF |
| Parsing.Parser.Error | src/Parsing/Parser.cs:270-274 | appends the message at the token to the reported errors |
| Parsing.Parser.Synchronise | src/Parsing/Parser.cs:276-297 | advances to the first synchronisation point after the current token: just after a `;`, before a statement keyword, or at EOF |
| Parsing.SyncFrom | src/Parsing/Parser.cs:280-296 | that position lies at or after the start, and is EOF or a synchronisation point |
| Parsing.SyncFromSkipsNone | src/Parsing/Parser.cs:280-296 | every token skipped on the way is neither EOF nor a synchronisation point |
| Resolving.Declared | src/Parsing/Resolver.cs:47-60 | with no scope open nothing changes. Otherwise the innermost scope gains the name as not yet defined, unless it already has it |
| Resolving.Defined | src/Parsing/Resolver.cs:62-66 | the innermost scope marks the name defined, and no other scope changes |
| Resolving.ParameterScopeBinds | src/Parsing/Resolver.cs:104-108 | the parameter scope binds exactly the parameters' names, all of them defined |
| Resolving.DeclareParameter | src/Parsing/Resolver.cs:104-108 | declaring and defining parameter i extends the scope of the first i parameters to the scope of the first i+1 |
| Resolving.DeclareThenDefine | src/Parsing/Resolver.cs:143-144 | declaring then defining a name leaves it defined in the innermost scope |
| Resolving.InnermostDistance | src/Parsing/Resolver.cs:68-78 | corrected: the distance to the nearest scope holding the name. No nearer scope holds it, and None means no scope does |
| Resolving.OutermostDistance | src/Parsing/Resolver.cs:68-78 | as written: the distance to the outermost scope holding the name. No farther scope holds it |
| Resolving.DistancesAgreeWithoutShadowing | src/Parsing/Resolver.cs:68-78 | both searches find the name in the same cases, and the innermost distance is never larger. They agree whenever no two scopes hold the name |
| Resolving.ShadowedNameResolvesOutward | src/Parsing/Resolver.cs:68-78 | with `a` in two nested scopes, the loop as written resolves `a` to distance 1 where the nearest binding is at 0 |
| Resolving.Resolver.constructor | src/Parsing/Resolver.cs:32-35 | no scopes, no errors, outside any function and class |
| Resolving.Resolver.BeginScope | src/Parsing/Resolver.cs:37-40 | pushes an empty scope |
| Resolving.Resolver.EndScope | src/Parsing/Resolver.cs:42-45 | pops the innermost scope |
| Resolving.Resolver.Declare | src/Parsing/Resolver.cs:47-60 | the scopes become `Declared`. "Already a variable with this name in this scope." is reported exactly when the innermost scope already holds the name |
| Resolving.Resolver.Define | src/Parsing/Resolver.cs:62-66 | the scopes become `Defined` |
| Resolving.Resolver.ResolveLocalAsWritten | src/Parsing/Resolver.cs:68-78 | records the outermost distance for the expression, or nothing when no scope holds the name (a global). A second entry for the same expression faults |
| Resolving.Resolver.ResolveLocal | src/Parsing/Resolver.cs:68-78 | corrected: records the innermost distance |
| Resolving.Resolver.Resolve | src/Parsing/Resolver.cs:80-86 | the result and the new state are exactly `ResolvedStmts` from the first statement: the statements are resolved in order, and the first failure ends the run. Errors only grow. On success the depth of the scope stack and the function and class context are restored |
| Resolving.Resolver.DefineParameters | src/Parsing/Resolver.cs:104-108 | the fresh function scope becomes exactly the parameter scope |
| Resolving.Resolver.ResolveFunction | src/Parsing/Resolver.cs:98-112 | the result and the new state are exactly `ResolvedFunction` with `kind`: duplicate parameters are reported, then the body is resolved with the parameter scope pushed and the function type set to `kind`. On success the scopes and the function type are restored |
| Resolving.Resolver.ResolveStmt | src/Parsing/Resolver.cs:88-91 | the result and the new state are exactly `ResolvedStmt`. A block leaves the scopes as they were. A `var`, `fun` or `class` declaration declares and defines its name in the innermost scope |
| Resolving.Resolver.VisitBlock | src/Parsing/Resolver.cs:130-136 | exactly `ResolvedStmt` of the block: the statements are resolved, in order, in a new empty scope, which is popped again on success |
| Resolving.Resolver.VisitClass | src/Parsing/Resolver.cs:138-177 | exactly `ResolvedClass`: the class name is declared and defined, then the rest is resolved with the class type CLASS, which is restored afterwards. "A class can't inherit from itself." is reported when the superclass has the class's name |
| Resolving.Resolver.ResolveClassScopes | src/Parsing/Resolver.cs:146-173 | exactly `ResolvedClassScopes`: without a superclass, the class body. With one, the self-inheritance error comes first, then the superclass is resolved as a variable with the class type SUBCLASS, then the body is resolved inside a scope binding `super` |
| Resolving.Resolver.ResolveSuperScope | src/Parsing/Resolver.cs:154-173 | exactly `ResolvedSuperScope`: the class body is resolved inside a new scope binding `super`, which is popped on success |
| Resolving.Resolver.ResolveSuperclass | src/Parsing/Resolver.cs:146-153 | the self-inheritance error is reported first, and the superclass is resolved as a variable at its innermost distance (corrected, see Findings) |
| Resolving.Resolver.ResolveClassBody | src/Parsing/Resolver.cs:158-171 | exactly `ResolvedClassBody`: the methods are resolved in a new scope binding `this`, which is popped on success |
| Resolving.Resolver.ResolveMethods | src/Parsing/Resolver.cs:161-169 | exactly `ResolvedMethods`: each method in order, with the function type `MethodKind`, which is INITIALIZER exactly when the method is named `init` and METHOD otherwise. The first failure ends the run |
| Resolving.Resolver.VisitFunction | src/Parsing/Resolver.cs:195-202 | exactly `ResolvedStmt` of the declaration: the name is declared and defined before the body, which `ResolvedFunction` resolves with the function type FUNCTION |
| Resolving.Resolver.VisitReturn | src/Parsing/Resolver.cs:243-258 | "Can't return from top-level code." is reported outside a function. "Can't return a value from an initializer." is reported for a value in an initializer. Both go in that order, before any error of the value |
| Resolving.Resolver.VisitVar | src/Parsing/Resolver.cs:313-322 | exactly `ResolvedStmt` of the declaration: the initializer is resolved with the name declared but not yet defined, and the name is defined afterwards (see `OwnInitializerRule`) |
| Resolving.Resolver.ResolveExpr | src/Parsing/Resolver.cs:93-96 | the result and the new state are exactly `ResolvedExpr`. A literal reports and records nothing. A successful assignment whose target some scope binds leaves that target recorded at its innermost distance (corrected, see Findings) |
| Resolving.Resolver.VisitAssign | src/Parsing/Resolver.cs:116-121 | exactly `ResolvedExpr` of the assignment: the value is resolved first, and its failure is the result. Then the target is recorded at its innermost distance, or left to the globals when no scope binds it (corrected, see Findings) |
| Resolving.Resolver.VisitSuper | src/Parsing/Resolver.cs:267-279 | `super` outside a class, or in a class without a superclass, reports its error. `super` is resolved like a variable, at its innermost distance (corrected, see Findings) |
| Resolving.Resolver.VisitThis | src/Parsing/Resolver.cs:281-291 | `this` outside a class reports an error and records nothing. Inside a class it is resolved like a variable, at its innermost distance (corrected, see Findings) |
| Resolving.Resolver.VisitVariable | src/Parsing/Resolver.cs:299-311 | reading a name that the innermost scope declares but has not defined reports "Can't read local variable in its own initializer.". The name is then resolved at its innermost distance (corrected, see Findings) |
| Resolving.ResolvedStmt | src/Parsing/Resolver.cs:88-91 | the reference resolution of one statement, which the resolver's methods equal. It never drops a reported error |
| Resolving.ResolvedFunction | src/Parsing/Resolver.cs:98-112 | the reference resolution of a function body with a given function type. It never drops a reported error |
| Resolving.ResolvedMethods | src/Parsing/Resolver.cs:161-169 | the reference resolution of a class's methods, each with `MethodKind`. It never drops a reported error |
| Resolving.ResolvedExpr | src/Parsing/Resolver.cs:93-96 | the reference resolution of one expression, operands left to right. It never drops a reported error |
| Resolving.OwnInitializerRule | src/Parsing/Resolver.cs:299-322 | `var a = a;` in a scope that does not hold `a` yet reports "Can't read local variable in its own initializer." and binds the read at distance 0. At the top level it reports nothing and leaves the read to the globals |
| Resolving.ReturnInFunctionRule | src/Parsing/Resolver.cs:98-112 | a body that returns a value at once reports "Can't return from top-level code." exactly when resolved outside a function, and "Can't return a value from an initializer." exactly when resolved as an initializer |
| Resolving.InitializerReturnRule | src/Parsing/Resolver.cs:158-171 | a class's only method that returns a value at once is reported as returning from an initializer exactly when it is named `init` |
| Environments.Environment.Global | src/Environment.cs:16-19 | the global frame has no enclosing frame and no bindings |
| Environments.Environment.constructor | src/Environment.cs:21-24 | an empty frame whose chain is the enclosing frame's chain with it in front |
| Environments.Environment.Distance | src/Environment.cs:26-36 | when present, a frame at that distance binds the name |
| Environments.Environment.DistanceIsNearest | src/Environment.cs:26-36 | that frame is the nearest one, and no frame binds the name when there is none |
| Environments.Environment.Get | src/Environment.cs:26-36 | the value in the nearest frame binding the name, or "Undefined variable 'x'." |
| Environments.Environment.GetAt | src/Environment.cs:38-41 | the value the frame exactly that many links up binds, never searching further |
| Environments.Environment.Binds | src/Environment.cs:38-41 | true exactly when that frame exists and binds the name, which is when `GetAt` does not throw |
| Environments.Environment.Assign | src/Environment.cs:43-58 | only the nearest frame binding the name changes, and only that binding. No frame gains or loses a name. An unbound name gives "Undefined variable 'x'." |
| Environments.Environment.AssignAtAsWritten | src/Environment.cs:60-63 | `values.Add` as written: it adds an absent name and throws on a name the frame already binds |
| Environments.Environment.AssignAt | src/Environment.cs:60-63 | corrected: overwrites the existing binding in the frame that many links up, without changing its names |
| Environments.Environment.Define | src/Environment.cs:65-69 | binds or rebinds the name in this frame |
| Environments.Environment.AncestorAt | src/Environment.cs:71-79 | the frame d links up, whose chain is the rest of this chain |
| Environments.Environment.Ancestor | src/Environment.cs:71-79 | following exactly d enclosing links reaches `AncestorAt(d)` |
| Environments.AssignAtRebindFails | src/Environment.cs:60-63 | assigning to an outer `a` from a block faults with the code as written |
| Environments.AssignAtRebindOverwrites | src/Environment.cs:60-63 | the corrected assignment stores 2, and `GetAt` reads 2 back |
| Runtime.LoxFunction.constructor | src/Functions/LoxFunction.cs:16-21 | keeps the declaration, the closure and the initializer flag |
| Runtime.LoxFunction.Bind | src/Functions/LoxFunction.cs:23-28 | a copy of the function whose closure is a new frame inside the old one, binding only `this` to the instance |
| Runtime.LoxClass.constructor | src/Functions/LoxClass.cs:15-19 | keeps the name and the method table |
| Runtime.LoxClass.Call | src/Functions/LoxClass.cs:26-30 | a fresh instance of this class with no fields, whatever the arguments |
| Runtime.LoxClass.FindMethod | src/Functions/LoxClass.cs:32-35 | the class's own method of that name, and none exactly when the table lacks it |
| Runtime.LoxInstance.constructor | src/Functions/LoxInstance.cs:16-19 | an instance of the class with no fields |
| Runtime.LoxInstance.Get | src/Functions/LoxInstance.cs:21-32 | a field shadows a method. A method is returned unbound. Otherwise "Undefined property 'x'." |
| Runtime.LoxInstance.Set | src/Functions/LoxInstance.cs:34-37 | `fields.Add`: adds a new field and faults on an existing one |
| Interpreting.Interpreter.constructor | src/Parsing/Interpreter.cs:18-22 | the current frame is the global frame, which binds only `clock` |
| Interpreting.Interpreter.Interpret | src/Parsing/Interpreter.cs:24-37 | the statements run as `ExecuteStatements` runs them, and the last exit decides. All complete: `Ok`, nothing reported. A runtime error is reported and ends the run with `Ok`. A `return` outside a function escapes as a host fault. Any other failure escapes unreported. For simple statements the exits, the output and the final store are those of `RunFrom` on the store before the run |
| Interpreting.Interpreter.Execute | src/Parsing/Interpreter.cs:39-42 | for a simple statement within the fuel, the exit, the output and the new store are exactly `Step` on the store before it. In every case no frame other than the current one gains or loses a name, a `return` never completes normally, and a completed `var` binds its name in the current frame |
| Interpreting.Interpreter.ExecuteSimple | src/Parsing/Interpreter.cs:201-250 | an expression statement, `print`, `return` or `var` that is simple and within the fuel has exactly the exit, output and new store of `Step` on the store before it |
| Interpreting.Interpreter.ExecuteStatements | src/Parsing/Interpreter.cs:56-59 | the statements run in the current frame in order, up to and including the first that does not complete, and the exit is that statement's. For simple statements the exits, the output and the new store are exactly those of `RunFrom` |
| Interpreting.Interpreter.RunStatements | src/Parsing/Interpreter.cs:56-59 | the loop over the statements: for simple statements it completes the reference run it is given, with the same exits, output and final store |
| Interpreting.Interpreter.ExecuteNext | src/Parsing/Interpreter.cs:58 | one turn of the loop: for simple statements, a completed statement moves the run so far past it, and one that does not complete ends the reference run |
| Interpreting.Interpreter.NewFrame | src/Parsing/Interpreter.cs:70 | a fresh empty frame inside the current one, whose store is `InBlock` of the current store |
| Interpreting.Interpreter.Resolve | src/Parsing/Interpreter.cs:44-47 | records the distance of a new expression id. A second record for the same id faults |
| Interpreting.Interpreter.ExecuteBlock | src/Parsing/Interpreter.cs:49-65 | the statements run in the given frame in order, up to and including the first that does not complete, and the exit is that statement's, or normal when all complete. For simple statements the exits, the output and the frame's new store are those of `RunFrom` on the frame's store. The current frame is restored however the block ends |
| Interpreting.Interpreter.VisitBlock | src/Parsing/Interpreter.cs:68-72 | the block runs in a new frame, and no frame that existed before gains a name. For simple statements the exit and the output are those of `RunFrom` from an empty frame inside the current store, and the current store is left exactly as it was: the block's declarations do not outlive it |
| Interpreting.Interpreter.VisitFunction | src/Parsing/Interpreter.cs:207-212 | binds the name in the current frame to a new function that closes over that frame. Every other binding of the frame keeps its value |
| Interpreting.Interpreter.VisitIf | src/Parsing/Interpreter.cs:214-225 | a failing condition fails the statement, and a falsy one with no else branch does nothing. For an effect-free condition the condition's value is `Eval`'s, and a simple branch taken has exactly the exit, output and store of `Step` on the store before the statement |
| Interpreting.Interpreter.VisitPrint | src/Parsing/Interpreter.cs:227-232 | a failing expression fails the statement and prints nothing. Otherwise the value is appended to the output. For an effect-free expression the value is `Eval`'s on the store before, exactly that value is appended, and no frame changes |
| Interpreting.Interpreter.VisitReturn | src/Parsing/Interpreter.cs:234-239 | unwinds with the value of the expression, or with nil and no output when there is none. A failing expression fails the statement. For an effect-free expression the value is `Eval`'s and nothing else changes |
| Interpreting.Interpreter.VisitVar | src/Parsing/Interpreter.cs:241-250 | binds the name in the current frame to the initializer's value, or to nil without one. A failing initializer fails the statement. For an effect-free initializer the value is `Eval`'s, nothing is printed, and the new store is exactly `Bound` of the old one |
| Interpreting.Interpreter.VisitWhile | src/Parsing/Interpreter.cs:252-259 | the current frame is kept however the loop ends, and the number of turns it makes is bounded by the fuel. What each turn computes is not stated (see Left out) |
| Interpreting.Interpreter.Evaluate | src/Parsing/Interpreter.cs:283-286 | for an effect-free expression within the fuel, the result is exactly `Eval` on the store before, and no frame, binding or output changes. Every evaluation keeps the interpreter well formed and only appends to the output |
| Interpreting.Interpreter.VisitBinary | src/Parsing/Interpreter.cs:74-122 | the first failing operand is the result. Otherwise the result is `BinaryOp` of the two values. For effect-free operands, the left value is `Eval` of the left operand and the right value is `Eval` of the right one, both on the store before, and nothing changes |
| Interpreting.BinaryOp | src/Parsing/Interpreter.cs:79-121 | comparisons and arithmetic need two numbers ("Operands must be numbers."). Division by zero fails ("Cannot divide by zero"). `==`/`!=` are equality. `+` adds numbers or concatenates strings ("Operands must be two numbers OR two strings."). Any other operator gives nil |
| Interpreting.Interpreter.VisitLogical | src/Parsing/Interpreter.cs:157-171 | a failing left operand fails. `or` on a truthy left value and `and` on a falsy one return it with nothing after it (no output added). Otherwise the result is the right operand's. For effect-free operands both values are `Eval`'s on the store before, and nothing changes |
| Interpreting.ShortCircuits | src/Parsing/Interpreter.cs:161-168 | `or` short-circuits exactly on a truthy left value, and `and` exactly on a falsy one |
| Interpreting.Interpreter.VisitUnary | src/Parsing/Interpreter.cs:173-187 | a failing operand fails, and otherwise the result is `UnaryOp` of its value. For an effect-free operand its value is `Eval`'s on the store before, and nothing changes |
| Interpreting.UnaryOp | src/Parsing/Interpreter.cs:178-186 | `!` is falsiness. `-` negates a number, and fails with "Operand must be a number." otherwise. Any other operator gives nil |
| Interpreting.Interpreter.LookUpVariable | src/Parsing/Interpreter.cs:194-199 | the result is `VariableValue`: an unresolved name is read from the globals or fails as undefined. A resolved one is read from the frame exactly that distance up. If that frame lacks the name, it faults |
| Interpreting.Lookup | src/Parsing/Interpreter.cs:194-199 | a resolved read succeeds exactly when the frame at its distance binds the name, and an unresolved one exactly when the globals bind it. The failures are "Undefined variable" for an unresolved name and a host fault for a resolved one |
| Interpreting.Eval | src/Parsing/Interpreter.cs:74-192 | the reference value of an effect-free expression, operands left to right. It can fail only with a runtime error or a missing binding |
| Interpreting.Step | src/Parsing/Interpreter.cs:201-250 | the reference outcome of a simple statement: only `return` unwinds, and only a completed `print` prints, exactly one value |
| Interpreting.StepStore | src/Parsing/Interpreter.cs:241-250 | a simple statement changes only the current frame, and only by the name a completed `var` binds, and the globals only when the current frame is the global one |
| Interpreting.RunFrom | src/Parsing/Interpreter.cs:56-59 | the reference run of simple statements in order: its exits run in order and stop at the first that does not complete. It changes only the current frame, and the globals only when the current frame is the global one |
| Interpreting.BlockRestores | src/Parsing/Interpreter.cs:68-72 | simple statements run in a block's new frame leave the frames around it, the globals and the resolution table as they were |
| Interpreting.RunSoFarStop | src/Parsing/Interpreter.cs:56-59 | a statement that does not complete ends the reference run: its exit is the last one and its output the last printed |
| Interpreting.Interpreter.VisitAssign | src/Parsing/Interpreter.cs:261-275 | a failing value is the result. Otherwise the value is stored as `AssignVariable` does (corrected, see Findings), and a successful assignment returns it. For an effect-free value expression the value is `Eval`'s on the store before |
| Interpreting.Interpreter.AssignVariable | src/Parsing/Interpreter.cs:265-272 | an unresolved name is assigned in the globals, and is "Undefined variable" exactly when unbound there. A resolved one is stored in the frame at its distance, overwriting it (corrected, see Findings) |
| Interpreting.Interpreter.VisitCall | src/Parsing/Interpreter.cs:124-145 | the callee, then the arguments, are evaluated, and the first failure fails the call. A non-callable callee or an arity mismatch fails with the source's message. A function returns its body's returned value or nil, and an initializer returns the closure's `this`. A class gives a fresh instance, and `clock` gives the clock. For an effect-free callee and arguments, their values are `Eval`'s on the store before the call |
| Interpreting.Interpreter.EvaluateOperands | src/Parsing/Interpreter.cs:126-132 | the callee first, then, only when it succeeded, the arguments. For effect-free operands every value, and the failure that stops them, is `Eval`'s on the store before |
| Interpreting.Interpreter.EvaluateArguments | src/Parsing/Interpreter.cs:128-132 | the arguments left to right, stopping at the first failure, which is reported exactly when fewer values than arguments came back. For effect-free arguments each value is `Eval`'s on the store before, and nothing changes |
| Interpreting.Interpreter.Invoke | src/Parsing/Interpreter.cs:134-144 | the arity check comes first. A function runs as `CallFunction` says (for a simple body, as `RunFrom` on `CallStore`), a class makes a fresh instance with no fields, and `clock` reads the clock |
| Interpreting.CheckCall | src/Parsing/Interpreter.cs:134-143 | no failure exactly when the callee is callable with that many arguments. Otherwise "Can only call functions and classes." or "Expected n arguments but got m." |
| Interpreting.ArityOf | src/Parsing/Interpreter.cs:134-140 | exactly functions, classes and `clock` are callable |
| Interpreting.FunctionArity | src/Functions/LoxFunction.cs:30 | a call to a function passes the arity check exactly when it has as many arguments as the function declares parameters |
| Interpreting.ClassArity | src/Functions/LoxClass.cs:21-24 | a call to a class passes the arity check exactly when it has no arguments |
| Interpreting.NatToStringRoundTrip | src/Parsing/Interpreter.cs:142 | the decimal text of a count reads back as that count |
| Interpreting.LitValue | src/Parsing/Interpreter.cs:152-155 | a literal's value is nil, a boolean, a number or a string |
| Interpreting.IsTruthy | src/Parsing/Interpreter.cs:288-293 | exactly nil and false are falsy |
| Interpreting.IsEqual | src/Parsing/Interpreter.cs:295-300 | equality of values: nil equals only nil |
| Interpreting.CheckNumberOperand | src/Parsing/Interpreter.cs:316-320 | passes exactly a number, and otherwise fails with "Operand must be a number." |
| Interpreting.CheckNumberOperands | src/Parsing/Interpreter.cs:322-326 | passes exactly two numbers, and otherwise fails with "Operands must be numbers." |
| Interpreting.Interpreter.CallFunction | src/Functions/LoxFunction.cs:32-53 | runs the body in a fresh frame inside the closure. A failure is the result. Otherwise the result is the returned value or nil, and an initializer returns the closure's `this`. For a simple body the exit and the output are those of `RunFrom` on `CallStore`, which is the store with a new frame binding each parameter to its argument, inside the closure |
| Interpreting.Interpreter.CallFrame | src/Functions/LoxFunction.cs:34-38 | a fresh frame inside the closure binding exactly `ParamBindings`, whose store is `CallStore` of the function and the arguments |
| Interpreting.Interpreter.DefineParameters | src/Functions/LoxFunction.cs:34-38 | the call frame binds exactly `ParamBindings` of the parameters and arguments |
| Interpreting.ParamBindings | src/Functions/LoxFunction.cs:35-38 | binds exactly the parameters' names, each to one of the arguments |
| Interpreting.ParamBindingsAt | src/Functions/LoxFunction.cs:35-38 | a parameter not repeated later is bound to its own argument |

## Left out

- The driver (`Lox.cs`): reading files, the prompt, and the error flags. It scans, parses and interprets, and never calls the resolver. `Lox.cs` is not part of this model, and neither is the AST generator under `Tools`.
- Console output: `print` appends the value to `Interpreter.output` instead of writing `Stringify(value)`. Stringify's number formatting is not modelled.
- Numbers: they are exact rationals (`real`), not IEEE doubles. There is no rounding, NaN or infinity, and `double.Parse` is an exact decimal value.
- The clock: `clock()` returns `clockReading`, a constructor parameter standing for the host's tick count.
- Termination: execution carries a `fuel` budget, and running out yields `OutOfFuel`. A program that loops forever in the source ends with that failure here.
- Property access, `this`, `super` and class declarations at run time: `Interpreter.cs` has no visitors for them, so the interpreter's methods require `ExprExecutable`/`StmtExecutable` trees. The resolver covers them all.
- `Stmt.Class` is not in `Stmt.cs`. Its shape (name, superclass variable, methods) is the one `Resolver.cs` uses.
- Expression identity: `Dictionary<Expr, int>` keys on object identity. The model gives every node a numeric id. That the parser's ids are unique is not proved.
- .NET exceptions nothing catches (duplicate keys, missing keys, null dereferences, a `Return` escaping to the top level) are all `HostFault`, with no further detail.
- `Interpreter.cs:209` calls a two-argument `LoxFunction` constructor that `LoxFunction.cs` does not declare. The model passes `false` as the initializer flag.
- Characters: the source text is a Dafny `string`, a sequence of Unicode scalar values, while a C# `string` is a sequence of UTF-16 code units. A character outside the Basic Multilingual Plane is one character here, but a surrogate pair in `Scanner.cs`. Outside a string literal the code reports "Unexpected character" twice for it, and the model once. Every later `start`/`current` offset is one smaller here per such character, and so is the offset that the code as written reports as the line of an unclosed block comment. Inside a string literal or a comment only the offsets differ.
- `double.Parse` uses the current culture: under a culture whose decimal separator is not `.` the code parses `1.5` differently or faults. The model uses the invariant reading, `.` as the separator.
- `char.IsDigit` accepts every Unicode decimal digit. The model accepts only `0`-`9`, which is also all `double.Parse` handles.
- Block comments do not count line breaks, in the source and in the corrected model alike.
- `Parse` returns null entries for failed declarations. They are kept as `None`, and `Present` drops them.
- Parser: the parser requires a token list that ends with EOF, as `ScanTokens` produces. `Primary`'s name and group branches are split into `NameOrGroup` and `Group`, and `VarDeclaration`'s initializer into `Initializer`, to keep proofs small.
- Interpreting.Interpreter.VisitAssign: the store is split into `AssignVariable`.
- Environments.Environment.GetAt: it requires the binding to be present. Callers check with `Binds` first, which models the throw as a `HostFault`.
- Interpreting.Interpreter.Execute: for a block, `if`, `while` or function declaration, and for a statement that is not simple, it states only what every statement keeps (frames, output, the `return` and `var` facts). The `Visit` methods it dispatches to state the rest.
- Interpreting.Interpreter.VisitWhile: it states only that the frame is kept and that the loop turns (`passes`) are bounded by the fuel. It does not relate the exit, the output or the number of turns to the condition and the body. The reference run `RunFrom` has no loops.
- Interpreting.Interpreter.VisitIf: the exit is related to the branch only when the condition is effect-free and the branch taken is a simple statement. Otherwise only the failing and the falsy-without-else cases are stated, and the ghost `condition` is tied to the expression only when it is effect-free.
- Interpreting.Interpreter.CallFunction: the bound `this` is read from the closure, not from the instance's fields.
- Interpreting.ParamBindings: it states the names bound and that each value is an argument. `ParamBindingsAt` gives the exact argument only for a parameter that is not repeated later.
- Parsing.Parser.Parse: it counts failures against reported errors, but does not state the shape of each statement.
- Resolving.Resolver.ResolveExpr: it equals the corrected reference `ResolvedExpr`, which records innermost distances where the code as written records the outermost (first Findings row).
- Resolving.Resolver.VisitAssign: it records the innermost distance of the target, where the code as written records the outermost (first Findings row).
- Resolving.Resolver.VisitVariable: it resolves through the corrected `ResolveLocal`, recording the innermost distance, where the code as written records the outermost holder's distance (first Findings row). The as-written search is `ResolveLocalAsWritten`, which no visitor calls.
- Resolving.Resolver.VisitSuper: it records the innermost distance of `super`, where the code as written records the outermost (first Findings row).
- Resolving.Resolver.VisitThis: it records the innermost distance of `this`, where the code as written records the outermost (first Findings row).
- Resolving.Resolver.ResolveSuperclass: it resolves the superclass at its innermost distance, where the code as written uses the outermost (first Findings row).
- Resolving.Resolver.VisitClass: through `ResolveSuperclass` and the method bodies it records innermost distances, where the code as written records the outermost (first Findings row).
- Interpreting.Interpreter.AssignVariable: it stores through the corrected `AssignAt`, which overwrites the binding. The code as written calls `values.Add`, which faults on a bound name and adds an unbound one (second Findings row). The as-written store is `AssignAtAsWritten`, which no visitor calls.
- Interpreting.Interpreter.VisitAssign: it stores through `AssignVariable`, so it overwrites where the code as written faults (second Findings row).
- Scanning.Scanner.ScanSlash: a block comment is skipped by the corrected `SkipBlockComment`, up to the first `*/`, with the open-comment error on the current line. The code as written stops at any `*` or before any `/` and reports a character offset as the line (third and fourth Findings rows). The as-written loop is `SkipBlockCommentAsWritten`, which no scanning step calls.
- Scanning.Scanner.ScanWord: a number is scanned by the corrected `HandleNumber`, one fractional part at most. The code as written takes every `.`-digit pair and faults in `double.Parse` on `1.2.3` (fifth Findings row). The as-written scan is `HandleNumberAsWritten`, which no scanning step calls.
- Scanning.Scanner.ScanSymbol: its `/` case is the corrected comment scanning of `ScanSlash`.
- Scanning.Scanner.ScanToken: its comment and number cases are the corrected ones of `ScanSlash` and `ScanWord`.
- Scanning.Scanner.ScanNext: it runs the corrected `ScanToken`.
- Scanning.Scanner.ScanAll: it runs the corrected `ScanToken` to the end of the source.
- Scanning.Scanner.ScanTokens: the tokens, errors and final line are those of the corrected reference scan `Tokenize`. The final line is tied to the source's line breaks only through `TokenizeLines`: exactly when no `/*` occurs, and as an upper bound otherwise. It is not stated as a closed count of the line breaks outside block comments.
- Scanning.Step: it is the corrected scan step. `SlashStep` skips a block comment to the first `*/`, and `NumberStep` takes the longest numeral with one fractional part (Findings rows three to five).
- Scanning.Tokenize: it chains the corrected `Step`, so on `/* a/b */` and `1.2.3` it disagrees with the code as written, as the Findings rows show.
- Interpreting.Interpreter.Evaluate: for an expression with effects (an assignment or a call anywhere inside), or one deeper than the fuel, its result is not stated as a function of the expression. The visitors state their own parts, and `Eval` covers only effect-free expressions.
- Interpreting.Interpreter.VisitReturn: for an expression with effects, the returned value is the ghost outcome `value`, tied to the exit but not to the expression.
- Interpreting.Interpreter.VisitCall: the outcome of a called body (the ghost `exit`) is related to the reference run by `Invoke` and `CallFunction`, on the store at the call. VisitCall does not restate it on the store before the call expression: that would name the callee's function object in a state where it need not exist yet. With a callee or arguments that have effects, the ghost `callee`, `args` and `argument` are tied to the result but not to the expressions.
- Interpreting.Interpreter.VisitLogical: "the right operand is not evaluated" is stated as nothing observable happening after the left operand: the result is the left value and no output is added.
- Interpreting.Interpreter.Interpret: for statements that are not all simple within the fuel, the ghost `exits` are tied only by `RanInOrder` and by the last exit deciding the result, not to a reference run.
- Interpreting.Interpreter.ExecuteBlock: for statements that are not all simple within the fuel, the ghost `exits` are tied only by `RanInOrder` and the final exit.
- Interpreting.Interpreter.ExecuteStatements: as `ExecuteBlock`, `exits` are tied to `RunFrom` only for simple statements within the fuel.
- Interpreting.Interpreter.VisitBlock: for a block that is not all simple statements within the fuel, it states only the new frame, not the exit or the output.
- Interpreting.Interpreter.CallFunction: for a body that is not all simple statements within the fuel, the ghost `exit` is tied to the result but not to the body.
- Interpreting.Interpreter.VisitPrint: for an expression with effects, the printed value is the ghost `value`, tied to the output and the exit but not to the expression.
- Interpreting.Interpreter.VisitVar: for an initializer with effects, the bound value is the ghost `value`, tied to the binding and the exit but not to the expression.
- Interpreting.Interpreter.VisitBinary: for operands with effects, the ghost `left` and `right` are tied to the result but not to the operands.
- Interpreting.Interpreter.VisitUnary: for an operand with effects, the ghost `operand` is tied to the result but not to the expression.
- Interpreting.Interpreter.VisitLogical: for operands with effects, the ghost `left`, `afterLeft` and `right` are tied to the result and the output but not to the operands.
- Interpreting.Interpreter.VisitAssign: for a value expression with effects, the ghost `value` is tied to the result and the store but not to the expression.
- Interpreting.Eval: the reference evaluator covers effect-free expressions only: literals, groupings, variable reads and the operators. `Step` and `RunFrom` likewise cover only expression statements, `print`, `var` and `return` over such expressions.
- Runtime.LoxFunction.Arity and Runtime.LoxClass.Arity carry no contract of their own. What they mean is stated by `FunctionArity` and `ClassArity`.

## Findings

| source | as written | input that shows it | evidently intended | confidence | as-written member | corrected member |
|---|---|---|---|---|---|---|
| src/Parsing/Resolver.cs:70-77 | the loop starts at `Count - 1` and `Stack.ElementAt` counts from the top, so it finds the OUTERMOST scope holding the name | `{ var a = 1; { var a = 2; print a; } }`: `a` is resolved to distance 1, the outer `a` | the nearest scope, counting from the innermost | not executed | Resolving.Resolver.ResolveLocalAsWritten, Resolving.ShadowedNameResolvesOutward | Resolving.Resolver.ResolveLocal, Resolving.InnermostDistance |
| src/Environment.cs:62 | `AssignAt` uses `values.Add`, which throws when the frame already binds the name, and a resolved assignment always targets a frame that does | `{ var a = 1; { a = 2; } }`: the assignment throws | overwrite the binding | not executed | Environments.Environment.AssignAtAsWritten, Environments.AssignAtRebindFails | Environments.Environment.AssignAt, Environments.AssignAtRebindOverwrites |
| src/Lexing/Scanner.cs:119 | the block-comment loop runs while the next char is not `*` AND the one after is not `/`, so it stops at any `*` or before any `/` | `/* a/b */` resumes scanning at `b */`, so `b`, `*` and `/` become tokens | stop only at `*/` | not executed | Scanning.Scanner.SkipBlockCommentAsWritten, Scanning.BlockCommentAsWrittenStopsEarly | Scanning.Scanner.SkipBlockComment, Scanning.BlockCommentSkipsToClose |
| src/Lexing/Scanner.cs:123 | an unclosed block comment is reported with `start`, a character offset, as its line number | `"\n\n/*"` reports line 2 for a comment on line 3 | report the current line | not executed | Scanning.OpenCommentLineAsWritten | Scanning.OpenCommentLine |
| src/Lexing/Scanner.cs:194 | the number loop accepts a `.` followed by a digit any number of times | `1.2.3` becomes one lexeme, and `double.Parse` throws | one fractional part: `1.2`, then `.`, then `3` | not executed | Scanning.Scanner.HandleNumberAsWritten, Scanning.SecondDotAsWritten | Scanning.Scanner.HandleNumber, Scanning.SecondDot |
