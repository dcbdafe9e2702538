/** Tokens produced by the scanner and consumed by the parser (Lexing/Token.cs). */
module Tokens {

  datatype TokenType =
    // single-character tokens
    | LeftParen | RightParen | LeftBrace | RightBrace
    | Comma | Dot | Minus | Plus | Semicolon | Slash | Asterisk
    | Ternary | Colon
    // one- or two-character tokens
    | Bang | BangEqual | Equal | EqualEqual
    | Greater | GreaterEqual | Less | LessEqual
    // literals
    | Identifier | String | Number
    // keywords
    | And | Class | Else | False | Fun | For | If | Nil | Or
    | Print | Return | Super | This | True | Var | While
    | Eof

  /** The C# `object` a literal carries: null, a bool, a number or a string.
      Numbers are exact rationals here, not IEEE doubles. */
  datatype Lit = NilLit | BoolLit(b: bool) | NumLit(n: real) | StrLit(s: string)

  datatype Token = Token(kind: TokenType, lexeme: string, literal: Lit, line: int)

  /** The keyword table of the scanner. */
  const Keywords: map<string, TokenType> := map[
    "and" := And, "class" := Class, "else" := Else, "false" := False,
    "for" := For, "fun" := Fun, "if" := If, "nil" := Nil,
    "or" := Or, "print" := Print, "return" := Return, "super" := Super,
    "this" := This, "true" := True, "var" := Var, "while" := While
  ]

  predicate IsKeywordType(t: TokenType) {
    t in {And, Class, Else, False, Fun, For, If, Nil, Or, Print, Return, Super, This, True, Var, While}
  }

  /** The one lexeme a fixed (punctuation or operator) token type always has. */
  function FixedLexeme(t: TokenType): Option<string> {
    match t
    case LeftParen => Some("(")
    case RightParen => Some(")")
    case LeftBrace => Some("{")
    case RightBrace => Some("}")
    case Comma => Some(",")
    case Dot => Some(".")
    case Minus => Some("-")
    case Plus => Some("+")
    case Semicolon => Some(";")
    case Slash => Some("/")
    case Asterisk => Some("*")
    case Ternary => Some("?")
    case Colon => Some(":")
    case Bang => Some("!")
    case BangEqual => Some("!=")
    case Equal => Some("=")
    case EqualEqual => Some("==")
    case Greater => Some(">")
    case GreaterEqual => Some(">=")
    case Less => Some("<")
    case LessEqual => Some("<=")
    case _ => None
  }

  datatype Option<+T> = None | Some(value: T)

  /** The decimal digits and the characters that may start an identifier. */
  const Digits: string := "0123456789"
  const Lower: string := "abcdefghijklmnopqrstuvwxyz"
  const Upper: string := "ABCDEFGHIJKLMNOPQRSTUVWXYZ"

  predicate IsDigit(c: char) { '0' <= c <= '9' }

  predicate IsAlpha(c: char) { ('a' <= c <= 'z') || ('A' <= c <= 'Z') || c == '_' }

  predicate IsAlphaNumeric(c: char) { IsAlpha(c) || IsDigit(c) }

  /** The character classes listed out: a digit is one of `0` to `9`, an identifier starts
      with an ASCII letter or `_`, and continues with those or a digit. */
  lemma CharacterClasses(c: char)
    ensures IsDigit(c) <==> c in Digits
    ensures IsAlpha(c) <==> c in Lower || c in Upper || c == '_'
    ensures IsAlphaNumeric(c) <==> c in Lower || c in Upper || c == '_' || c in Digits
  {
    LowerRange(c);
    UpperRange(c);
  }

  lemma LowerRange(c: char)
    ensures 'a' <= c <= 'z' <==> c in Lower
  {
  }

  lemma UpperRange(c: char)
    ensures 'A' <= c <= 'Z' <==> c in Upper
  {
  }

  /** Text the scanner accepts as an identifier or keyword. */
  predicate IsIdentifierText(s: string) {
    |s| > 0 && IsAlpha(s[0]) && forall i :: 1 <= i < |s| ==> IsAlphaNumeric(s[i])
  }

  predicate AllDigits(s: string) {
    forall i :: 0 <= i < |s| ==> IsDigit(s[i])
  }

  /** Index of the first '.' in `s`, or |s| when there is none. */
  function DotIndex(s: string): (k: nat)
    ensures k <= |s|
    ensures k < |s| ==> s[k] == '.'
    ensures forall i :: 0 <= i < k ==> s[i] != '.'
  {
    if s == [] || s[0] == '.' then 0 else 1 + DotIndex(s[1..])
  }

  /** Text the scanner accepts as a number: digits, optionally a '.' followed by digits. */
  predicate IsNumberText(s: string) {
    var k := DotIndex(s);
    0 < k && AllDigits(s[..k]) && (k == |s| || (k < |s| - 1 && AllDigits(s[k + 1..])))
  }

  function DigitValue(c: char): nat
    requires IsDigit(c)
  {
    (c as int - '0' as int) as nat
  }

  /** The natural number written by a string of decimal digits. */
  function DigitsValue(s: string): nat
    requires AllDigits(s)
  {
    if s == [] then 0 else 10 * DigitsValue(s[..|s| - 1]) + DigitValue(s[|s| - 1])
  }

  /** A run of n digits stands for less than 10 to the n. */
  lemma {:induction false} DigitsValueBelow(s: string)
    requires AllDigits(s)
    ensures DigitsValue(s) < Pow10(|s|)
  {
    if s != [] {
      DigitsValueBelow(s[..|s| - 1]);
    }
  }

  function Pow10(n: nat): (r: nat)
    ensures r >= 1
  {
    if n == 0 then 1 else 10 * Pow10(n - 1)
  }

  /** The exact value of a decimal numeral; stands for `double.Parse`,
      without the rounding to the nearest double. */
  function NumberValue(s: string): (r: real)
    requires IsNumberText(s)
    ensures DigitsValue(s[..DotIndex(s)]) as real <= r < DigitsValue(s[..DotIndex(s)]) as real + 1.0
  {
    var k := DotIndex(s);
    if k == |s| then
      assert s[..k] == s;
      DigitsValue(s) as real
    else
      var whole, fraction, scale := DigitsValue(s[..k]), DigitsValue(s[k + 1..]), Pow10(|s| - k - 1);
      DigitsValueBelow(s[k + 1..]);
      FractionBelowOne(fraction, scale);
      whole as real + fraction as real / scale as real
  }

  /** A fraction with a smaller numerator than its denominator lies in [0, 1). */
  lemma FractionBelowOne(n: nat, d: nat)
    requires n < d
    ensures 0.0 <= n as real / d as real < 1.0
  {
    assert n as real / d as real * d as real == n as real;
  }

}
