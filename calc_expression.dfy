/**
 * The calculator's expression front end: `_clean_expression` (drop every
 * whitespace character, then rewrite `×`, `÷` and `^`) and
 * `_validate_expression` (balanced parenthesis counts, a fixed character set,
 * no run of two operator characters).
 */
module ExpressionFormat {
  import opened Text

  /** Characters matched by Python's `\s` in a `str` pattern (`str.isspace`). */
  predicate IsSpace(c: char) {
    c == ' ' || '\t' <= c <= '\r' || '\U{1c}' <= c <= '\U{1f}' ||
    c == '\U{85}' || c == '\U{a0}' || c == '\U{1680}' ||
    '\U{2000}' <= c <= '\U{200a}' || c == '\U{2028}' || c == '\U{2029}' ||
    c == '\U{202f}' || c == '\U{205f}' || c == '\U{3000}'
  }

  const Times: char := '\U{d7}'   // ×
  const Divide: char := '\U{f7}'  // ÷

  /** `re.sub(r'\s+', '', s)`: every whitespace character removed. */
  function RemoveWhitespace(s: string): (r: string)
    ensures |r| <= |s|
  {
    if s == [] then ""
    else (if IsSpace(s[0]) then "" else [s[0]]) + RemoveWhitespace(s[1..])
  }

  /** Removing whitespace keeps exactly the non-whitespace characters. */
  lemma {:induction false} RemoveWhitespaceAlphabet(s: string)
    ensures forall c :: c in RemoveWhitespace(s) <==> c in s && !IsSpace(c)
  {
    if s != [] {
      RemoveWhitespaceAlphabet(s[1..]);
      assert s == [s[0]] + s[1..];
    }
  }

  /** Removing whitespace works one character at a time. */
  lemma RemoveWhitespaceCons(c: char, s: string)
    ensures RemoveWhitespace([c] + s) == (if IsSpace(c) then "" else [c]) + RemoveWhitespace(s)
  {
    assert ([c] + s)[1..] == s;
  }

  /** `_clean_expression`: the chain of rewrites in the order the source applies them. */
  function Clean(s: string): string {
    Replace(Replace(Replace(RemoveWhitespace(s), Times, "*"), Divide, "/"), '^', "**")
  }

  /** What cleaning makes of one character. */
  function CleanChar(c: char): (r: string)
    ensures |r| <= 2
  {
    if IsSpace(c) then ""
    else if c == Times then "*"
    else if c == Divide then "/"
    else if c == '^' then "**"
    else [c]
  }

  /** Reference definition of cleaning: each character rewritten on its own. */
  function CleanEach(s: string): string {
    if s == [] then "" else CleanChar(s[0]) + CleanEach(s[1..])
  }

  lemma {:induction false} CleanEachAppend(s: string, t: string)
    ensures CleanEach(s + t) == CleanEach(s) + CleanEach(t)
  {
    if s == [] {
      assert s + t == t;
    } else {
      assert (s + t)[1..] == s[1..] + t;
      CleanEachAppend(s[1..], t);
    }
  }

  /**
   * The chain of `replace` calls agrees with rewriting character by character:
   * no rewrite produces a character that a later rewrite changes.
   */
  lemma {:induction false} CleanIsCharwise(s: string)
    ensures Clean(s) == CleanEach(s)
  {
    if s != [] {
      CleanIsCharwise(s[1..]);
      var head := if IsSpace(s[0]) then "" else [s[0]];
      var w := RemoveWhitespace(s[1..]);
      assert RemoveWhitespace(s) == head + w;
      ReplaceAppend(head, w, Times, "*");
      ReplaceAppend(Replace(head, Times, "*"), Replace(w, Times, "*"), Divide, "/");
      ReplaceAppend(Replace(Replace(head, Times, "*"), Divide, "/"),
                    Replace(Replace(w, Times, "*"), Divide, "/"), '^', "**");
      assert Replace(Replace(Replace(head, Times, "*"), Divide, "/"), '^', "**") == CleanChar(s[0]);
    }
  }

  /** Cleaning leaves no whitespace and none of `×`, `÷`, `^`. */
  lemma CleanOutputAlphabet(s: string)
    ensures forall c :: c in Clean(s) ==> !IsSpace(c) && c != Times && c != Divide && c != '^'
    ensures forall c :: c in Clean(s) ==> c in s || c == '*' || c == '/'
  {
    RemoveWhitespaceAlphabet(s);
  }

  /**
   * Each `×` and each `^` adds to the `*` count (one and two stars), each `÷`
   * to the `/` count; the other characters are kept or dropped.
   */
  lemma {:induction false} CleanCounts(s: string)
    ensures Count(Clean(s), '*') == Count(s, '*') + Count(s, Times) + 2 * Count(s, '^')
    ensures Count(Clean(s), '/') == Count(s, '/') + Count(s, Divide)
    ensures Count(Clean(s), '(') == Count(s, '(') && Count(Clean(s), ')') == Count(s, ')')
  {
    CleanIsCharwise(s);
    CleanEachCounts(s);
  }

  lemma {:induction false} CountAppend(s: string, t: string, c: char)
    ensures Count(s + t, c) == Count(s, c) + Count(t, c)
  {
    if s == [] {
      assert s + t == t;
    } else {
      assert (s + t)[1..] == s[1..] + t;
      CountAppend(s[1..], t, c);
    }
  }

  /** Count of `c` in what one character cleans to. */
  lemma CountCleanChar(x: char, c: char)
    requires c == '*' || c == '/' || c == '(' || c == ')'
    ensures Count(CleanChar(x), c) ==
      if x == c then 1
      else if c == '*' && x == Times then 1
      else if c == '*' && x == '^' then 2
      else if c == '/' && x == Divide then 1
      else 0
  {
    if IsSpace(x) {
    } else if x == Times || x == Divide {
      assert CleanChar(x)[1..] == "";
    } else if x == '^' {
      assert CleanChar(x)[1..] == "*" && CleanChar(x)[1..][1..] == "";
    } else {
      assert CleanChar(x)[1..] == "";
    }
  }

  lemma {:induction false} CleanEachCounts(s: string)
    ensures Count(CleanEach(s), '*') == Count(s, '*') + Count(s, Times) + 2 * Count(s, '^')
    ensures Count(CleanEach(s), '/') == Count(s, '/') + Count(s, Divide)
    ensures Count(CleanEach(s), '(') == Count(s, '(') && Count(CleanEach(s), ')') == Count(s, ')')
  {
    if s != [] {
      var head, rest := CleanChar(s[0]), CleanEach(s[1..]);
      assert CleanEach(s) == head + rest;
      CleanEachCounts(s[1..]);
      CountAppend(head, rest, '*');
      CountAppend(head, rest, '/');
      CountAppend(head, rest, '(');
      CountAppend(head, rest, ')');
      CountCleanChar(s[0], '*');
      CountCleanChar(s[0], '/');
      CountCleanChar(s[0], '(');
      CountCleanChar(s[0], ')');
    }
  }

  /** The character set `_validate_expression` accepts. */
  const ValidChars: string := "0123456789+-*/.()^%"

  // The character class of the consecutive-operator pattern: + - * / ^ %
  predicate IsOperatorChar(c: char) {
    c in "+-*/^%"
  }

  // Every character of `t` is in that class.
  predicate AllOperators(t: string) {
    forall k :: 0 <= k < |t| ==> IsOperatorChar(t[k])
  }

  // The pattern `[+\-*/^%]{2,}` matches somewhere in `s`: a slice of two or
  // more characters, all of them in the class.
  predicate HasOperatorRun(s: string) {
    exists i, j :: 0 <= i && i + 2 <= j <= |s| && AllOperators(s[i..j])
  }

  // Two operator characters stand next to each other.
  predicate HasAdjacentOperators(s: string) {
    exists i :: 0 <= i < |s| - 1 && IsOperatorChar(s[i]) && IsOperatorChar(s[i + 1])
  }

  /** The `{2,}` pattern matches exactly when two operator characters are adjacent. */
  lemma OperatorRunIffAdjacent(s: string)
    ensures HasOperatorRun(s) <==> HasAdjacentOperators(s)
  {
    if HasOperatorRun(s) {
      var i, j :| 0 <= i && i + 2 <= j <= |s| && AllOperators(s[i..j]);
      assert s[i] == s[i..j][0] && s[i + 1] == s[i..j][1];
    }
    if HasAdjacentOperators(s) {
      var i :| 0 <= i < |s| - 1 && IsOperatorChar(s[i]) && IsOperatorChar(s[i + 1]);
      assert AllOperators(s[i..i + 2]);
    }
  }

  /** `_validate_expression`, its three checks in the source's order. */
  function Validate(s: string): bool {
    if Count(s, '(') != Count(s, ')') then false
    else if !(forall c :: c in s ==> c in ValidChars) then false
    else if HasOperatorRun(s) then false
    else true
  }

  /** With none of `×`, `÷`, `^` left after removing whitespace, cleaning only removes whitespace. */
  lemma CleanWithoutSymbols(s: string, t: string)
    requires RemoveWhitespace(s) == t
    requires forall c :: c in t ==> '0' <= c <= '9' || c in "+-*/"
    ensures Clean(s) == t
  {
    assert Times !in t && Divide !in t && '^' !in t;
  }

  /**
   * Validation fails exactly when the parenthesis counts differ, a character
   * is outside the accepted set, or two operator characters are adjacent.
   */
  lemma ValidateFailsIff(s: string)
    ensures !Validate(s) <==>
      Count(s, '(') != Count(s, ')') ||
      (exists c :: c in s && c !in ValidChars) ||
      HasAdjacentOperators(s)
  {
    OperatorRunIffAdjacent(s);
  }

  /** `**` and `//` are runs of two operator characters, so they never validate. */
  lemma DoubleOperatorRejected(s: string, i: nat)
    requires OccursAt(s, "**", i) || OccursAt(s, "//", i)
    ensures !Validate(s)
  {
    assert AllOperators(s[i..i + 2]);
  }

  /** A `^` in the input becomes `**` on cleaning, so the cleaned text never validates. */
  lemma {:induction false} CaretInputRejected(s: string)
    requires '^' in s
    ensures !Validate(Clean(s))
  {
    var i :| 0 <= i < |s| && s[i] == '^';
    var t := Clean(s);
    CleanIsCharwise(s);
    CleanEachAround(s, i);
    var pre, post := CleanEach(s[..i]), CleanEach(s[i + 1..]);
    assert t == pre + ("**" + post);
    OccursBetween(pre, "**", post);
    DoubleOperatorRejected(t, |pre|);
  }

  /** A text occurs where it is spliced in. */
  lemma OccursBetween(pre: string, mid: string, post: string)
    ensures OccursAt(pre + (mid + post), mid, |pre|)
  {
    assert (pre + (mid + post))[|pre|..|pre| + |mid|] == mid;
  }

  // The rewrite of `s` splits around position `i`.
  lemma CleanEachAround(s: string, i: nat)
    requires i < |s|
    ensures CleanEach(s) == CleanEach(s[..i]) + (CleanChar(s[i]) + CleanEach(s[i + 1..]))
  {
    var rest := s[i..];
    assert s == s[..i] + rest;
    CleanEachAppend(s[..i], rest);
    assert rest[0] == s[i] && rest[1..] == s[i + 1..];
  }

  /** What a cleaned expression that passes validation is made of. */
  lemma CleanedAndValidated(s: string)
    requires Validate(Clean(s))
    ensures forall c :: c in Clean(s) ==> c in "0123456789+-*/.()%"
    ensures !HasAdjacentOperators(Clean(s))
    ensures Count(Clean(s), '(') == Count(Clean(s), ')')
  {
    var t := Clean(s);
    CleanOutputAlphabet(s);
    OperatorRunIffAdjacent(t);
  }
}

/** The cleaning and validation of concrete inputs, among them the usage script's. */
module ExpressionExamples {
  import opened ExpressionFormat

  /** Only the counts are compared: `)(` passes although it is not nested. */
  lemma UnnestedParenthesesAccepted()
    ensures Validate(")(")
  {
  }

  /** The tail ` 3 * 4` without its spaces. */
  lemma StripPlainArithmeticTail()
    ensures RemoveWhitespace(" 3 * 4") == "3*4"
  {
    RemoveWhitespaceCons('4', "");
    RemoveWhitespaceCons(' ', "4");
    RemoveWhitespaceCons('*', " 4");
    RemoveWhitespaceCons(' ', "* 4");
    RemoveWhitespaceCons('3', " * 4");
    RemoveWhitespaceCons(' ', "3 * 4");
  }

  /** `2 + 3 * 4` without its spaces. */
  lemma StripPlainArithmetic()
    ensures RemoveWhitespace("2 + 3 * 4") == "2+3*4"
  {
    StripPlainArithmeticTail();
    RemoveWhitespaceCons('+', " 3 * 4");
    RemoveWhitespaceCons(' ', "+ 3 * 4");
    RemoveWhitespaceCons('2', " + 3 * 4");
    assert "2 + 3 * 4" == ['2'] + " + 3 * 4";
  }

  /** The usage script's `2 + 3 * 4` is cleaned to `2+3*4`, ... */
  lemma CleanPlainArithmetic()
    ensures Clean("2 + 3 * 4") == "2+3*4"
  {
    StripPlainArithmetic();
    CleanWithoutSymbols("2 + 3 * 4", "2+3*4");
  }

  /** ... which passes validation. */
  lemma PlainArithmeticAccepted()
    ensures Validate("2+3*4")
  {
    assert !HasAdjacentOperators("2+3*4");
    OperatorRunIffAdjacent("2+3*4");
  }

  /** `2 ** 8` without its spaces. */
  lemma StripScriptPower()
    ensures RemoveWhitespace("2 ** 8") == "2**8"
  {
    RemoveWhitespaceCons('8', "");
    RemoveWhitespaceCons(' ', "8");
    RemoveWhitespaceCons('*', " 8");
    RemoveWhitespaceCons('*', "* 8");
    RemoveWhitespaceCons(' ', "** 8");
    RemoveWhitespaceCons('2', " ** 8");
    assert "2 ** 8" == ['2'] + " ** 8";
  }

  /** The usage script's `2 ** 8` is cleaned to `2**8`, ... */
  lemma CleanScriptPower()
    ensures Clean("2 ** 8") == "2**8"
  {
    StripScriptPower();
    CleanWithoutSymbols("2 ** 8", "2**8");
  }

  /** ... which fails validation, as `2 ^ 8` does. */
  lemma ScriptPowerRejected()
    ensures !Validate("2**8")
  {
    DoubleOperatorRejected("2**8", 1);
  }

  /** `20 // 3` without its spaces. */
  lemma StripScriptFloorDivision()
    ensures RemoveWhitespace("20 // 3") == "20//3"
  {
    RemoveWhitespaceCons('3', "");
    RemoveWhitespaceCons(' ', "3");
    RemoveWhitespaceCons('/', " 3");
    RemoveWhitespaceCons('/', "/ 3");
    RemoveWhitespaceCons(' ', "// 3");
    RemoveWhitespaceCons('0', " // 3");
    RemoveWhitespaceCons('2', "0 // 3");
    assert "20 // 3" == ['2'] + "0 // 3";
  }

  /** The usage script's `20 // 3` is cleaned to `20//3`, ... */
  lemma CleanScriptFloorDivision()
    ensures Clean("20 // 3") == "20//3"
  {
    StripScriptFloorDivision();
    CleanWithoutSymbols("20 // 3", "20//3");
  }

  /** ... which fails validation. */
  lemma ScriptFloorDivisionRejected()
    ensures !Validate("20//3")
  {
    DoubleOperatorRejected("20//3", 2);
  }

  /** `2 + + 3` without its spaces. */
  lemma StripRepeatedPlus()
    ensures RemoveWhitespace("2 + + 3") == "2++3"
  {
    RemoveWhitespaceCons('3', "");
    RemoveWhitespaceCons(' ', "3");
    RemoveWhitespaceCons('+', " 3");
    RemoveWhitespaceCons(' ', "+ 3");
    RemoveWhitespaceCons('+', " + 3");
    RemoveWhitespaceCons(' ', "+ + 3");
    RemoveWhitespaceCons('2', " + + 3");
    assert "2 + + 3" == ['2'] + " + + 3";
  }

  /** The usage script's `2 + + 3` is cleaned to `2++3`, ... */
  lemma CleanRepeatedPlus()
    ensures Clean("2 + + 3") == "2++3"
  {
    StripRepeatedPlus();
    CleanWithoutSymbols("2 + + 3", "2++3");
  }

  /** ... which fails as a run of two operator characters. */
  lemma RepeatedPlusRejected()
    ensures !Validate("2++3")
  {
    assert AllOperators("2++3"[1..3]);
  }
}
