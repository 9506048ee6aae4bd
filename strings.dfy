/** String primitives the checkout components lean on: the regex classes `\d`
 *  and `\w`, ASCII upper-casing, JavaScript's `trim`, `split(' ')` and
 *  `join(' ')`, and the decimal rendering of a number inside a template literal.
 */
module Strings {

  /** `\d` in a JavaScript regular expression without the `u` flag. */
  predicate IsDigit(c: char) { '0' <= c <= '9' }

  predicate IsLowerAscii(c: char) { 'a' <= c <= 'z' }

  /** `\w`: the characters on the word side of a `\b` boundary. */
  predicate IsWordChar(c: char) { 'a' <= c <= 'z' || 'A' <= c <= 'Z' || IsDigit(c) || c == '_' }

  predicate AllDigits(s: string) { forall i :: 0 <= i < |s| ==> IsDigit(s[i]) }

  /** `toUpperCase` restricted to the ASCII letters a-z; every other character is kept. */
  function ToUpperAscii(c: char): char
  {
    if IsLowerAscii(c) then (c as int - 32) as char else c
  }

  /** `replace(/\D/g, '')`: the digits of `s`, in order. */
  function Digits(s: string): (d: string)
    ensures AllDigits(d)
    ensures |d| <= |s|
  {
    if s == [] then [] else (if IsDigit(s[0]) then [s[0]] else []) + Digits(s[1..])
  }

  /** The first occurrence of c in s, or |s| when there is none (`indexOf`, read off the front). */
  function IndexOfChar(s: string, c: char): (k: nat)
    ensures k <= |s|
    ensures forall i :: 0 <= i < k ==> s[i] != c
    ensures k < |s| ==> s[k] == c
  {
    if s == [] then 0 else if s[0] == c then 0 else 1 + IndexOfChar(s[1..], c)
  }

  lemma {:induction false} DigitsAppend(a: string, b: string)
    ensures Digits(a + b) == Digits(a) + Digits(b)
  {
    if a == [] {
      assert a + b == b;
    } else {
      var ab := a + b;
      var head := if IsDigit(a[0]) then [a[0]] else [];
      assert ab[0] == a[0] && ab[1..] == a[1..] + b;
      DigitsAppend(a[1..], b);
      assert Digits(ab) == head + (Digits(a[1..]) + Digits(b));
      assert Digits(a) == head + Digits(a[1..]);
    }
  }

  /** Filtering digits out of a digit string changes nothing. */
  lemma {:induction false} DigitsOfDigitString(s: string)
    requires AllDigits(s)
    ensures Digits(s) == s
  {
    if s != [] {
      DigitsOfDigitString(s[1..]);
    }
  }

  /** The characters `String.prototype.trim` removes (white space and line terminators). */
  predicate IsJsWhitespace(c: char)
  {
    c == '\t' || c == '\n' || c == '\U{000B}' || c == '\U{000C}' || c == '\r' || c == ' '
    || c == '\U{00A0}' || c == '\U{1680}' || ('\U{2000}' <= c <= '\U{200A}')
    || c == '\U{2028}' || c == '\U{2029}' || c == '\U{202F}' || c == '\U{205F}'
    || c == '\U{3000}' || c == '\U{FEFF}'
  }

  function TrimStart(s: string): string
  {
    if s != [] && IsJsWhitespace(s[0]) then TrimStart(s[1..]) else s
  }

  function TrimEnd(s: string): string
  {
    if s != [] && IsJsWhitespace(s[|s| - 1]) then TrimEnd(s[..|s| - 1]) else s
  }

  /** `trim()`. */
  function Trim(s: string): string
  {
    TrimEnd(TrimStart(s))
  }

  /** `trimStart()` drops the leading white space, and only that. */
  lemma {:induction false} TrimStartSpec(s: string)
    ensures var r := TrimStart(s);
      |r| <= |s| && r == s[|s| - |r|..]
      && (forall i :: 0 <= i < |s| - |r| ==> IsJsWhitespace(s[i]))
      && (r == [] || !IsJsWhitespace(r[0]))
  {
    if s != [] && IsJsWhitespace(s[0]) {
      TrimStartSpec(s[1..]);
      var r := TrimStart(s[1..]);
      assert forall i :: 1 <= i < |s| - |r| ==> s[i] == s[1..][i - 1];
    }
  }

  /** `trimEnd()` drops the trailing white space, and only that. */
  lemma {:induction false} TrimEndSpec(s: string)
    ensures var r := TrimEnd(s);
      |r| <= |s| && r == s[..|r|]
      && (forall i :: |r| <= i < |s| ==> IsJsWhitespace(s[i]))
      && (r == [] || !IsJsWhitespace(r[|r| - 1]))
  {
    if s != [] && IsJsWhitespace(s[|s| - 1]) {
      TrimEndSpec(s[..|s| - 1]);
      var r := TrimEnd(s[..|s| - 1]);
      assert forall i :: |r| <= i < |s| - 1 ==> s[i] == s[..|s| - 1][i];
    }
  }

  /** `trim()` gives a slice of `s`, with white space at neither end, dropping only white space. */
  lemma TrimSpec(s: string)
    ensures var r := Trim(s); var k := |s| - |TrimStart(s)|;
      0 <= k && k + |r| <= |s| && r == s[k..k + |r|]
      && (forall i :: 0 <= i < k ==> IsJsWhitespace(s[i]))
      && (forall i :: k + |r| <= i < |s| ==> IsJsWhitespace(s[i]))
    ensures Untrimmable(Trim(s))
  {
    var t := TrimStart(s);
    var r := TrimEnd(t);
    TrimStartSpec(s);
    TrimEndSpec(t);
    var k := |s| - |t|;
    assert t == s[k..];
    assert r == t[..|r|];
    assert s[k..][..|r|] == s[k..k + |r|];
    forall i | k + |r| <= i < |s|
      ensures IsJsWhitespace(s[i])
    {
      assert s[i] == t[i - k];
    }
    assert r != [] ==> r[0] == t[0];
  }

  /** Neither end of `s` is white space (vacuously so for the empty string). */
  predicate Untrimmable(s: string)
  {
    s == [] || (!IsJsWhitespace(s[0]) && !IsJsWhitespace(s[|s| - 1]))
  }

  lemma TrimUntrimmable(s: string)
    requires Untrimmable(s)
    ensures Trim(s) == s
  {
  }

  /** Trimming `s + " "` removes exactly the appended space when `s` has clean ends. */
  lemma TrimTrailingSpace(s: string)
    requires s != [] && Untrimmable(s)
    ensures Trim(s + " ") == s
  {
    assert TrimStart(s + " ") == s + " ";
    assert (s + " ")[..|s + " "| - 1] == s;
    assert TrimEnd(s + " ") == TrimEnd(s);
  }

  /** `split(' ')`: the maximal space-free pieces of `s`; never an empty list. */
  function Split(s: string): (ws: seq<string>)
    ensures |ws| >= 1
    ensures forall i :: 0 <= i < |ws| ==> ' ' !in ws[i]
  {
    if s == [] then [""]
    else if s[0] == ' ' then [""] + Split(s[1..])
    else
      var rest := Split(s[1..]);
      [[s[0]] + rest[0]] + rest[1..]
  }

  /** `join(' ')`. */
  function Join(ws: seq<string>): string
  {
    if ws == [] then "" else if |ws| == 1 then ws[0] else ws[0] + " " + Join(ws[1..])
  }

  lemma {:induction false} JoinConsChar(c: char, ws: seq<string>)
    requires |ws| >= 1
    ensures Join([[c] + ws[0]] + ws[1..]) == [c] + Join(ws)
  {
    var vs := [[c] + ws[0]] + ws[1..];
    assert vs[0] == [c] + ws[0] && vs[1..] == ws[1..];
    if |ws| == 1 {
      assert Join(vs) == vs[0];
    } else {
      assert Join(vs) == vs[0] + " " + Join(vs[1..]);
      assert Join(ws) == ws[0] + " " + Join(ws[1..]);
    }
  }

  /** Joining the pieces of a split gives back the original string. */
  lemma {:induction false} JoinSplit(s: string)
    ensures Join(Split(s)) == s
  {
    if s == [] {
    } else if s[0] == ' ' {
      JoinSplit(s[1..]);
      var ws := [""] + Split(s[1..]);
      assert ws[1..] == Split(s[1..]);
      assert Join(ws) == "" + " " + Join(Split(s[1..]));
      assert s == [' '] + s[1..];
    } else {
      var rest := Split(s[1..]);
      JoinSplit(s[1..]);
      JoinConsChar(s[0], rest);
      assert s == [s[0]] + s[1..];
    }
  }

  lemma {:induction false} SplitWord(w: string)
    requires ' ' !in w
    ensures Split(w) == [w]
  {
    if w != [] {
      assert ' ' !in w[1..] by { assert forall i :: 0 <= i < |w[1..]| ==> w[1..][i] == w[i + 1]; }
      SplitWord(w[1..]);
      assert [w[0]] + w[1..] == w;
    }
  }

  lemma {:induction false} SplitWordThenSpace(w: string, rest: string)
    requires ' ' !in w
    ensures Split(w + " " + rest) == [w] + Split(rest)
  {
    if w == [] {
      assert w + " " + rest == [' '] + rest;
      assert (w + " " + rest)[1..] == rest;
    } else {
      assert ' ' !in w[1..] by { assert forall i :: 0 <= i < |w[1..]| ==> w[1..][i] == w[i + 1]; }
      SplitWordThenSpace(w[1..], rest);
      var s := w + " " + rest;
      assert s[0] == w[0] && s[0] != ' ';
      assert s[1..] == w[1..] + " " + rest;
      assert [w[0]] + w[1..] == w;
    }
  }

  /** Splitting a join of space-free words gives back the words. */
  lemma {:induction false} SplitJoin(ws: seq<string>)
    requires |ws| >= 1
    requires forall i :: 0 <= i < |ws| ==> ' ' !in ws[i]
    ensures Split(Join(ws)) == ws
  {
    if |ws| == 1 {
      SplitWord(ws[0]);
    } else {
      SplitJoin(ws[1..]);
      SplitWordThenSpace(ws[0], Join(ws[1..]));
      assert [ws[0]] + ws[1..] == ws;
    }
  }

  /** Joining non-empty space-free words leaves no space at either end and no two spaces side by side. */
  predicate SingleSpaced(s: string)
  {
    (s != [] ==> s[0] != ' ' && s[|s| - 1] != ' ')
    && forall i :: 0 <= i < |s| - 1 && s[i] == ' ' ==> s[i + 1] != ' '
  }

  lemma {:induction false} JoinSingleSpaced(ws: seq<string>)
    requires forall i :: 0 <= i < |ws| ==> ws[i] != [] && ' ' !in ws[i]
    ensures SingleSpaced(Join(ws))
  {
    if |ws| >= 2 {
      JoinSingleSpaced(ws[1..]);
      var w, t := ws[0], Join(ws[1..]);
      var s := w + " " + t;
      assert t != [] by { assert ws[1..][0] == ws[1]; JoinStartsWith(ws[1..]); }
      assert t[0] != ' ';
      forall i | 0 <= i < |s| - 1 && s[i] == ' '
        ensures s[i + 1] != ' '
      {
        if i == |w| {
          assert s[i + 1] == t[0];
        } else if i > |w| {
          assert s[i] == t[i - |w| - 1] && s[i + 1] == t[i - |w|];
        }
      }
      assert s[0] == w[0];
      assert s[|s| - 1] == t[|t| - 1];
    } else if |ws| == 1 {
      assert Join(ws) == ws[0];
      var w := ws[0];
      assert w[0] in w && w[|w| - 1] in w;
    }
  }

  lemma JoinStartsWith(ws: seq<string>)
    requires |ws| >= 1 && ws[0] != []
    ensures Join(ws) != [] && Join(ws)[0] == ws[0][0]
  {
  }

  function DigitChar(n: nat): (c: char)
    requires n < 10
  {
    ('0' as int + n) as char
  }

  /** A number interpolated in a template literal: its decimal digits, most significant first. */
  function DecimalString(n: nat): (s: string)
    ensures |s| >= 1 && AllDigits(s)
    ensures s[0] == '0' <==> n == 0
  {
    if n < 10 then [DigitChar(n)] else DecimalString(n / 10) + [DigitChar(n % 10)]
  }

  /** The value a string of decimal digits denotes. */
  function DecimalValue(s: string): nat
    requires AllDigits(s)
  {
    if s == [] then 0 else DecimalValue(s[..|s| - 1]) * 10 + (s[|s| - 1] as int - '0' as int)
  }

  /** Reading back the digits written for n gives n. */
  lemma {:induction false} DecimalRoundTrip(n: nat)
    ensures DecimalValue(DecimalString(n)) == n
  {
    if n >= 10 {
      DecimalRoundTrip(n / 10);
      var s := DecimalString(n);
      assert s[..|s| - 1] == DecimalString(n / 10);
    }
  }
}
