/** The four card-field formatters of the payment form (`handleCardDetailChange`):
 *  each turns the raw text of an input into the value stored for that field.
 *  The regular-expression replacements of the source are written out as
 *  sequence functions.
 */
module CardFormat {
  import opened Strings

  // ---------------------------------------------------------------- name

  /** `replace(/\b[a-z]/g, toUpperCase)` on `s`, where `afterWord` says whether
   *  the character just before `s` is a word character. */
  function CapitalizeFrom(s: string, afterWord: bool): (r: string)
    ensures |r| == |s|
  {
    if s == [] then []
    else [if !afterWord && IsLowerAscii(s[0]) then ToUpperAscii(s[0]) else s[0]]
         + CapitalizeFrom(s[1..], IsWordChar(s[0]))
  }

  /** Cardholder name: a lower-case letter at a word boundary is capitalised. */
  function FormatName(raw: string): (r: string)
    ensures |r| == |raw|
  {
    CapitalizeFrom(raw, false)
  }

  /** Position i of s is preceded by a `\b` boundary when a word character stands at i. */
  predicate AtWordStart(s: string, i: nat)
    requires i < |s|
  {
    i == 0 || !IsWordChar(s[i - 1])
  }

  lemma {:induction false} CapitalizeFromAt(s: string, afterWord: bool, i: nat)
    requires i < |s|
    ensures CapitalizeFrom(s, afterWord)[i]
         == if IsLowerAscii(s[i]) && (if i == 0 then !afterWord else !IsWordChar(s[i - 1]))
            then ToUpperAscii(s[i]) else s[i]
  {
    if i > 0 {
      CapitalizeFromAt(s[1..], IsWordChar(s[0]), i - 1);
      assert s[1..][i - 1] == s[i];
      if i > 1 {
        assert s[1..][i - 2] == s[i - 1];
      }
    }
  }

  /** Exactly the lower-case letters a-z that start a word are upper-cased; nothing else moves. */
  lemma FormatNameAt(raw: string, i: nat)
    requires i < |raw|
    ensures |FormatName(raw)| == |raw|
    ensures FormatName(raw)[i] == if IsLowerAscii(raw[i]) && AtWordStart(raw, i) then ToUpperAscii(raw[i]) else raw[i]
    ensures IsLowerAscii(raw[i]) && AtWordStart(raw, i) ==> 'A' <= FormatName(raw)[i] <= 'Z'
  {
    CapitalizeFromAt(raw, false, i);
  }

  lemma {:induction false} CapitalizeFromIdempotent(s: string, afterWord: bool)
    ensures CapitalizeFrom(CapitalizeFrom(s, afterWord), afterWord) == CapitalizeFrom(s, afterWord)
  {
    if s != [] {
      var r := CapitalizeFrom(s, afterWord);
      assert r[1..] == CapitalizeFrom(s[1..], IsWordChar(s[0]));
      assert IsWordChar(r[0]) == IsWordChar(s[0]);
      CapitalizeFromIdempotent(s[1..], IsWordChar(s[0]));
    }
  }

  /** Formatting a formatted name changes nothing. */
  lemma FormatNameIdempotent(raw: string)
    ensures FormatName(FormatName(raw)) == FormatName(raw)
  {
    CapitalizeFromIdempotent(raw, false);
  }

  // ---------------------------------------------------------------- number

  /** `replace(/(\d{4})/g, '$1 ')` on a digit string: a space after every complete run of four. */
  function Group4(d: string): (r: string)
    requires AllDigits(d)
    ensures |r| == |d| + |d| / 4
  {
    if |d| < 4 then d else d[..4] + " " + Group4(d[4..])
  }

  /** Card number: digits only, a space after each four, trimmed. */
  function FormatNumber(raw: string): string
  {
    Trim(Group4(Digits(raw)))
  }

  function Concat(ws: seq<string>): string
  {
    if ws == [] then [] else ws[0] + Concat(ws[1..])
  }

  /** Reference grouping of a digit string: consecutive groups of four, the last one 1 to 4 long. */
  function Chunks(d: string): (cs: seq<string>)
    ensures forall i :: 0 <= i < |cs| ==> 1 <= |cs[i]| <= 4
    ensures forall i :: 0 <= i < |cs| - 1 ==> |cs[i]| == 4
    ensures Concat(cs) == d
    ensures d == [] <==> cs == []
  {
    if |d| <= 4 then (if d == [] then [] else [d])
    else
      var rest := Chunks(d[4..]);
      var cs := [d[..4]] + rest;
      assert cs[1..] == rest;
      assert d == d[..4] + d[4..];
      cs
  }

  /** Every group of a digit string is itself digits, hence space-free. */
  lemma {:induction false} ChunksAreDigits(d: string)
    requires AllDigits(d)
    ensures forall i :: 0 <= i < |Chunks(d)| ==> AllDigits(Chunks(d)[i]) && ' ' !in Chunks(d)[i]
  {
    var cs := Chunks(d);
    if |d| <= 4 {
      assert d != [] ==> cs == [d];
    } else {
      var e := d[4..];
      assert AllDigits(e) by { assert forall k :: 0 <= k < |e| ==> e[k] == d[k + 4]; }
      ChunksAreDigits(e);
      assert cs == [d[..4]] + Chunks(e);
      forall i | 0 <= i < |cs|
        ensures AllDigits(cs[i]) && ' ' !in cs[i]
      {
        if i > 0 {
          assert cs[i] == Chunks(e)[i - 1];
        }
      }
    }
  }

  predicate DigitsAndSpaces(s: string)
  {
    forall i :: 0 <= i < |s| ==> IsDigit(s[i]) || s[i] == ' '
  }

  lemma DigitsAndSpacesAppend(a: string, b: string)
    requires DigitsAndSpaces(a) && DigitsAndSpaces(b)
    ensures DigitsAndSpaces(a + b)
  {
    forall i | 0 <= i < |a + b|
      ensures IsDigit((a + b)[i]) || (a + b)[i] == ' '
    {
      if i < |a| { assert (a + b)[i] == a[i]; } else { assert (a + b)[i] == b[i - |a|]; }
    }
  }

  lemma {:induction false} JoinOfDigitWordsChars(ws: seq<string>)
    requires forall i :: 0 <= i < |ws| ==> AllDigits(ws[i])
    ensures DigitsAndSpaces(Join(ws))
  {
    if |ws| >= 2 {
      JoinOfDigitWordsChars(ws[1..]);
      assert Join(ws) == ws[0] + " " + Join(ws[1..]);
      DigitsAndSpacesAppend(ws[0], " ");
      DigitsAndSpacesAppend(ws[0] + " ", Join(ws[1..]));
    }
  }

  lemma {:induction false} JoinOfDigitWordsDigits(ws: seq<string>)
    requires forall i :: 0 <= i < |ws| ==> AllDigits(ws[i])
    ensures Digits(Join(ws)) == Concat(ws)
  {
    if |ws| == 1 {
      DigitsOfDigitString(ws[0]);
      assert Concat(ws) == ws[0] + Concat([]);
    } else if |ws| >= 2 {
      JoinOfDigitWordsDigits(ws[1..]);
      assert Join(ws) == ws[0] + " " + Join(ws[1..]);
      assert Concat(ws) == ws[0] + Concat(ws[1..]);
      DigitsOfDigitString(ws[0]);
      DigitsAppend(ws[0] + " ", Join(ws[1..]));
      DigitsAppend(ws[0], " ");
      assert Digits(" ") == [];
    }
  }

  lemma JoinOfDigitWords(ws: seq<string>)
    requires forall i :: 0 <= i < |ws| ==> AllDigits(ws[i])
    ensures DigitsAndSpaces(Join(ws))
    ensures Digits(Join(ws)) == Concat(ws)
  {
    JoinOfDigitWordsChars(ws);
    JoinOfDigitWordsDigits(ws);
  }

  lemma SpacedDigitsUntrimmable(s: string)
    requires DigitsAndSpaces(s) && SingleSpaced(s)
    ensures Untrimmable(s)
  {
    if s != [] {
      assert IsDigit(s[0]) && IsDigit(s[|s| - 1]);
    }
  }

  /** The raw replacement leaves a trailing space exactly when the digit count is a positive multiple of four. */
  lemma {:induction false} Group4Shape(d: string)
    requires AllDigits(d)
    ensures Group4(d) == Join(Chunks(d)) + (if d != [] && |d| % 4 == 0 then " " else "")
  {
    if |d| == 4 {
      assert d[4..] == [];
      assert d[..4] == d;
    } else if |d| > 4 {
      Group4Shape(d[4..]);
      var rest := Chunks(d[4..]);
      assert rest != [];
      var cs := [d[..4]] + rest;
      assert Chunks(d) == cs;
      assert cs[1..] == rest;
      assert Join(cs) == d[..4] + " " + Join(rest);
      assert Group4(d) == d[..4] + " " + Group4(d[4..]);
      assert |d[4..]| % 4 == |d| % 4;
    }
  }

  /** The card number is the digit groups of four joined by single spaces. */
  lemma FormatNumberGroups(raw: string)
    ensures FormatNumber(raw) == Join(Chunks(Digits(raw)))
  {
    var d := Digits(raw);
    var j := Join(Chunks(d));
    Group4Shape(d);
    ChunksAreDigits(d);
    JoinOfDigitWords(Chunks(d));
    JoinSingleSpaced(Chunks(d));
    SpacedDigitsUntrimmable(j);
    if d != [] && |d| % 4 == 0 {
      TrimTrailingSpace(j);
    } else {
      assert Group4(d) == j;
      TrimUntrimmable(j);
    }
  }

  /** Digits and spaces only; removing the spaces gives the raw digits in order;
   *  single spaces between groups of four, a final group of one to four. */
  lemma FormatNumberSpec(raw: string)
    ensures DigitsAndSpaces(FormatNumber(raw))
    ensures Digits(FormatNumber(raw)) == Digits(raw)
    ensures SingleSpaced(FormatNumber(raw))
    ensures Digits(raw) == [] ==> FormatNumber(raw) == ""
    ensures Digits(raw) != [] ==> Split(FormatNumber(raw)) == Chunks(Digits(raw))
  {
    var d := Digits(raw);
    FormatNumberGroups(raw);
    ChunksAreDigits(d);
    JoinOfDigitWords(Chunks(d));
    JoinSingleSpaced(Chunks(d));
    if d != [] {
      SplitJoin(Chunks(d));
    }
  }

  /** Formatting a formatted card number changes nothing. */
  lemma FormatNumberIdempotent(raw: string)
    ensures FormatNumber(FormatNumber(raw)) == FormatNumber(raw)
  {
    FormatNumberSpec(raw);
  }

  lemma FormatNumberExample()
    ensures FormatNumber("4111111111111111") == "4111 1111 1111 1111"
  {
    var d := "4111111111111111";
    ExampleNumberDigits();
    FormatNumberGroups(d);
    ChunksExample();
    JoinExample();
  }

  lemma ExampleNumberDigits()
    ensures Digits("4111111111111111") == "4111111111111111"
  {
    var d := "4111111111111111";
    assert forall i :: 0 <= i < |d| ==> d[i] == '4' || d[i] == '1';
    DigitsOfDigitString(d);
  }

  lemma ChunksExample()
    ensures Chunks("4111111111111111") == ["4111", "1111", "1111", "1111"]
  {
    var d := "4111111111111111";
    assert d[..4] == "4111" && d[4..] == "111111111111";
    var e := "111111111111";
    assert e[..4] == "1111" && e[4..] == "11111111";
    var f := "11111111";
    assert f[..4] == "1111" && f[4..] == "1111";
    assert Chunks("1111") == ["1111"];
    assert Chunks(f) == ["1111", "1111"];
    assert Chunks(e) == ["1111", "1111", "1111"];
  }

  lemma JoinExample()
    ensures Join(["4111", "1111", "1111", "1111"]) == "4111 1111 1111 1111"
  {
    var ws := ["4111", "1111", "1111", "1111"];
    assert ws[1..] == ["1111", "1111", "1111"];
    assert ws[1..][1..] == ["1111", "1111"];
    assert ws[1..][1..][1..] == ["1111"];
  }

  // ---------------------------------------------------------------- security code

  /** Security code: the digits, cut to at most four (`substring(0, 4)`). */
  function FormatCode(raw: string): (r: string)
    ensures AllDigits(r)
    ensures |r| == if |Digits(raw)| < 4 then |Digits(raw)| else 4
    ensures r <= Digits(raw)
  {
    var d := Digits(raw);
    d[..if |d| < 4 then |d| else 4]
  }

  lemma FormatCodeIdempotent(raw: string)
    ensures FormatCode(FormatCode(raw)) == FormatCode(raw)
  {
    DigitsOfDigitString(FormatCode(raw));
  }

  // ---------------------------------------------------------------- expiry

  /** `replace(/(\d{2})(\d{2})/, '$1/$2')` on a digit string: the first match is at the start. */
  function InsertSlash(d: string): (r: string)
    requires AllDigits(d)
    ensures |r| == if |d| >= 4 then |d| + 1 else |d|
    ensures |d| >= 4 ==> r[2] == '/' && r[..2] == d[..2] && r[3..] == d[2..]
    ensures |d| < 4 ==> r == d
  {
    if |d| >= 4 then d[..2] + "/" + d[2..4] + d[4..] else d
  }

  /** Expiry date: digits only, a slash after the first two once there are four. */
  function FormatExpiry(raw: string): string
  {
    Trim(InsertSlash(Digits(raw)))
  }

  /** Fewer than four digits stay bare; from four on, two digits, a slash, and every remaining digit. */
  lemma FormatExpirySpec(raw: string)
    ensures |Digits(raw)| < 4 ==> FormatExpiry(raw) == Digits(raw)
    ensures |Digits(raw)| >= 4 ==> FormatExpiry(raw) == Digits(raw)[..2] + "/" + Digits(raw)[2..]
    ensures '/' in FormatExpiry(raw) <==> |Digits(raw)| >= 4
    ensures Digits(FormatExpiry(raw)) == Digits(raw)
  {
    var d := Digits(raw);
    var s := InsertSlash(d);
    assert '/' !in d;
    if |d| >= 4 {
      assert d[2..4] + d[4..] == d[2..];
      assert s == d[..2] + "/" + d[2..];
      assert Untrimmable(s) by { assert s[0] == d[0] && s[|s| - 1] == d[|d| - 1]; }
      TrimUntrimmable(s);
      SlashedDigits(d);
    } else {
      assert Untrimmable(s) by { if s != [] { assert IsDigit(s[0]) && IsDigit(s[|s| - 1]); } }
      TrimUntrimmable(s);
      DigitsOfDigitString(d);
    }
  }

  /** Dropping the slash gives back the digits. */
  lemma SlashedDigits(d: string)
    requires AllDigits(d) && |d| >= 2
    ensures Digits(d[..2] + "/" + d[2..]) == d
  {
    DigitsAppend(d[..2] + "/", d[2..]);
    DigitsAppend(d[..2], "/");
    assert Digits("/") == [];
    DigitsOfDigitString(d[..2]);
    DigitsOfDigitString(d[2..]);
    assert d[..2] + d[2..] == d;
  }

  /** Formatting a formatted expiry changes nothing. */
  lemma FormatExpiryIdempotent(raw: string)
    ensures FormatExpiry(FormatExpiry(raw)) == FormatExpiry(raw)
  {
    FormatExpirySpec(raw);
    FormatExpirySpec(FormatExpiry(raw));
  }

  lemma FormatExpiryExample()
    ensures FormatExpiry("123456") == "12/3456"
  {
    var d := "123456";
    ExampleExpiryDigits();
    assert d[..2] == "12" && d[2..4] == "34" && d[4..] == "56";
    assert InsertSlash(d) == "12/3456";
    TrimUntrimmable("12/3456");
  }

  lemma ExampleExpiryDigits()
    ensures Digits("123456") == "123456"
  {
    DigitsOfDigitString("123456");
  }
}
