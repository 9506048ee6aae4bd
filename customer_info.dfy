/** The customer summary panel (`CustomerInfo.tsx`) shown atop the payment
 *  step: the contact email with its fallback, the address row, the per-order
 *  shipping-method labels, the "split into N deliveries" banner, and the
 *  handlers of its Change links.
 */
module CustomerInfo {
  import opened Wrappers
  import opened Strings
  import opened Store
  import opened AddressText

  // ---------------------------------------------------------------- contact email

  /** `email ? email : contactInformation.email`: the account email unless it is empty. */
  function ContactEmail(accountEmail: string, contactEmail: string): (r: string)
    ensures accountEmail != "" ==> r == accountEmail
    ensures accountEmail == "" ==> r == contactEmail
    ensures r == "" <==> accountEmail == "" && contactEmail == ""
  {
    if accountEmail != "" then accountEmail else contactEmail
  }

  // ---------------------------------------------------------------- address line

  /** The summary's address row: the apartment and a space (never a comma), then address,
   *  city and province, each comma-tagged, then country. */
  function CustomerLine(a: Address): string
  {
    a.apartment + " " + Tagged(a.address) + " " + Tagged(a.city) + " " + Tagged(a.province) + " " + a.country
  }

  /** Reads the text before the first space, and skips that space. */
  function ReadWord(s: string): (r: Option<(string, string)>)
    ensures r.Some? ==> ' ' !in r.value.0 && s == r.value.0 + " " + r.value.1
  {
    var k := IndexOfChar(s, ' ');
    if k < |s| then
      assert s == s[..k] + " " + s[k + 1..];
      assert ' ' !in s[..k] by { assert forall i :: 0 <= i < k ==> s[..k][i] == s[i]; }
      Some((s[..k], s[k + 1..]))
    else None
  }

  lemma ReadWordThenSpace(w: string, rest: string)
    requires ' ' !in w
    ensures ReadWord(w + " " + rest) == Some((w, rest))
  {
    var s := w + " " + rest;
    assert forall i :: 0 <= i < |w| ==> s[i] == w[i];
    assert s[|w|] == ' ';
    assert IndexOfChar(s, ' ') == |w|;
    assert s[..|w|] == w;
    assert s[|w| + 1..] == rest;
  }

  /** Reads the summary's address row back into its five parts. */
  function ReadCustomerLine(line: string): Option<(string, string, string, string, string)>
  {
    match ReadWord(line)
    case None => None
    case Some((apartment, r1)) =>
      match ReadSlot(r1)
      case None => None
      case Some((address, r2)) =>
        match ReadSlot(r2)
        case None => None
        case Some((city, r3)) =>
          match ReadSlot(r3)
          case None => None
          case Some((province, country)) => Some((apartment, address, city, province, country))
  }

  /** The row keeps all five parts in order and comma-tags exactly the non-empty address,
   *  city and province: it reads back to them whenever the apartment holds no space and the
   *  tagged parts no comma. */
  lemma CustomerLineRoundTrip(a: Address)
    requires ' ' !in a.apartment
    requires Readable(a.address) && Readable(a.city) && Readable(a.province)
    ensures ReadCustomerLine(CustomerLine(a)) == Some((a.apartment, a.address, a.city, a.province, a.country))
  {
    var t3 := Tagged(a.province) + " " + a.country;
    var t2 := Tagged(a.city) + " " + t3;
    var t1 := Tagged(a.address) + " " + t2;
    assert CustomerLine(a) == a.apartment + " " + t1;
    ReadWordThenSpace(a.apartment, t1);
    ReadSlotTagged(a.address, t2);
    ReadSlotTagged(a.city, t3);
    ReadSlotTagged(a.province, a.country);
  }

  /** Conversely, every line the reader accepts is the address row of what it reads. */
  lemma ReadCustomerLineSound(line: string, apartment: string, address: string, city: string, province: string, country: string)
    requires ReadCustomerLine(line) == Some((apartment, address, city, province, country))
    ensures ' ' !in apartment && Readable(address) && Readable(city) && Readable(province)
    ensures line == CustomerLine(Address(address, apartment, city, province, country))
  {
    var r1 := ReadWord(line).value.1;
    var r2 := ReadSlot(r1).value.1;
    var r3 := ReadSlot(r2).value.1;
    ReadSlotParts(r1, address, r2);
    ReadSlotParts(r2, city, r3);
    ReadSlotParts(r3, province, country);
    CustomerLineNested(Address(address, apartment, city, province, country));
  }

  lemma CustomerLineNested(a: Address)
    ensures CustomerLine(a) == a.apartment + " " + (Tagged(a.address) + " " + (Tagged(a.city) + " " + (Tagged(a.province) + " " + a.country)))
  {
  }

  // ---------------------------------------------------------------- shipping-method label

  /** `word.charAt(0).toUpperCase() + word.slice(1)`. */
  function CapitalizeFirst(w: string): string
  {
    if w == "" then "" else [ToUpperAscii(w[0])] + w[1..]
  }

  function CapitalizeEach(ws: seq<string>): (r: seq<string>)
    ensures |r| == |ws|
    ensures forall i :: 0 <= i < |ws| ==> r[i] == CapitalizeFirst(ws[i])
  {
    if ws == [] then [] else [CapitalizeFirst(ws[0])] + CapitalizeEach(ws[1..])
  }

  /** `split(' ').map(capitalize).join(' ')`. */
  function CapitalizeWords(s: string): string
  {
    Join(CapitalizeEach(Split(s)))
  }

  /** Reference definition: upper-case the first character and every character after a space. */
  function CapitalizeAfterSpace(s: string, atStart: bool): (r: string)
    ensures |r| == |s|
  {
    if s == [] then [] else [if atStart then ToUpperAscii(s[0]) else s[0]] + CapitalizeAfterSpace(s[1..], s[0] == ' ')
  }

  lemma {:induction false} JoinCapitalizedSplit(t: string, atStart: bool)
    ensures var ws := Split(t);
      Join([if atStart then CapitalizeFirst(ws[0]) else ws[0]] + CapitalizeEach(ws[1..])) == CapitalizeAfterSpace(t, atStart)
  {
    var ws := Split(t);
    if t == [] {
    } else if t[0] == ' ' {
      var ws' := Split(t[1..]);
      assert ws[0] == "" && ws[1..] == ws';
      var tail := CapitalizeEach(ws');
      assert tail == [CapitalizeFirst(ws'[0])] + CapitalizeEach(ws'[1..]);
      JoinCapitalizedSplit(t[1..], true);
      var first := if atStart then CapitalizeFirst(ws[0]) else ws[0];
      assert first == "";
      var vs := [first] + tail;
      assert vs[1..] == tail;
      assert Join(vs) == "" + " " + Join(tail);
      assert ToUpperAscii(' ') == ' ';
    } else {
      var ws' := Split(t[1..]);
      assert ws[0] == [t[0]] + ws'[0] && ws[1..] == ws'[1..];
      var c := if atStart then ToUpperAscii(t[0]) else t[0];
      var first := if atStart then CapitalizeFirst(ws[0]) else ws[0];
      assert first == [c] + ws'[0];
      var vs := [ws'[0]] + CapitalizeEach(ws'[1..]);
      JoinCapitalizedSplit(t[1..], false);
      JoinConsChar(c, vs);
      assert [[c] + vs[0]] + vs[1..] == [first] + CapitalizeEach(ws[1..]);
    }
  }

  lemma CapitalizeWordsIsReference(s: string)
    ensures CapitalizeWords(s) == CapitalizeAfterSpace(s, true)
  {
    var ws := Split(s);
    JoinCapitalizedSplit(s, true);
    assert CapitalizeEach(ws) == [CapitalizeFirst(ws[0])] + CapitalizeEach(ws[1..]);
  }

  lemma {:induction false} CapitalizeAfterSpaceAt(s: string, atStart: bool, i: nat)
    requires i < |s|
    ensures CapitalizeAfterSpace(s, atStart)[i]
         == if (if i == 0 then atStart else s[i - 1] == ' ') then ToUpperAscii(s[i]) else s[i]
  {
    if i > 0 {
      CapitalizeAfterSpaceAt(s[1..], s[0] == ' ', i - 1);
      assert s[1..][i - 1] == s[i];
      if i > 1 {
        assert s[1..][i - 2] == s[i - 1];
      }
    }
  }

  /** The label keeps the length, and changes only the first character of each space-separated word. */
  lemma CapitalizeWordsAt(s: string, i: nat)
    requires i < |s|
    ensures |CapitalizeWords(s)| == |s|
    ensures CapitalizeWords(s)[i] == if i == 0 || s[i - 1] == ' ' then ToUpperAscii(s[i]) else s[i]
  {
    CapitalizeWordsIsReference(s);
    CapitalizeAfterSpaceAt(s, true, i);
  }

  /** The label has as many words as the method name, each the capitalised original word. */
  lemma CapitalizeWordsWords(s: string)
    ensures Split(CapitalizeWords(s)) == CapitalizeEach(Split(s))
    ensures |Split(CapitalizeWords(s))| == |Split(s)|
  {
    var ws := CapitalizeEach(Split(s));
    forall i | 0 <= i < |ws|
      ensures ' ' !in ws[i]
    {
      var w := Split(s)[i];
      assert ws[i] == CapitalizeFirst(w);
      if w != "" {
        assert forall j :: 0 <= j < |ws[i]| ==> ws[i][j] == (if j == 0 then ToUpperAscii(w[0]) else w[j]);
        assert w[0] in w;
        assert forall j :: 1 <= j < |w| ==> w[j] in w;
      }
    }
    SplitJoin(ws);
  }

  /** A single word gets only its first character upper-cased. */
  lemma CapitalizeOneWord(w: string)
    requires w != "" && ' ' !in w
    ensures CapitalizeWords(w) == [ToUpperAscii(w[0])] + w[1..]
  {
    assert ' ' !in w[1..] by { assert forall i :: 0 <= i < |w[1..]| ==> w[1..][i] == w[i + 1]; }
    AfterSpaceWithoutSpaces(w[1..]);
    CapitalizeWordsIsReference(w);
  }

  lemma StandardLabel()
    ensures CapitalizeWords("standard") == "Standard"
  {
    CapitalizeOneWord("standard");
  }

  /** With no space in s and not at the start, nothing is upper-cased. */
  lemma {:induction false} AfterSpaceWithoutSpaces(s: string)
    requires ' ' !in s
    ensures CapitalizeAfterSpace(s, false) == s
  {
    if s != [] {
      assert ' ' !in s[1..] by { assert forall i :: 0 <= i < |s[1..]| ==> s[1..][i] == s[i + 1]; }
      AfterSpaceWithoutSpaces(s[1..]);
    }
  }

  /** `shipping` as it stands in the shipping slice's orders. */
  datatype ShippingChoice = ShippingChoice(id: string, shipping: string)

  /** The Method block's lines, one per order, in order. */
  function MethodLines(orders: seq<ShippingChoice>): (ls: seq<string>)
    ensures |ls| == |orders|
    ensures forall i :: 0 <= i < |orders| ==> ls[i] == CapitalizeWords(orders[i].shipping) + " shipping"
  {
    seq(|orders|, i requires 0 <= i < |orders| => CapitalizeWords(orders[i].shipping) + " shipping")
  }

  // ---------------------------------------------------------------- visibility

  /** The Method block is rendered only at the payment stage. */
  predicate ShowMethodBlock(stage: string)
  {
    stage == "payment"
  }

  const BannerPrefix := "Please note your order has been split into "
  const BannerSuffix := " deliveries"

  /** The split banner, when there is one to show. */
  function SplitBanner(stage: string, orders: seq<ShippingChoice>): (b: Option<string>)
    ensures b.Some? <==> stage == "payment" && |orders| > 0
  {
    if stage == "payment" && |orders| > 0
    then Some(BannerPrefix + DecimalString(|orders|) + BannerSuffix)
    else None
  }

  /** The banner's number is the number of orders. */
  lemma SplitBannerCount(stage: string, orders: seq<ShippingChoice>)
    requires SplitBanner(stage, orders).Some?
    ensures var text := SplitBanner(stage, orders).value;
      var n := text[|BannerPrefix|..|text| - |BannerSuffix|];
      n == DecimalString(|orders|) && AllDigits(n) && n[0] != '0' && DecimalValue(n) == |orders|
  {
    var text := SplitBanner(stage, orders).value;
    var d := DecimalString(|orders|);
    assert text[|BannerPrefix|..|text| - |BannerSuffix|] == d;
    DecimalRoundTrip(|orders|);
  }

  // ---------------------------------------------------------------- the component

  class CustomerInfoPanel {
    var focused: bool
    // requests issued so far, oldest first
    var requests: seq<Action>

    constructor ()
      ensures !focused && requests == []
    {
      focused := false;
      requests := [];
    }

    /** The contact row shows an input only while `focused`. */
    predicate EmailEditable()
      reads this
    {
      focused
    }

    method ChangeContact()
      modifies this
      ensures EmailEditable() && requests == old(requests)
    {
      focused := true;
    }

    method BlurEmail()
      requires EmailEditable()
      modifies this
      ensures !EmailEditable() && requests == old(requests)
    {
      focused := false;
    }

    /** An edit of the email is sent to the shipping slice. */
    method EditEmail(value: string)
      requires EmailEditable()
      modifies this
      ensures requests == old(requests) + [SetEmail(value)] && focused == old(focused)
    {
      requests := requests + [SetEmail(value)];
    }

    /** The Shipping row's Change link asks for the customer step. */
    method ChangeAddress()
      modifies this
      ensures requests == old(requests) + [SetCheckoutStage(Bare("customer"))] && focused == old(focused)
    {
      requests := requests + [SetCheckoutStage(Bare("customer"))];
    }

    /** The Method row's Change link asks for the shipping step. */
    method ChangeMethod()
      modifies this
      ensures requests == old(requests) + [SetCheckoutStage(Bare("shipping"))] && focused == old(focused)
    {
      requests := requests + [SetCheckoutStage(Bare("shipping"))];
    }
  }
}
