/** The pieces both address rows are built from: a comma-tagged slot
 *  (`${s}${s && ','}`), and the reader that takes one back off the front of a row.
 */
module AddressText {
  import opened Wrappers
  import opened Strings

  /** `${s}${s && ','}`: the slot, with a comma when it is non-empty. */
  function Tagged(s: string): (t: string)
    ensures t == "" <==> s == ""
    ensures t != "" ==> |t| == |s| + 1 && t[..|s|] == s && t[|s|] == ','
  {
    if s == "" then "" else s + ","
  }

  /** A slot value that can be read back from the line: no comma, and no leading space. */
  predicate Readable(s: string)
  {
    ',' !in s && (s == "" || s[0] != ' ')
  }

  /** Reads one tagged slot and the space after it; None when the text has another shape.
   *  What it accepts is always a tagged readable slot, a space, and the rest. */
  function ReadSlot(s: string): (r: Option<(string, string)>)
    ensures r.Some? ==> Readable(r.value.0) && s == Tagged(r.value.0) + " " + r.value.1
  {
    if s != [] && s[0] == ' ' then
      assert s == " " + s[1..];
      Some(("", s[1..]))
    else
      var k := IndexOfChar(s, ',');
      if 0 < k && k + 1 < |s| && s[k + 1] == ' ' then
        assert s == s[..k] + "," + " " + s[k + 2..];
        assert ',' !in s[..k] by { assert forall i :: 0 <= i < k ==> s[..k][i] == s[i]; }
        Some((s[..k], s[k + 2..]))
      else None
  }

  /** The reader's contract, for a known result. */
  lemma ReadSlotParts(s: string, x: string, y: string)
    requires ReadSlot(s) == Some((x, y))
    ensures Readable(x) && s == Tagged(x) + " " + y
  {
  }

  /** A comma with no slot before it is not a tagged slot. */
  lemma ReadSlotBareComma(rest: string)
    ensures ReadSlot(", " + rest) == None
  {
    assert IndexOfChar(", " + rest, ',') == 0;
  }

  lemma ReadSlotTagged(f: string, rest: string)
    requires Readable(f)
    ensures ReadSlot(Tagged(f) + " " + rest) == Some((f, rest))
  {
    var s := Tagged(f) + " " + rest;
    if f == "" {
      assert s == " " + rest && s[1..] == rest;
    } else {
      assert s == f + [','] + [' '] + rest;
      assert s[0] == f[0];
      var k := IndexOfChar(s, ',');
      assert forall i :: 0 <= i < |f| ==> s[i] == f[i];
      assert s[|f|] == ',';
      assert k == |f|;
      assert s[..k] == f;
      assert s[k + 2..] == rest;
    }
  }
}
