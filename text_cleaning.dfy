/** The string manipulations the scraper applies to what it reads from the page:
    the "missing element" sentinel, removal of characters, row-label cleaning,
    column-label truncation and cell normalisation. */
module TextCleaning {
  import opened Wrappers

  /** What an element lookup yields when the element is absent: the three
      characters N, backslash, A. */
  const Sentinel: string := "N\\A"

  /** The characters stripped from every row label. */
  const RowLabelNoise: set<char> := {',', '+', '-'}

  /** The cell text that stands for "no value" on the page. */
  const MissingPair: string := "- -"

  /** `s` with every character in `drop` removed and the others kept in order:
      the effect of `str.replace(c, "")` for each `c` in `drop`. */
  function Without(s: string, drop: set<char>): (r: string)
    ensures |r| <= |s|
  {
    if s == [] then []
    else if s[0] in drop then Without(s[1..], drop)
    else [s[0]] + Without(s[1..], drop)
  }

  /** No character of `drop` is left. */
  lemma {:induction false} WithoutRemovesAll(s: string, drop: set<char>)
    ensures forall i :: 0 <= i < |Without(s, drop)| ==> Without(s, drop)[i] !in drop
  {
    if s != [] {
      WithoutRemovesAll(s[1..], drop);
    }
  }

  /** Removal keeps exactly the characters outside `drop`. */
  lemma {:induction false} WithoutKeepsTheRest(s: string, drop: set<char>, x: char)
    ensures x in Without(s, drop) <==> x in s && x !in drop
  {
    if s != [] {
      WithoutKeepsTheRest(s[1..], drop, x);
      assert x in s <==> x == s[0] || x in s[1..];
    }
  }

  /** Removing characters that do not occur changes nothing. */
  lemma {:induction false} WithoutAbsent(s: string, drop: set<char>)
    requires forall i :: 0 <= i < |s| ==> s[i] !in drop
    ensures Without(s, drop) == s
  {
    if s != [] {
      WithoutAbsent(s[1..], drop);
    }
  }

  /** Two removals in a row are one removal of both sets. */
  lemma {:induction false} WithoutTwice(s: string, a: set<char>, b: set<char>)
    ensures Without(Without(s, a), b) == Without(s, a + b)
  {
    if s != [] {
      WithoutTwice(s[1..], a, b);
      if s[0] !in a {
        assert Without(s, a) == [s[0]] + Without(s[1..], a);
        assert ([s[0]] + Without(s[1..], a))[1..] == Without(s[1..], a);
      }
    }
  }

  /** Removal works character by character: the kept characters stay in
      order and keep their number. With WithoutKeepsTheRest and the length
      bound this pins Without down on every input. */
  lemma {:induction false} WithoutConcat(a: string, b: string, drop: set<char>)
    ensures Without(a + b, drop) == Without(a, drop) + Without(b, drop)
  {
    if a != [] {
      WithoutConcat(a[1..], b, drop);
      assert (a + b)[1..] == a[1..] + b;
    } else {
      assert a + b == b;
    }
  }

  /** The three removals applied in turn to a raw row label. Each is guarded
      by `if c in row_data:` in the scraper; by WithoutAbsent the guard makes
      no difference, so it is left out. */
  function StripRowNoise(raw: string): (r: string)
    ensures r == Without(raw, RowLabelNoise)
  {
    var noComma := Without(raw, {','});
    var noPlus := Without(noComma, {'+'});
    var noMinus := Without(noPlus, {'-'});
    WithoutTwice(raw, {','}, {'+'});
    assert {','} + {'+'} == {',', '+'};
    WithoutTwice(raw, {',', '+'}, {'-'});
    assert {',', '+'} + {'-'} == RowLabelNoise;
    noMinus
  }

  /** A raw row label after cleaning: noise removed, then one leading space
      dropped. None when nothing is left, where indexing the first character
      raises. */
  function CleanRowLabel(raw: string): Option<string> {
    var stripped := StripRowNoise(raw);
    if |stripped| == 0 then None
    else if stripped[0] == ' ' then Some(stripped[1..])
    else Some(stripped)
  }

  /** Cleaning fails exactly when only noise was read; otherwise the label has
      no noise left and differs from the noise-free text at most by one
      dropped leading space. */
  lemma CleanRowLabelSpec(raw: string)
    ensures CleanRowLabel(raw).None? <==> Without(raw, RowLabelNoise) == []
    ensures CleanRowLabel(raw).Some? ==>
              var cleaned, s := CleanRowLabel(raw).value, Without(raw, RowLabelNoise);
              && (forall i :: 0 <= i < |cleaned| ==> cleaned[i] !in RowLabelNoise)
              && ((s[0] == ' ' && s == [' '] + cleaned) || (s[0] != ' ' && s == cleaned))
  {
    WithoutRemovesAll(raw, RowLabelNoise);
    var s := Without(raw, RowLabelNoise);
    if s != [] && s[0] == ' ' {
      assert s == [' '] + s[1..];
      assert forall i :: 0 <= i < |s[1..]| ==> s[1..][i] == s[i + 1];
    }
  }

  /** `s.split(" ")[0]`: the text before the first space, or all of `s`. */
  function FirstToken(s: string): string {
    if s == [] || s[0] == ' ' then []
    else [s[0]] + FirstToken(s[1..])
  }

  /** The first token is a prefix of `s` without a space, and it ends at the
      end of `s` or just before a space. */
  lemma {:induction false} FirstTokenShape(s: string)
    ensures FirstToken(s) <= s
    ensures ' ' !in FirstToken(s)
    ensures |FirstToken(s)| == |s| || s[|FirstToken(s)|] == ' '
  {
    if s != [] && s[0] != ' ' {
      FirstTokenShape(s[1..]);
    }
  }

  /** The three properties of FirstToken pin it down: no other prefix has them. */
  lemma {:induction false} FirstTokenUnique(s: string, t: string)
    requires t <= s && ' ' !in t
    requires |t| == |s| || s[|t|] == ' '
    ensures t == FirstToken(s)
  {
    if s != [] && s[0] != ' ' {
      assert t != [];
      assert ' ' !in t[1..];
      FirstTokenUnique(s[1..], t[1..]);
      assert t == [s[0]] + t[1..];
    }
  }

  /** A stored table cell: text, or the missing marker (pandas NaN). */
  datatype Cell = Text(text: string) | Missing

  /** `df.replace("- -", np.nan)` on one cell: only an exact match is replaced. */
  function ReplaceMissingPair(s: string): Cell {
    if s == MissingPair then Missing else Text(s)
  }

  /** What ends up in the table for one raw cell read: commas stripped, then
      the missing pair replaced. */
  function StoredCell(raw: string): Cell {
    ReplaceMissingPair(Without(raw, {','}))
  }

  /** A stored cell never holds a comma; it is missing exactly when the text
      without commas is the missing pair; a read that found no element is
      stored as the sentinel text, not as missing. */
  lemma StoredCellSpec(raw: string)
    ensures StoredCell(raw) == Missing <==> Without(raw, {','}) == MissingPair
    ensures StoredCell(raw).Text? ==> StoredCell(raw).text == Without(raw, {','}) && ',' !in StoredCell(raw).text
    ensures raw == Sentinel ==> StoredCell(raw) == Text(Sentinel)
  {
    WithoutKeepsTheRest(raw, {','}, ',');
    if raw == Sentinel {
      WithoutAbsent(raw, {','});
    }
  }
}
