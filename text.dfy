/**
 * The string operations the searches rely on: lower-casing, prefix and
 * substring tests, the text form of a missing cell, and joining with a separator.
 */
module Text {
  import opened Wrappers

  /**
   * Lower-case one character: ASCII capitals and the Latin-1 capitals
   * (U+00C0 to U+00DE except the multiplication sign U+00D7, which covers Å, Ä and Ö)
   * move down by 0x20; every other character is left as it is.
   */
  function LowerChar(c: char): (l: char)
    ensures 'A' <= c <= 'Z' || ('\U{C0}' <= c <= '\U{DE}' && c != '\U{D7}') ==> l as int == c as int + 32
    ensures 'A' <= c <= 'Z' ==> 'a' <= l <= 'z'
    ensures !('A' <= c <= 'Z') && !('\U{C0}' <= c <= '\U{DE}') ==> l == c
  {
    if 'A' <= c <= 'Z' || ('\U{C0}' <= c <= '\U{DE}' && c != '\U{D7}') then (c as int + 32) as char else c
  }

  /** Character-wise lower-casing of a string. */
  function Lower(s: string): (r: string)
    ensures |r| == |s|
    ensures forall i :: 0 <= i < |s| ==> r[i] == LowerChar(s[i])
  {
    seq(|s|, i requires 0 <= i < |s| => LowerChar(s[i]))
  }

  /** `sub` occurs in `s` starting at position `k`. */
  predicate OccursAt(sub: string, s: string, k: nat)
  {
    k + |sub| <= |s| && s[k..k + |sub|] == sub
  }

  /** `sub` occurs somewhere in `s` (Python's `sub in s`). */
  predicate Contains(s: string, sub: string)
  {
    exists k: nat :: k <= |s| && OccursAt(sub, s, k)
  }

  /** A string that starts with `prefix` contains it. */
  lemma StartsWithContains(s: string, prefix: string)
    requires prefix <= s
    ensures Contains(s, prefix)
  {
    assert OccursAt(prefix, s, 0);
  }

  /** Putting text in front of a string keeps every substring it contains. */
  lemma ContainsAfterPrefix(prefix: string, s: string, sub: string)
    requires Contains(s, sub)
    ensures Contains(prefix + s, sub)
  {
    var k: nat :| k <= |s| && OccursAt(sub, s, k);
    var r := prefix + s;
    assert r[|prefix| + k..|prefix| + k + |sub|] == s[k..k + |sub|];
    assert OccursAt(sub, r, |prefix| + k);
  }

  /** The text of a cell after `astype(str)`: a missing value becomes "nan". */
  function AsText(cell: Option<string>): (t: string)
    ensures cell.Some? ==> t == cell.value
    ensures cell.None? ==> t == "nan"
  {
    match cell
    case Some(v) => v
    case None => "nan"
  }

  /** `sep.join(parts)`. */
  function Join(parts: seq<string>, sep: string): (r: string)
    ensures parts == [] ==> r == ""
    ensures |parts| == 1 ==> r == parts[0]
    ensures |r| >= (if parts == [] then 0 else (|parts| - 1) * |sep|)
  {
    if parts == [] then ""
    else if |parts| == 1 then parts[0]
    else parts[0] + sep + Join(parts[1..], sep)
  }

  /** Joining one more part appends the separator and that part: the parts appear in order, separated by `sep`. */
  lemma {:induction false} JoinSnoc(parts: seq<string>, sep: string, p: string)
    requires parts != []
    ensures Join(parts + [p], sep) == Join(parts, sep) + sep + p
    decreases |parts|
  {
    if |parts| == 1 {
      assert (parts + [p])[1..] == [p];
    } else {
      assert (parts + [p])[1..] == parts[1..] + [p];
      JoinSnoc(parts[1..], sep, p);
    }
  }

  /** Every part appears in the joined string. */
  lemma {:induction false} JoinContainsParts(parts: seq<string>, sep: string, i: nat)
    requires i < |parts|
    ensures Contains(Join(parts, sep), parts[i])
  {
    var r := Join(parts, sep);
    if |parts| == 1 {
      assert OccursAt(parts[0], r, 0);
    } else if i == 0 {
      assert r == parts[0] + (sep + Join(parts[1..], sep));
      assert OccursAt(parts[0], r, 0);
    } else {
      JoinContainsParts(parts[1..], sep, i - 1);
      var rest := Join(parts[1..], sep);
      var k: nat :| k <= |rest| && OccursAt(parts[i], rest, k);
      var off := |parts[0]| + |sep|;
      assert r == (parts[0] + sep) + rest;
      assert r[off + k..off + k + |parts[i]|] == rest[k..k + |parts[i]|];
      assert OccursAt(parts[i], r, off + k);
    }
  }
}
