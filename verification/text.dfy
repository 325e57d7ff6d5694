/**
 The two string operations the router and the tools are built from: Python's
 `str.lower()` (approximated by ASCII lowering) and the substring test
 `needle in haystack`.
 */
module Text {

  /** An ASCII capital letter, the only characters `LowerChar` changes. */
  predicate IsUpper(c: char) {
    'A' <= c <= 'Z'
  }

  /** One character of `str.lower()`, restricted to ASCII. */
  function LowerChar(c: char): (d: char)
    ensures !IsUpper(d)
    ensures !IsUpper(c) ==> d == c
    ensures IsUpper(c) ==> 'a' <= d <= 'z'
    ensures IsUpper(c) ==> d as int - 'a' as int == c as int - 'A' as int
  {
    if IsUpper(c) then (c as int + 32) as char else c
  }

  /** A string that `Lower` leaves unchanged: it holds no capital letter. */
  predicate IsLowered(s: string) {
    forall i :: 0 <= i < |s| ==> !IsUpper(s[i])
  }

  /** `s.lower()`: every character lowered, in place. */
  function Lower(s: string): (r: string)
    ensures |r| == |s|
    ensures forall i :: 0 <= i < |s| ==> r[i] == LowerChar(s[i])
    ensures IsLowered(r)
  {
    if s == [] then [] else [LowerChar(s[0])] + Lower(s[1..])
  }

  /** `needle` occurs in `hay` starting at position `i`. */
  predicate OccursAt(hay: string, needle: string, i: int) {
    0 <= i && i + |needle| <= |hay| && hay[i..i + |needle|] == needle
  }

  /** Python's `needle in hay` for two strings: an occurring needle fits in
      the haystack, and every string occurs in itself. */
  predicate Contains(hay: string, needle: string)
    ensures Contains(hay, needle) ==> |needle| <= |hay|
    ensures needle == hay ==> Contains(hay, needle)
  {
    assert OccursAt(hay, hay, 0) by {
      assert hay[0..|hay|] == hay;
    }
    exists i | 0 <= i <= |hay| - |needle| :: OccursAt(hay, needle, i)
  }

  /** Every prefix and every suffix of a string occurs in it. */
  lemma {:induction false} PrefixAndSuffixOccur(hay: string, k: nat)
    requires k <= |hay|
    ensures Contains(hay, hay[..k])
    ensures Contains(hay, hay[|hay| - k..])
  {
    assert hay[0..k] == hay[..k];
    assert OccursAt(hay, hay[..k], 0);
    assert hay[|hay| - k..|hay|] == hay[|hay| - k..];
    assert OccursAt(hay, hay[|hay| - k..], |hay| - k);
  }

  /** Lowering a string that is already lowered changes nothing. */
  lemma {:induction false} LowerFixesLowered(s: string)
    requires IsLowered(s)
    ensures Lower(s) == s
  {
    var r := Lower(s);
    forall i | 0 <= i < |s|
      ensures r[i] == s[i]
    {
      assert !IsUpper(s[i]);
    }
  }

  /** `str.lower()` is idempotent (for the ASCII approximation). */
  lemma {:induction false} LowerIdempotent(s: string)
    ensures Lower(Lower(s)) == Lower(s)
  {
    LowerFixesLowered(Lower(s));
  }

  /** The empty string occurs in every string, at position 0. */
  lemma ContainsEmpty(hay: string)
    ensures Contains(hay, "")
  {
    assert OccursAt(hay, "", 0);
  }

  /** An occurrence survives lowering both sides: `n in h` implies `n.lower() in h.lower()`. */
  lemma {:induction false} ContainsLower(hay: string, needle: string)
    requires Contains(hay, needle)
    ensures Contains(Lower(hay), Lower(needle))
  {
    var i :| 0 <= i <= |hay| - |needle| && OccursAt(hay, needle, i);
    var lh, ln := Lower(hay), Lower(needle);
    forall k | 0 <= k < |needle|
      ensures lh[i + k] == ln[k]
    {
      assert hay[i + k] == hay[i..i + |needle|][k] == needle[k];
    }
    assert lh[i..i + |needle|] == ln;
    assert OccursAt(lh, ln, i);
  }

  /** Whatever occurs in a lowered string is itself lowered: a needle holding
      a capital letter never occurs in `q.lower()`. */
  lemma {:induction false} OccursInLoweredIsLowered(hay: string, needle: string)
    requires IsLowered(hay)
    requires Contains(hay, needle)
    ensures IsLowered(needle)
  {
    var i :| 0 <= i <= |hay| - |needle| && OccursAt(hay, needle, i);
    forall k | 0 <= k < |needle|
      ensures !IsUpper(needle[k])
    {
      assert needle[k] == hay[i..i + |needle|][k] == hay[i + k];
    }
  }

  /** Every character of an occurring needle is a character of the haystack;
      a needle with a character the haystack lacks does not occur. */
  lemma {:induction false} MissingCharRulesOut(hay: string, needle: string, k: nat)
    requires k < |needle| && needle[k] !in hay
    ensures !Contains(hay, needle)
  {
    if Contains(hay, needle) {
      var i :| 0 <= i <= |hay| - |needle| && OccursAt(hay, needle, i);
      CharOfOccurrence(hay, needle, i, k);
    }
  }

  /** The `k`-th character of an occurrence at `i` is the haystack's character `i + k`. */
  lemma CharOfOccurrence(hay: string, needle: string, i: int, k: nat)
    requires OccursAt(hay, needle, i) && k < |needle|
    ensures hay[i + k] == needle[k]
  {
    assert hay[i..i + |needle|][k] == hay[i + k];
  }

  /** Substring containment is transitive. */
  lemma {:induction false} ContainsTransitive(hay: string, mid: string, needle: string)
    requires Contains(hay, mid) && Contains(mid, needle)
    ensures Contains(hay, needle)
  {
    var i :| 0 <= i <= |hay| - |mid| && OccursAt(hay, mid, i);
    var j :| 0 <= j <= |mid| - |needle| && OccursAt(mid, needle, j);
    var window := hay[i + j..i + j + |needle|];
    forall k | 0 <= k < |needle|
      ensures window[k] == needle[k]
    {
      CharOfOccurrence(hay, mid, i, j + k);
      CharOfOccurrence(mid, needle, j, k);
    }
    assert OccursAt(hay, needle, i + j);
  }
}
