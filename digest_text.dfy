/** String operations the layer-deduplication code relies on: Python's
    substring test `needle in hay` and `s.replace("sha256:", "")`, which
    removes every non-overlapping occurrence scanning left to right. */
module DigestText {

  /** The algorithm tag in front of image ids and layer digests. */
  const Tag: string := "sha256:"

  predicate StartsWith(s: string, prefix: string) {
    |prefix| <= |s| && s[..|prefix|] == prefix
  }

  /** `needle` occurs in `hay` starting at position `i`. */
  ghost predicate OccursAt(hay: string, needle: string, i: nat) {
    i + |needle| <= |hay| && hay[i..i + |needle|] == needle
  }

  /** Python's `needle in hay` for strings (the empty needle is in every string). */
  predicate Contains(hay: string, needle: string)
    ensures needle == [] ==> Contains(hay, needle)
    ensures Contains(hay, needle) ==> |needle| <= |hay|
    decreases |hay|
  {
    StartsWith(hay, needle) || (|hay| > 0 && Contains(hay[1..], needle))
  }

  /** A window of `hay[1..]` is the window of `hay` one position on. */
  lemma TailSlice(hay: string, i: nat, n: nat)
    requires 0 < i && i + n <= |hay|
    ensures hay[1..][i - 1..i - 1 + n] == hay[i..i + n]
  {
  }

  /** Contains agrees with the positional definition of a substring, both ways. */
  lemma {:induction false} ContainsIffOccurs(hay: string, needle: string)
    ensures Contains(hay, needle) <==> exists i: nat :: OccursAt(hay, needle, i)
    decreases |hay|
  {
    if StartsWith(hay, needle) {
      assert OccursAt(hay, needle, 0);
    } else if |hay| == 0 {
      assert forall i: nat :: !OccursAt(hay, needle, i);
    } else {
      ContainsIffOccurs(hay[1..], needle);
      if Contains(hay[1..], needle) {
        var i: nat :| OccursAt(hay[1..], needle, i);
        TailSlice(hay, i + 1, |needle|);
        assert OccursAt(hay, needle, i + 1);
      } else {
        forall i: nat | 0 < i && i + |needle| <= |hay|
          ensures OccursAt(hay, needle, i) ==> OccursAt(hay[1..], needle, i - 1)
        {
          TailSlice(hay, i, |needle|);
        }
        assert !OccursAt(hay, needle, 0);
      }
    }
  }

  /** Python's `s.replace(pattern, "")` for a non-empty pattern: the leftmost
      occurrence is removed and the scan resumes after it. */
  function RemoveAll(s: string, pattern: string): (r: string)
    requires |pattern| > 0
    ensures |r| <= |s|
    ensures !Contains(s, pattern) ==> r == s
    ensures Contains(s, pattern) ==> |r| + |pattern| <= |s|
    decreases |s|
  {
    if |s| < |pattern| then s
    else if s[..|pattern|] == pattern then RemoveAll(s[|pattern|..], pattern)
    else [s[0]] + RemoveAll(s[1..], pattern)
  }

  /** `digest.replace("sha256:", "")` as `diff_export` (diffdocker.py) writes
      it: a digest holding the tag loses at least one copy of it. */
  function Strip(digest: string): (r: string)
    ensures |r| <= |digest|
    ensures Contains(digest, Tag) ==> |r| + |Tag| <= |digest|
  {
    RemoveAll(digest, Tag)
  }

  /** A string without ':' (a hex digest value, say) never contains the tag. */
  lemma NoColonNoTag(hex: string)
    requires forall i :: 0 <= i < |hex| ==> hex[i] != ':'
    ensures !Contains(hex, Tag)
  {
    ContainsIffOccurs(hex, Tag);
    forall i: nat | i + |Tag| <= |hex| ensures !OccursAt(hex, Tag, i) {
      assert hex[i..i + |Tag|][6] == hex[i + 6] != ':';
    }
  }

  /** Stripping a tagged digest whose value has no ':' gives back the value. */
  lemma StripTagged(hex: string)
    requires forall i :: 0 <= i < |hex| ==> hex[i] != ':'
    ensures Strip(Tag + hex) == hex
  {
    NoColonNoTag(hex);
    var s := Tag + hex;
    assert s[..|Tag|] == Tag;
    assert s[|Tag|..] == hex;
  }

  /** The tag is removed wherever it stands, not only in front: a tag after a
      colon-free stretch `a` disappears and the scan goes on after it. */
  lemma {:induction false} InsertedTag(a: string, b: string)
    requires forall i :: 0 <= i < |a| ==> a[i] != ':'
    ensures Strip(a + Tag + b) == a + Strip(b)
    decreases |a|
  {
    var s := a + Tag + b;
    if a == [] {
      assert s == Tag + b;
      assert s[..|Tag|] == Tag;
      assert s[|Tag|..] == b;
    } else {
      assert s[6] != ':' by {
        if |a| > 6 { assert s[6] == a[6]; } else { assert s[6] == Tag[6 - |a|]; }
      }
      assert s[..|Tag|] != Tag by { assert Tag[6] == ':'; }
      InsertedTag(a[1..], b);
      assert s[1..] == a[1..] + Tag + b;
      assert [s[0]] + a[1..] == a;
    }
  }
}
