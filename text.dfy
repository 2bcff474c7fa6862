/** Facts about strings used by the formatting parts of the model. */
module Text {

  /** True when `c` is an ASCII letter or digit (Rust's `char::is_ascii_alphanumeric`). */
  predicate IsAsciiAlphanumeric(c: char) {
    ('0' <= c <= '9') || ('A' <= c <= 'Z') || ('a' <= c <= 'z')
  }

  /** True when `w` occurs in `s` starting at index `k`. */
  predicate OccursAt(s: string, w: string, k: int) {
    0 <= k && k + |w| <= |s| && s[k..k + |w|] == w
  }

  /** True when `w` occurs somewhere in `s`. */
  ghost predicate Contains(s: string, w: string) {
    exists k :: OccursAt(s, w, k)
  }

  /** Every index at which `w` occurs in `s`. */
  function Occurrences(s: string, w: string): (ks: set<int>)
    ensures forall k :: k in ks <==> OccursAt(s, w, k)
  {
    set k | 0 <= k <= |s| - |w| && OccursAt(s, w, k)
  }

  /** `w` occurs in `s` at exactly one index. */
  ghost predicate OccursExactlyOnce(s: string, w: string) {
    |Occurrences(s, w)| == 1
  }

  /** Every character of `s[..n]` is a character of `alphabet`, given that `s` is periodic with
      period `d` and its first `d` characters are taken from `alphabet`. */
  lemma {:induction false} PeriodicFromPrefix(s: string, d: nat, alphabet: string, i: nat)
    requires 0 < d <= |s| && i < |s|
    requires forall j :: 0 <= j < d ==> s[j] in alphabet
    requires forall j :: d <= j < |s| ==> s[j] == s[j - d]
    ensures s[i] in alphabet
    decreases i
  {
    if i >= d {
      PeriodicFromPrefix(s, d, alphabet, i - d);
    }
  }

  /** Mirror image of `PeriodicFromPrefix`: a string whose last `d` characters are taken from
      `alphabet` and that repeats with period `d` is made of characters of `alphabet`. */
  lemma {:induction false} PeriodicFromSuffix(s: string, d: nat, alphabet: string, i: nat)
    requires 0 < d <= |s| && i < |s|
    requires forall j :: |s| - d <= j < |s| ==> s[j] in alphabet
    requires forall j :: 0 <= j < |s| - d ==> s[j] == s[j + d]
    ensures s[i] in alphabet
    decreases |s| - i
  {
    if i < |s| - d {
      PeriodicFromSuffix(s, d, alphabet, i + d);
    }
  }

  /** A word spliced between a prefix and a suffix occurs at the splice point. */
  lemma SplicedOccurs(pre: string, w: string, suf: string)
    ensures OccursAt(pre + w + suf, w, |pre|)
    ensures Contains(pre + w + suf, w)
  {
    assert (pre + w + suf)[|pre|..|pre| + |w|] == w;
    assert OccursAt(pre + w + suf, w, |pre|);
  }

  /** Three words placed, in order, among four other strings all occur in the result. */
  lemma ThreeFieldsOccur(a: string, x: string, b: string, y: string, c: string, z: string, d: string)
    ensures Contains(a + x + b + y + c + z + d, x)
    ensures Contains(a + x + b + y + c + z + d, y)
    ensures Contains(a + x + b + y + c + z + d, z)
  {
    var s := a + x + b + y + c + z + d;
    assert s == a + x + (b + y + c + z + d);
    SplicedOccurs(a, x, b + y + c + z + d);
    assert s == (a + x + b) + y + (c + z + d);
    SplicedOccurs(a + x + b, y, c + z + d);
    assert s == (a + x + b + y + c) + z + d;
    SplicedOccurs(a + x + b + y + c, z, d);
  }

  /** A word spliced between a prefix and a suffix occurs exactly once, at the splice point,
      when it contains a marker character that neither the prefix nor the suffix contains. */
  lemma SplicedOccursOnce(pre: string, w: string, suf: string, marker: char)
    requires marker in w && marker !in pre && marker !in suf
    ensures Occurrences(pre + w + suf, w) == {|pre|}
    ensures OccursExactlyOnce(pre + w + suf, w)
  {
    var s := pre + w + suf;
    var p := |pre|;
    assert s[p..p + |w|] == w;
    forall k | OccursAt(s, w, k)
      ensures k == p
    {
      var m :| 0 <= m < |w| && w[m] == marker;
      if k + |w| <= p {
        // the occurrence lies inside the prefix, which lacks the marker
      } else if k < p {
        // it overlaps the spliced copy from the left: `w` repeats with period p - k
        var d := p - k;
        forall j | 0 <= j < d
          ensures w[j] in pre
        {
          assert w[j] == s[k + j] == pre[k + j];
        }
        forall j | d <= j < |w|
          ensures w[j] == w[j - d]
        {
          assert w[j] == s[k + j] == s[p + (j - d)];
        }
        PeriodicFromPrefix(w, d, pre, m);
      } else if p + |w| <= k {
        // the occurrence lies inside the suffix, which lacks the marker
      } else if p < k {
        // it overlaps the spliced copy from the right: `w` repeats with period k - p
        var d := k - p;
        forall j | |w| - d <= j < |w|
          ensures w[j] in suf
        {
          assert w[j] == s[k + j] == suf[k + j - p - |w|];
        }
        forall j | 0 <= j < |w| - d
          ensures w[j] == w[j + d]
        {
          assert w[j + d] == s[p + j + d] == s[k + j];
        }
        PeriodicFromSuffix(w, d, suf, m);
      }
    }
    assert Occurrences(s, w) == {p};
  }
}
