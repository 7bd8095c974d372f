/** The string operations the components call: `toLowerCase`, `includes`
    and `replace` with a one-character pattern. */
module Text {
  import opened Sequences

  predicate IsUpper(c: char)
  {
    'A' <= c <= 'Z'
  }

  /** `toLowerCase` on one character, for the ASCII letters. */
  function LowerChar(c: char): (r: char)
    ensures !IsUpper(r)
    ensures !IsUpper(c) ==> r == c
  {
    if IsUpper(c) then (c as int + 32) as char else c
  }

  /** `String.prototype.toLowerCase`, character by character. */
  function Lower(s: string): (r: string)
    ensures |r| == |s|
    ensures forall i :: 0 <= i < |s| ==> r[i] == LowerChar(s[i])
  {
    seq(|s|, i requires 0 <= i < |s| => LowerChar(s[i]))
  }

  /** Lower-casing twice is lower-casing once; text without capitals is unchanged. */
  lemma LowerIdempotent(s: string)
    ensures Lower(Lower(s)) == Lower(s)
    ensures (forall i :: 0 <= i < |s| ==> !IsUpper(s[i])) ==> Lower(s) == s
  {
  }

  /** `pat` occurs in `text` starting at index `i`. */
  ghost predicate OccursAt(text: string, pat: string, i: int)
  {
    0 <= i && i + |pat| <= |text| && text[i..i + |pat|] == pat
  }

  /** `String.prototype.includes`: `pat` is a prefix of some suffix of `text`. */
  function Contains(text: string, pat: string): (r: bool)
    ensures pat == [] ==> r
    ensures r ==> |pat| <= |text|
    decreases |text|
  {
    pat <= text || (text != [] && Contains(text[1..], pat))
  }

  /** An occurrence in the tail is an occurrence one further on in the text. */
  lemma OccursShift(text: string, pat: string, i: nat)
    requires text != []
    ensures OccursAt(text[1..], pat, i) <==> OccursAt(text, pat, i + 1)
  {
    if i + 1 + |pat| <= |text| {
      assert text[1..][i..i + |pat|] == text[i + 1..i + 1 + |pat|];
    }
  }

  /** `Contains` holds exactly when `pat` occurs at some position of `text`. */
  lemma {:induction false} ContainsIffOccurs(text: string, pat: string)
    ensures Contains(text, pat) <==> exists i :: OccursAt(text, pat, i)
  {
    if pat <= text {
      assert text[0..|pat|] == pat;
      assert OccursAt(text, pat, 0);
    } else if text != [] {
      ContainsIffOccurs(text[1..], pat);
      if exists i :: OccursAt(text[1..], pat, i) {
        var i :| OccursAt(text[1..], pat, i);
        OccursShift(text, pat, i);
      }
      if exists i :: OccursAt(text, pat, i) {
        var i :| OccursAt(text, pat, i);
        assert i != 0 by { assert text[0..|pat|] != pat; }
        OccursShift(text, pat, i - 1);
      }
    }
  }

  /** `String.prototype.replace(from, to)` with one-character strings:
      only the first occurrence of `from` is replaced. */
  function ReplaceFirst(s: string, from: char, to: char): (r: string)
    ensures |r| == |s|
  {
    if s == [] then []
    else if s[0] == from then [to] + s[1..]
    else [s[0]] + ReplaceFirst(s[1..], from, to)
  }

  /** Position by position: the first `from` becomes `to`, every other
      character stays, and text without `from` is returned unchanged. */
  lemma {:induction false} ReplaceFirstSpec(s: string, from: char, to: char)
    ensures forall i :: 0 <= i < |s| ==> ReplaceFirst(s, from, to)[i] == if i == IndexOf(s, from) then to else s[i]
    ensures from !in s ==> ReplaceFirst(s, from, to) == s
  {
    if s != [] && s[0] != from {
      ReplaceFirstSpec(s[1..], from, to);
      var r := ReplaceFirst(s, from, to);
      assert r == [s[0]] + ReplaceFirst(s[1..], from, to);
      forall i | 0 < i < |s| ensures r[i] == if i == IndexOf(s, from) then to else s[i] {
        assert r[i] == ReplaceFirst(s[1..], from, to)[i - 1];
      }
    }
  }

  /** When `from` first occurs at `k`, the replacement splices `to` in at `k`. */
  lemma {:induction false} ReplaceFirstAt(s: string, k: nat, from: char, to: char)
    requires k < |s| && s[k] == from && from !in s[..k]
    ensures ReplaceFirst(s, from, to) == s[..k] + [to] + s[k + 1..]
  {
    if k > 0 {
      assert s[0] == s[..k][0];
      assert s[1..][..k - 1] == s[1..k];
      ReplaceFirstAt(s[1..], k - 1, from, to);
      assert s[..k] == [s[0]] + s[1..k];
    }
  }
}
