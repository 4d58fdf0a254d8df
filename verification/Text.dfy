/** The few string operations of Go's `strings` package that the autopilot uses, over ASCII letters. */
module Text {

  function LowerChar(c: char): char {
    if 'A' <= c <= 'Z' then (c as int + 32) as char else c
  }

  /** strings.ToLower */
  function Lower(s: string): (r: string)
    ensures |r| == |s|
  {
    if s == "" then "" else [LowerChar(s[0])] + Lower(s[1..])
  }

  lemma {:induction false} LowerAt(s: string, i: nat)
    requires i < |s|
    ensures Lower(s)[i] == LowerChar(s[i])
  {
    if i > 0 {
      LowerAt(s[1..], i - 1);
    }
  }

  /** strings.EqualFold */
  predicate EqualFold(a: string, b: string) {
    Lower(a) == Lower(b)
  }

  const UPPER := "ABCDEFGHIJKLMNOPQRSTUVWXYZ"
  const LOWER := "abcdefghijklmnopqrstuvwxyz"

  /** The same character, or the two cases of one letter. */
  predicate SameLetter(c: char, d: char) {
    || c == d
    || (exists k :: 0 <= k < 26 && c == "ABCDEFGHIJKLMNOPQRSTUVWXYZ"[k] && d == "abcdefghijklmnopqrstuvwxyz"[k])
    || (exists k :: 0 <= k < 26 && d == "ABCDEFGHIJKLMNOPQRSTUVWXYZ"[k] && c == "abcdefghijklmnopqrstuvwxyz"[k])
  }

  lemma LettersInOrder(k: nat)
    requires k < 26
    ensures UPPER[k] == (65 + k) as char && LOWER[k] == (97 + k) as char
  {
  }

  lemma SameLetterIs(c: char, d: char)
    ensures SameLetter(c, d) <==> LowerChar(c) == LowerChar(d)
  {
    forall k | 0 <= k < 26 ensures UPPER[k] == (65 + k) as char && LOWER[k] == (97 + k) as char {
      LettersInOrder(k);
    }
    if 'A' <= c <= 'Z' && d == LowerChar(c) {
      assert c == UPPER[c as int - 65] && d == LOWER[c as int - 65];
    }
    if 'A' <= d <= 'Z' && c == LowerChar(d) {
      assert d == UPPER[d as int - 65] && c == LOWER[d as int - 65];
    }
  }

  /** Two strings are equal up to case exactly if they are so letter by letter. */
  lemma EqualFoldIs(a: string, b: string)
    ensures EqualFold(a, b) <==> |a| == |b| && forall i :: 0 <= i < |a| ==> SameLetter(a[i], b[i])
  {
    hide LowerChar, SameLetter, Lower;
    assert |Lower(a)| == |a| && |Lower(b)| == |b|;
    forall i | 0 <= i < |a| && |a| == |b| ensures SameLetter(a[i], b[i]) <==> Lower(a)[i] == Lower(b)[i] {
      LowerAt(a, i);
      LowerAt(b, i);
      SameLetterIs(a[i], b[i]);
    }
  }

  lemma Assoc(a: string, b: string, c: string)
    ensures a + (b + c) == (a + b) + c
  {
  }

  lemma {:induction false} LowerConcat(a: string, b: string)
    ensures Lower(a + b) == Lower(a) + Lower(b)
  {
    if a == "" {
      assert a + b == b;
    } else {
      LowerConcat(a[1..], b);
      assert (a + b)[0] == a[0] && (a + b)[1..] == a[1..] + b;
      Assoc([LowerChar(a[0])], Lower(a[1..]), Lower(b));
    }
  }

  lemma LowerSplit(s: string, n: nat)
    requires n <= |s|
    ensures Lower(s[..n]) == Lower(s)[..n]
    ensures Lower(s[n..]) == Lower(s)[n..]
  {
    hide Lower;
    assert s[..n] + s[n..] == s;
    LowerConcat(s[..n], s[n..]);
    Parted(Lower(s[..n]), Lower(s[n..]));
  }

  lemma Parted(a: string, b: string)
    ensures (a + b)[..|a|] == a && (a + b)[|a|..] == b
  {
  }

  lemma {:induction false} LowerSlashes(s: string)
    ensures '/' in Lower(s) <==> '/' in s
  {
    if s != "" {
      LowerSlashes(s[1..]);
      assert s == [s[0]] + s[1..];
    }
  }

  /** strings.TrimPrefix */
  function TrimPrefix(s: string, prefix: string): string {
    if prefix <= s then s[|prefix|..] else s
  }

  /** strings.Contains */
  predicate Contains(s: string, part: string) {
    part <= s || (s != "" && Contains(s[1..], part))
  }

  lemma {:induction false} ContainsIs(s: string, part: string)
    ensures Contains(s, part) <==> exists i :: 0 <= i <= |s| && part <= s[i..]
  {
    assert s[0..] == s;
    if !(part <= s) && s != "" {
      ContainsIs(s[1..], part);
      forall i | 0 <= i < |s| ensures s[1..][i..] == s[i + 1..] {
      }
      if Contains(s[1..], part) {
        var i :| 0 <= i <= |s[1..]| && part <= s[1..][i..];
        assert part <= s[i + 1..];
      }
      if exists i :: 0 <= i <= |s| && part <= s[i..] {
        var i :| 0 <= i <= |s| && part <= s[i..];
        assert part <= s[1..][i - 1..];
      }
    }
  }

  /** strings.ReplaceAll for a non-empty `old`: left to right, without overlaps. */
  function ReplaceAll(s: string, old_: string, new_: string): string
    requires old_ != ""
  {
    if s == "" then ""
    else if old_ <= s then new_ + ReplaceAll(s[|old_|..], old_, new_)
    else [s[0]] + ReplaceAll(s[1..], old_, new_)
  }

  lemma ReplaceHit(rest: string, old_: string, new_: string)
    requires old_ != ""
    ensures ReplaceAll(old_ + rest, old_, new_) == new_ + ReplaceAll(rest, old_, new_)
  {
    assert (old_ + rest)[|old_|..] == rest;
  }

  lemma ReplaceMiss(c: char, rest: string, old_: string, new_: string)
    requires old_ != "" && old_[0] != c
    ensures ReplaceAll([c] + rest, old_, new_) == [c] + ReplaceAll(rest, old_, new_)
  {
    assert ([c] + rest)[0] == c && ([c] + rest)[1..] == rest;
  }

  /** A pattern of two characters whose first one is there but not its second. */
  lemma ReplaceNearMiss(d: char, rest: string, old_: string, new_: string)
    requires |old_| == 2 && d !in old_
    ensures ReplaceAll([old_[0]] + ([d] + rest), old_, new_) == [old_[0], d] + ReplaceAll(rest, old_, new_)
  {
    var s := [old_[0]] + ([d] + rest);
    assert s[1] == d && s[1..] == [d] + rest;
    ReplaceMiss(d, rest, old_, new_);
    assert old_[1] in old_;
  }
}
