/**
 * `TextUtils`: how closely a transcript matches a target phrase.  Both are
 * reduced to their lowercased word characters; a transcript that contains the
 * target scores 1, anything else scores by edit distance.
 */
module TextUtils {
  import opened Strings

  /** The regular-expression class `\w`, restricted to ASCII: letters, digits and `_`. */
  predicate IsWordChar(c: char)
  {
    'a' <= c <= 'z' || 'A' <= c <= 'Z' || '0' <= c <= '9' || c == '_'
  }

  /** What `CleanString` produces: lowercase word characters only. */
  predicate IsClean(s: string)
  {
    forall i :: 0 <= i < |s| ==> IsWordChar(s[i]) && !IsUpper(s[i])
  }

  /** `Regex.Replace(input, @"[^\w\s]", "")`: drops what is neither a word character nor white space. */
  function StripPunctuation(s: string): (r: string)
    ensures |r| <= |s|
    ensures forall i :: 0 <= i < |r| ==> IsWordChar(r[i]) || IsWhiteSpace(r[i])
  {
    if s == [] then []
    else if IsWordChar(s[0]) || IsWhiteSpace(s[0]) then [s[0]] + StripPunctuation(s[1..])
    else StripPunctuation(s[1..])
  }

  /** `Regex.Replace(clean, @"\s+", "")`: drops every white-space character. */
  function StripWhiteSpace(s: string): (r: string)
    ensures |r| <= |s|
    ensures forall i :: 0 <= i < |r| ==> !IsWhiteSpace(r[i])
    ensures (forall i :: 0 <= i < |s| ==> IsWordChar(s[i]) || IsWhiteSpace(s[i])) ==>
      forall i :: 0 <= i < |r| ==> IsWordChar(r[i])
  {
    if s == [] then []
    else if IsWhiteSpace(s[0]) then StripWhiteSpace(s[1..])
    else [s[0]] + StripWhiteSpace(s[1..])
  }

  /** `CleanString`: punctuation and white space removed, then lowercased. */
  function CleanString(s: string): (r: string)
    ensures IsClean(r)
    ensures |r| <= |s|
  {
    var kept := StripWhiteSpace(StripPunctuation(s));
    assert forall i :: 0 <= i < |kept| ==> IsWordChar(kept[i]);
    ToLower(kept)
  }

  lemma {:induction false} StripPunctuationAppend(a: string, b: string)
    ensures StripPunctuation(a + b) == StripPunctuation(a) + StripPunctuation(b)
  {
    if a != [] {
      assert a + b == [a[0]] + (a[1..] + b);
      assert (a + b)[0] == a[0] && (a + b)[1..] == a[1..] + b;
      StripPunctuationAppend(a[1..], b);
    } else {
      assert a + b == b;
    }
  }

  lemma {:induction false} StripWhiteSpaceAppend(a: string, b: string)
    ensures StripWhiteSpace(a + b) == StripWhiteSpace(a) + StripWhiteSpace(b)
  {
    if a != [] {
      assert a + b == [a[0]] + (a[1..] + b);
      assert (a + b)[0] == a[0] && (a + b)[1..] == a[1..] + b;
      StripWhiteSpaceAppend(a[1..], b);
    } else {
      assert a + b == b;
    }
  }

  lemma ToLowerAppend(a: string, b: string)
    ensures ToLower(a + b) == ToLower(a) + ToLower(b)
  {
    assert forall i :: 0 <= i < |a + b| ==> ToLower(a + b)[i] == (ToLower(a) + ToLower(b))[i];
  }

  /** Cleaning works piece by piece: the cleaned whole is the cleaned parts joined. */
  lemma CleanStringAppend(a: string, b: string)
    ensures CleanString(a + b) == CleanString(a) + CleanString(b)
  {
    StripPunctuationAppend(a, b);
    StripWhiteSpaceAppend(StripPunctuation(a), StripPunctuation(b));
    ToLowerAppend(StripWhiteSpace(StripPunctuation(a)), StripWhiteSpace(StripPunctuation(b)));
  }

  /** A space, a dot, a comma or any other non-word character makes no difference. */
  lemma CleanStringIgnoresSeparator(a: string, c: char, b: string)
    requires !IsWordChar(c)
    ensures CleanString(a + [c] + b) == CleanString(a + b)
  {
    assert CleanString([c]) == [] by {
      assert [c][1..] == [];
    }
    calc {
      CleanString(a + [c] + b);
      { CleanStringAppend(a + [c], b); }
      CleanString(a + [c]) + CleanString(b);
      { CleanStringAppend(a, [c]); }
      CleanString(a) + CleanString(b);
      { CleanStringAppend(a, b); }
      CleanString(a + b);
    }
  }

  /** A string that is already clean is left as it is. */
  lemma {:induction false} CleanStringKeepsClean(s: string)
    requires IsClean(s)
    ensures CleanString(s) == s
  {
    if s != [] {
      CleanStringKeepsClean(s[1..]);
      CleanStringAppend([s[0]], s[1..]);
      assert [s[0]] + s[1..] == s;
      assert [s[0]][1..] == [];
    }
  }

  /** `CleanString` is idempotent. */
  lemma CleanStringIdempotent(s: string)
    ensures CleanString(CleanString(s)) == CleanString(s)
  {
    CleanStringKeepsClean(CleanString(s));
  }

  function Min(a: int, b: int): int { if a < b then a else b }

  function Max(a: int, b: int): int { if a < b then b else a }

  /**
   * Unit-cost edit distance (insertions, deletions and substitutions), by the
   * recurrence on prefixes that the dynamic programme tabulates.
   */
  function EditDistance(s: string, t: string): (d: nat)
    ensures d <= Max(|s|, |t|)
    ensures |s| - |t| <= d && |t| - |s| <= d
    decreases |s| + |t|
  {
    if |s| == 0 then |t|
    else if |t| == 0 then |s|
    else
      var cost := if t[|t| - 1] == s[|s| - 1] then 0 else 1;
      Min(Min(EditDistance(s[..|s| - 1], t) + 1, EditDistance(s, t[..|t| - 1]) + 1),
          EditDistance(s[..|s| - 1], t[..|t| - 1]) + cost)
  }

  /** A string is at distance 0 from itself, and only from itself. */
  lemma {:induction false} EditDistanceZeroIff(s: string, t: string)
    ensures EditDistance(s, t) == 0 <==> s == t
    decreases |s| + |t|
  {
    if |s| > 0 && |t| > 0 {
      var s', t' := s[..|s| - 1], t[..|t| - 1];
      EditDistanceZeroIff(s', t');
      assert s == s' + [s[|s| - 1]] && t == t' + [t[|t| - 1]];
    }
  }

  /** The distance is symmetric. */
  lemma {:induction false} EditDistanceSymmetric(s: string, t: string)
    ensures EditDistance(s, t) == EditDistance(t, s)
    decreases |s| + |t|
  {
    if |s| > 0 && |t| > 0 {
      EditDistanceSymmetric(s[..|s| - 1], t);
      EditDistanceSymmetric(s, t[..|t| - 1]);
      EditDistanceSymmetric(s[..|s| - 1], t[..|t| - 1]);
    }
  }

  /** The distance between the first `a` characters of `s` and the first `b` of `t`. */
  function PrefixDistance(s: string, t: string, a: nat, b: nat): nat
    requires a <= |s| && b <= |t|
  {
    EditDistance(s[..a], t[..b])
  }

  /** The first row and column of the table. */
  lemma PrefixDistanceEdges(s: string, t: string, a: nat, b: nat)
    requires a <= |s| && b <= |t|
    ensures PrefixDistance(s, t, a, 0) == a
    ensures PrefixDistance(s, t, 0, b) == b
  {
  }

  /** An inner cell of the table follows from its three neighbours. */
  lemma PrefixDistanceStep(s: string, t: string, i: nat, j: nat)
    requires 1 <= i <= |s| && 1 <= j <= |t|
    ensures PrefixDistance(s, t, i, j) ==
      Min(Min(PrefixDistance(s, t, i - 1, j) + 1, PrefixDistance(s, t, i, j - 1) + 1),
          PrefixDistance(s, t, i - 1, j - 1) + (if t[j - 1] == s[i - 1] then 0 else 1))
  {
    assert s[..i][..i - 1] == s[..i - 1] && t[..j][..j - 1] == t[..j - 1];
  }

  /**
   * `ComputeLevenshteinDistance`: the Wagner–Fischer table `d`, where
   * `d[i, j]` is the distance between the first `i` characters of `s` and the
   * first `j` of `t`.
   */
  method ComputeLevenshteinDistance(s: string, t: string) returns (dist: int)
    ensures dist == EditDistance(s, t)
  {
    var n := |s|;
    var m := |t|;
    var d := new int[n + 1, m + 1];
    if n == 0 {
      return m;
    }
    if m == 0 {
      return n;
    }
    var i := 0;
    while i <= n
      invariant 0 <= i <= n + 1
      invariant forall a :: 0 <= a < i ==> d[a, 0] == a
    {
      d[i, 0] := i;
      i := i + 1;
    }
    var j := 0;
    while j <= m
      invariant 0 <= j <= m + 1
      invariant forall a :: 0 <= a <= n ==> d[a, 0] == a
      invariant forall b :: 0 <= b < j ==> d[0, b] == b
    {
      d[0, j] := j;
      j := j + 1;
    }
    forall b | 0 <= b <= m
      ensures d[0, b] == PrefixDistance(s, t, 0, b)
    {
      PrefixDistanceEdges(s, t, 0, b);
    }
    i := 1;
    while i <= n
      invariant 1 <= i <= n + 1
      invariant forall a :: i <= a <= n ==> d[a, 0] == a
      invariant forall a, b :: 0 <= a < i && 0 <= b <= m ==> d[a, b] == PrefixDistance(s, t, a, b)
    {
      PrefixDistanceEdges(s, t, i, 0);
      FillRow(d, s, t, i);
      i := i + 1;
    }
    assert s[..n] == s && t[..m] == t;
    return d[n, m];
  }

  /** The inner loop: row `i` from its left edge and the row above. */
  method FillRow(d: array2<int>, s: string, t: string, i: nat)
    requires d.Length0 == |s| + 1 && d.Length1 == |t| + 1 && 1 <= i <= |s|
    requires d[i, 0] == PrefixDistance(s, t, i, 0)
    requires forall a, b :: 0 <= a < i && 0 <= b <= |t| ==> d[a, b] == PrefixDistance(s, t, a, b)
    modifies d
    ensures forall b :: 0 <= b <= |t| ==> d[i, b] == PrefixDistance(s, t, i, b)
    ensures forall a, b :: 0 <= a < d.Length0 && 0 <= b < d.Length1 && a != i ==> d[a, b] == old(d[a, b])
  {
    var j := 1;
    while j <= |t|
      invariant 1 <= j <= |t| + 1
      invariant forall b :: 0 <= b < j ==> d[i, b] == PrefixDistance(s, t, i, b)
      invariant forall a, b :: 0 <= a < d.Length0 && 0 <= b < d.Length1 && a != i ==> d[a, b] == old(d[a, b])
    {
      var cost := if t[j - 1] == s[i - 1] then 0 else 1;
      PrefixDistanceStep(s, t, i, j);
      d[i, j] := Min(Min(d[i - 1, j] + 1, d[i, j - 1] + 1), d[i - 1, j - 1] + cost);
      j := j + 1;
    }
  }

  /**
   * `CalculateSimilarity`: 0 for an empty argument; 1 when the cleaned input
   * contains the cleaned target (so also when the target cleans to nothing);
   * otherwise 1 minus the edit distance over the longer cleaned length.  The
   * score always lies in [0, 1].
   */
  method CalculateSimilarity(target: string, input: string) returns (r: real)
    ensures target == [] || input == [] ==> r == 0.0
    ensures target != [] && input != [] && Contains(CleanString(input), CleanString(target)) ==> r == 1.0
    ensures target != [] && input != [] && !Contains(CleanString(input), CleanString(target)) ==>
      var sTarget, sInput := CleanString(target), CleanString(input);
      sTarget != [] && r == 1.0 - (EditDistance(sTarget, sInput) as real) / (Max(|sTarget|, |sInput|) as real)
    ensures 0.0 <= r <= 1.0
  {
    if target == [] || input == [] {
      return 0.0;
    }
    var sTarget := CleanString(target);
    var sInput := CleanString(input);
    if Contains(sInput, sTarget) {
      return 1.0;
    }
    var dist := ComputeLevenshteinDistance(sTarget, sInput);
    var maxLen := Max(|sTarget|, |sInput|);
    assert Contains(sInput, []);
    assert 0 <= dist <= maxLen;
    RatioAtMostOne(dist, maxLen);
    r := 1.0 - (dist as real) / (maxLen as real);
  }

  lemma RatioAtMostOne(dist: int, maxLen: int)
    requires 0 <= dist <= maxLen && maxLen > 0
    ensures 0.0 <= (dist as real) / (maxLen as real) <= 1.0
  {
  }
}
