/**
 * String helpers shared by the model: the parts of .NET's string API that the
 * game uses (`ToLower`, `Replace(x, "")`, `Contains`, `Trim`, decimal
 * formatting of an int).  Characters outside ASCII are left alone by
 * `ToLower` and are not whitespace for `Trim`.
 */
module Strings {

  predicate IsUpper(c: char) { 'A' <= c <= 'Z' }

  predicate IsLower(c: char) { 'a' <= c <= 'z' }

  /** `char.ToLowerInvariant` restricted to ASCII letters. */
  function LowerChar(c: char): (r: char)
    ensures !IsUpper(r)
    ensures IsUpper(c) ==> IsLower(r)
    ensures !IsUpper(c) ==> r == c
  {
    if IsUpper(c) then (c as int + 32) as char else c
  }

  /** `string.ToLower()`: every character mapped by LowerChar, length kept. */
  function ToLower(s: string): (r: string)
    ensures |r| == |s|
    ensures forall i :: 0 <= i < |s| ==> r[i] == LowerChar(s[i])
  {
    if s == [] then [] else [LowerChar(s[0])] + ToLower(s[1..])
  }

  lemma {:induction false} ToLowerIdempotent(s: string)
    ensures ToLower(ToLower(s)) == ToLower(s)
  {
    if s != [] {
      ToLowerIdempotent(s[1..]);
      assert ToLower(s)[1..] == ToLower(s[1..]);
    }
  }

  /** `s.Replace(c.ToString(), "")`: every occurrence of `c` dropped, order kept. */
  function Remove(s: string, c: char): (r: string)
    ensures c !in r
    ensures |r| <= |s|
    ensures forall x :: x in r ==> x in s
    ensures (forall i :: 0 <= i < |s| ==> !IsUpper(s[i])) ==> (forall i :: 0 <= i < |r| ==> !IsUpper(r[i]))
  {
    if s == [] then [] else (if s[0] == c then [] else [s[0]]) + Remove(s[1..], c)
  }

  lemma {:induction false} RemoveAbsent(s: string, c: char)
    requires c !in s
    ensures Remove(s, c) == s
  {
    if s != [] {
      assert c !in s[1..];
      RemoveAbsent(s[1..], c);
    }
  }

  /** `hay.Contains(needle)`: `needle` occurs as a contiguous block of `hay`. */
  predicate Contains(hay: string, needle: string)
    decreases |hay|
  {
    needle <= hay || (hay != [] && Contains(hay[1..], needle))
  }

  /** `needle` sits in `hay` starting at index `k`. */
  predicate OccursAt(hay: string, needle: string, k: nat)
  {
    k + |needle| <= |hay| && hay[k..k + |needle|] == needle
  }

  /** Contains holds exactly when the needle occurs at some index. */
  lemma {:induction false} ContainsAt(hay: string, needle: string, k: nat)
    requires OccursAt(hay, needle, k)
    ensures Contains(hay, needle)
    decreases k
  {
    if k == 0 {
      assert needle <= hay;
    } else {
      assert hay[1..][k - 1..k - 1 + |needle|] == needle;
      ContainsAt(hay[1..], needle, k - 1);
    }
  }

  lemma {:induction false} ContainsWitness(hay: string, needle: string) returns (k: nat)
    requires Contains(hay, needle)
    ensures OccursAt(hay, needle, k)
    decreases |hay|
  {
    if needle <= hay {
      assert hay[0..|needle|] == needle;
      k := 0;
    } else {
      var j := ContainsWitness(hay[1..], needle);
      assert hay[j + 1..j + 1 + |needle|] == hay[1..][j..j + |needle|];
      k := j + 1;
    }
  }

  /** `char.IsWhiteSpace` on ASCII: tab, line feed, vertical tab, form feed, carriage return, space. */
  predicate IsWhiteSpace(c: char) { c == ' ' || '\t' <= c <= '\r' }

  /** `string.TrimStart()`: the longest all-whitespace prefix is dropped. */
  function TrimStart(s: string): (r: string)
    ensures |r| <= |s| && r == s[|s| - |r|..]
    ensures r == [] || !IsWhiteSpace(r[0])
    ensures forall i :: 0 <= i < |s| - |r| ==> IsWhiteSpace(s[i])
    ensures forall x :: x in r ==> x in s
  {
    if s != [] && IsWhiteSpace(s[0]) then TrimStart(s[1..]) else s
  }

  /** `string.TrimEnd()`: the longest all-whitespace suffix is dropped. */
  function TrimEnd(s: string): (r: string)
    ensures r <= s
    ensures r == [] || !IsWhiteSpace(r[|r| - 1])
    ensures forall i :: |r| <= i < |s| ==> IsWhiteSpace(s[i])
    ensures forall x :: x in r ==> x in s
  {
    if s != [] && IsWhiteSpace(s[|s| - 1]) then TrimEnd(s[..|s| - 1]) else s
  }

  /**
   * `string.Trim()`: a block of `s` starting at some offset `a`, with only
   * whitespace before and after it, and no leading or trailing whitespace
   * left.
   */
  function Trim(s: string): (r: string)
    ensures |r| <= |s|
    ensures r == [] || (!IsWhiteSpace(r[0]) && !IsWhiteSpace(r[|r| - 1]))
    ensures exists a :: TrimmedAt(s, r, a)
    ensures forall x :: x in r ==> x in s
  {
    var t := TrimStart(s);
    var e := TrimEnd(t);
    assert e == [] || e[0] == t[0];
    TrimmedAtOffset(s);
    e
  }

  /** `Trim` cuts at the end of the whitespace prefix that `TrimStart` drops. */
  lemma TrimmedAtOffset(s: string)
    ensures TrimmedAt(s, TrimEnd(TrimStart(s)), |s| - |TrimStart(s)|)
  {
    var t := TrimStart(s);
    var e := TrimEnd(t);
    var a := |s| - |t|;
    TrimmedAtParts(s, t, e, a);
  }

  /** A block of `s` at offset `a` whose surroundings are whitespace is a trimmed form of `s`. */
  lemma TrimmedAtParts(s: string, t: string, e: string, a: int)
    requires 0 <= a <= |s| && t == s[a..] && e <= t
    requires forall i :: 0 <= i < a ==> IsWhiteSpace(s[i])
    requires forall i :: |e| <= i < |t| ==> IsWhiteSpace(t[i])
    ensures TrimmedAt(s, e, a)
  {
    forall i | a + |e| <= i < |s|
      ensures IsWhiteSpace(s[i])
    {
      assert s[i] == t[i - a];
    }
  }

  /** `r` is `s` with the whitespace-only prefix `s[..a]` and a whitespace-only suffix removed. */
  predicate TrimmedAt(s: string, r: string, a: int)
  {
    0 <= a && a + |r| <= |s| && r == s[a..a + |r|]
    && (forall i :: 0 <= i < a ==> IsWhiteSpace(s[i]))
    && (forall i :: a + |r| <= i < |s| ==> IsWhiteSpace(s[i]))
  }

  /** Dropping a character distributes over concatenation. */
  lemma {:induction false} RemoveConcat(a: string, b: string, c: char)
    ensures Remove(a + b, c) == Remove(a, c) + Remove(b, c)
  {
    if a == [] {
      assert a + b == b;
    } else {
      assert (a + b)[0] == a[0] && (a + b)[1..] == a[1..] + b;
      RemoveConcat(a[1..], b, c);
    }
  }

  /** Dropping a character the needle lacks keeps every occurrence of the needle. */
  lemma RemoveKeepsNeedle(s: string, needle: string, c: char)
    requires Contains(s, needle) && c !in needle
    ensures Contains(Remove(s, c), needle)
  {
    var k := ContainsWitness(s, needle);
    var a, b := s[..k], s[k + |needle|..];
    assert s == a + needle + b;
    RemoveConcat(a + needle, b, c);
    RemoveConcat(a, needle, c);
    RemoveAbsent(needle, c);
    var ra := Remove(a, c);
    assert Remove(s, c) == ra + needle + Remove(b, c);
    assert OccursAt(Remove(s, c), needle, |ra|) by {
      assert (ra + needle + Remove(b, c))[|ra|..|ra| + |needle|] == needle;
    }
    ContainsAt(Remove(s, c), needle, |ra|);
  }

  /** Leading whitespace is trimmed no further than a block that starts with a non-whitespace character. */
  lemma {:induction false} TrimStartAround(a: string, w: string, b: string) returns (a2: string)
    requires w != [] && !IsWhiteSpace(w[0])
    ensures TrimStart(a + w + b) == a2 + w + b
  {
    if a == [] {
      assert a + w + b == w + b;
      a2 := [];
    } else if IsWhiteSpace(a[0]) {
      assert (a + w + b)[1..] == a[1..] + w + b;
      a2 := TrimStartAround(a[1..], w, b);
    } else {
      a2 := a;
    }
  }

  /** Trailing whitespace is trimmed no further than a block that ends with a non-whitespace character. */
  lemma {:induction false} TrimEndAround(a: string, w: string, b: string) returns (b2: string)
    requires w != [] && !IsWhiteSpace(w[|w| - 1])
    ensures TrimEnd(a + w + b) == a + w + b2
  {
    if b == [] {
      assert a + w + b == a + w;
      b2 := [];
    } else if IsWhiteSpace(b[|b| - 1]) {
      assert (a + w + b)[..|a + w + b| - 1] == a + w + b[..|b| - 1];
      b2 := TrimEndAround(a, w, b[..|b| - 1]);
    } else {
      b2 := b;
    }
  }

  /** Trimming keeps every occurrence of a needle that neither starts nor ends with whitespace. */
  lemma TrimKeepsNeedle(s: string, needle: string)
    requires Contains(s, needle)
    requires needle != [] && !IsWhiteSpace(needle[0]) && !IsWhiteSpace(needle[|needle| - 1])
    ensures Contains(Trim(s), needle)
  {
    var k := ContainsWitness(s, needle);
    var a, b := s[..k], s[k + |needle|..];
    assert s == a + needle + b;
    var a2 := TrimStartAround(a, needle, b);
    var b2 := TrimEndAround(a2, needle, b);
    assert Trim(s) == a2 + needle + b2;
    assert OccursAt(Trim(s), needle, |a2|) by {
      assert (a2 + needle + b2)[|a2|..|a2| + |needle|] == needle;
    }
    ContainsAt(Trim(s), needle, |a2|);
  }

  function DigitChar(d: nat): (c: char)
    requires d < 10
    ensures '0' <= c <= '9' && c as int == '0' as int + d
  {
    "0123456789"[d]
  }

  /** `int.ToString()` for non-negative values: decimal digits, no leading zeros. */
  function NatToString(n: nat): (r: string)
    ensures |r| >= 1
    ensures forall i :: 0 <= i < |r| ==> '0' <= r[i] <= '9'
  {
    if n < 10 then [DigitChar(n)] else NatToString(n / 10) + [DigitChar(n % 10)]
  }

  /** Different numbers are written differently. */
  lemma {:induction false} NatToStringInjective(m: nat, n: nat)
    requires m != n
    ensures NatToString(m) != NatToString(n)
  {
    if m < 10 && n < 10 {
      assert NatToString(m)[0] == DigitChar(m) != DigitChar(n) == NatToString(n)[0];
    } else if m >= 10 && n >= 10 {
      var a, b := NatToString(m / 10), NatToString(n / 10);
      assert NatToString(m) == a + [DigitChar(m % 10)];
      assert NatToString(n) == b + [DigitChar(n % 10)];
      if m % 10 != n % 10 {
        assert NatToString(m)[|a|] == DigitChar(m % 10) != DigitChar(n % 10) == NatToString(n)[|b|];
      } else {
        NatToStringInjective(m / 10, n / 10);
        assert NatToString(m)[..|a|] == a && NatToString(n)[..|b|] == b;
      }
    }
  }
}
