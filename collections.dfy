/**
 * Sequence operations the analyser takes from the JavaScript runtime:
 * `[...new Set(xs)]`, `Array.prototype.join`, `slice(0, n)`, `filter`
 * and `String.prototype.includes`.
 */
module Collections {

  predicate NoDuplicates<T(==)>(s: seq<T>) {
    forall i, j :: 0 <= i < j < |s| ==> s[i] != s[j]
  }

  /** The position of the first occurrence of x in s. */
  function FirstIndex<T(==)>(s: seq<T>, x: T): (i: nat)
    requires x in s
    ensures i < |s| && s[i] == x && x !in s[..i]
  {
    if s[0] == x then 0
    else
      var i := 1 + FirstIndex(s[1..], x);
      assert s[..i] == [s[0]] + s[1..][..i - 1];
      i
  }

  lemma {:induction false} FirstIndexOfPrefix<T>(s: seq<T>, t: seq<T>, x: T)
    requires x in s
    ensures x in s + t && FirstIndex(s + t, x) == FirstIndex(s, x)
  {
    var i := FirstIndex(s, x);
    var j := FirstIndex(s + t, x);
    assert (s + t)[i] == x;
  }

  /** `[...new Set(s)]`: the elements of s, each once, in the order of their first appearance. */
  function Dedup<T(==)>(s: seq<T>): (r: seq<T>)
    ensures |r| <= |s|
    ensures s != [] ==> r != [] && r[0] == s[0]
  {
    if s == [] then []
    else
      var d := Dedup(s[..|s| - 1]);
      if s[|s| - 1] in d then d else d + [s[|s| - 1]]
  }

  /** Dedup keeps exactly the elements of its input, each once. */
  lemma {:induction false} DedupMeaning<T>(s: seq<T>)
    ensures NoDuplicates(Dedup(s))
    ensures forall x :: x in Dedup(s) <==> x in s
  {
    if s != [] {
      var p, last := s[..|s| - 1], s[|s| - 1];
      DedupMeaning(p);
      assert s == p + [last];
    }
  }

  /** Dedup keeps the order of first appearance in its input. */
  lemma {:induction false} DedupKeepsFirstAppearanceOrder<T>(s: seq<T>)
    ensures forall x :: x in Dedup(s) ==> x in s
    ensures forall i, j :: 0 <= i < j < |Dedup(s)| ==>
      FirstIndex(s, Dedup(s)[i]) < FirstIndex(s, Dedup(s)[j])
  {
    DedupMeaning(s);
    if s != [] {
      var n := |s|;
      var p := s[..n - 1];
      assert s == p + [s[n - 1]];
      DedupKeepsFirstAppearanceOrder(p);
      DedupMeaning(p);
      var dp := Dedup(p);
      var d := Dedup(s);
      forall x | x in p
        ensures FirstIndex(s, x) == FirstIndex(p, x)
      {
        FirstIndexOfPrefix(p, [s[n - 1]], x);
      }
      forall i, j | 0 <= i < j < |d|
        ensures FirstIndex(s, d[i]) < FirstIndex(s, d[j])
      {
        if j < |dp| {
          assert d[i] == dp[i] && d[j] == dp[j];
        } else {
          assert d[j] == s[n - 1] && s[n - 1] !in p;
          assert d[i] == dp[i] && dp[i] in p;
        }
      }
    }
  }

  /** On a sequence without duplicates Dedup changes nothing. */
  lemma {:induction false} DedupOfDistinct<T>(s: seq<T>)
    requires NoDuplicates(s)
    ensures Dedup(s) == s
  {
    if s != [] {
      var p := s[..|s| - 1];
      DedupOfDistinct(p);
      assert s[|s| - 1] !in p;
      assert s == p + [s[|s| - 1]];
    }
  }

  /** Joining two duplicate-free sequences with no common element gives a duplicate-free sequence. */
  lemma {:induction false} NoDuplicatesConcat<T>(a: seq<T>, b: seq<T>)
    requires NoDuplicates(a) && NoDuplicates(b)
    requires forall i :: 0 <= i < |a| ==> a[i] !in b
    ensures NoDuplicates(a + b)
  {
    var ab := a + b;
    forall i, j | 0 <= i < j < |ab|
      ensures ab[i] != ab[j]
    {
      if j >= |a| && i < |a| {
        assert ab[j] == b[j - |a|] && ab[i] == a[i];
      }
    }
  }

  /** Concatenation regroups freely; stated on its own so that callers need not unfold their operands. */
  lemma {:induction false} ConcatAssoc<T>(x: seq<T>, y: seq<T>, z: seq<T>)
    ensures (x + y) + z == x + (y + z)
  {
  }

  /** x opens x + y, and y is what follows it. */
  lemma {:induction false} ConcatParts<T>(x: seq<T>, y: seq<T>)
    ensures x <= x + y
    ensures (x + y)[|x|..] == y
    ensures (x + y)[..|x|] == x
    ensures x + [] == x && [] + x == x
  {
  }

  /** a occurs in b in the same order, possibly with gaps. */
  predicate IsSubsequence<T(==)>(a: seq<T>, b: seq<T>)
    decreases |b|
  {
    if a == [] then true
    else if b == [] then false
    else if a[0] == b[0] then IsSubsequence(a[1..], b[1..])
    else IsSubsequence(a, b[1..])
  }

  lemma {:induction false} PrefixOfSubsequence<T>(a: seq<T>, b: seq<T>, n: nat)
    requires IsSubsequence(a, b) && n <= |a|
    ensures IsSubsequence(a[..n], b)
    decreases |b|
  {
    if n > 0 {
      assert a[..n][0] == a[0] && a[..n][1..] == a[1..][..n - 1];
      if a[0] == b[0] {
        PrefixOfSubsequence(a[1..], b[1..], n - 1);
      } else {
        PrefixOfSubsequence(a, b[1..], n);
      }
    }
  }

  /** `s.slice(0, n)`. */
  function Take<T>(s: seq<T>, n: nat): (r: seq<T>)
    ensures |r| == if |s| <= n then |s| else n
    ensures r <= s
  {
    if |s| <= n then s else s[..n]
  }

  /** `parts.join(sep)`. */
  function Join(parts: seq<string>, sep: string): (r: string)
    ensures parts == [] ==> r == ""
    ensures |parts| == 1 ==> r == parts[0]
  {
    if parts == [] then ""
    else if |parts| == 1 then parts[0]
    else parts[0] + sep + Join(parts[1..], sep)
  }

  /** `s.includes(sub)`. */
  function Contains(s: string, sub: string): (r: bool)
    ensures sub <= s ==> r
    ensures r ==> |sub| <= |s|
  {
    if sub <= s then true
    else if s == [] then false
    else Contains(s[1..], sub)
  }

  predicate OccursAt(s: string, sub: string, i: int) {
    0 <= i && i + |sub| <= |s| && s[i..i + |sub|] == sub
  }

  /** Contains holds exactly when sub occurs in s at some position. */
  lemma {:induction false} ContainsIffOccurs(s: string, sub: string)
    ensures Contains(s, sub) <==> exists i :: OccursAt(s, sub, i)
  {
    if sub <= s {
      assert s[0..|sub|] == sub;
      assert OccursAt(s, sub, 0);
    } else {
      assert !OccursAt(s, sub, 0);
      if s != [] {
        ContainsIffOccurs(s[1..], sub);
        if Contains(s[1..], sub) {
          var i :| OccursAt(s[1..], sub, i);
          assert s[i + 1..i + 1 + |sub|] == s[1..][i..i + |sub|];
          assert OccursAt(s, sub, i + 1);
        } else {
          forall i | 0 < i
            ensures !OccursAt(s, sub, i)
          {
            if OccursAt(s, sub, i) {
              assert s[i..i + |sub|] == s[1..][i - 1..i - 1 + |sub|];
              assert OccursAt(s[1..], sub, i - 1);
            }
          }
        }
      }
    }
  }

  /** The ASCII part of `toLowerCase`. */
  function LowerChar(c: char): char {
    if 'A' <= c <= 'Z' then (c as int + 32) as char else c
  }

  function ToLower(s: string): (r: string)
    ensures |r| == |s|
    ensures forall i :: 0 <= i < |s| ==> r[i] == LowerChar(s[i])
  {
    seq(|s|, i requires 0 <= i < |s| => LowerChar(s[i]))
  }
}
