/** Concatenating a sequence of sequences. */
module Sequences {

  function Flatten<T>(ss: seq<seq<T>>): seq<T> {
    if ss == [] then [] else Flatten(ss[..|ss| - 1]) + ss[|ss| - 1]
  }

  lemma {:induction false} FlattenSplit<T>(a: seq<seq<T>>, b: seq<seq<T>>)
    ensures Flatten(a + b) == Flatten(a) + Flatten(b)
  {
    if b == [] {
      assert a + b == a;
    } else {
      var front, last := b[..|b| - 1], b[|b| - 1];
      assert (a + b)[..|a + b| - 1] == a + front && (a + b)[|a + b| - 1] == last;
      FlattenSplit(a, front);
      assert (Flatten(a) + Flatten(front)) + last == Flatten(a) + (Flatten(front) + last);
    }
  }

  lemma FlattenOne<T>(x: seq<T>)
    ensures Flatten([x]) == x
  {
    assert [x][..0] == [] && Flatten([x]) == [] + x;
  }

  lemma FlattenFirst<T>(ss: seq<seq<T>>)
    requires ss != []
    ensures Flatten(ss) == ss[0] + Flatten(ss[1..])
  {
    assert ss == [ss[0]] + ss[1..];
    FlattenSplit([ss[0]], ss[1..]);
    FlattenOne(ss[0]);
  }

  lemma TakeOut<T>(b: seq<seq<T>>, x: seq<T>) returns (rest: seq<seq<T>>)
    requires x in b
    ensures |rest| == |b| - 1 && multiset(rest) == multiset(b) - multiset{x}
    ensures multiset(Flatten(b)) == multiset(Flatten(rest)) + multiset(x)
  {
    var k :| 0 <= k < |b| && b[k] == x;
    rest := b[..k] + b[k + 1..];
    assert b == b[..k] + [x] + b[k + 1..];
    FlattenSplit(b[..k] + [x], b[k + 1..]);
    FlattenSplit(b[..k], [x]);
    FlattenSplit(b[..k], b[k + 1..]);
    FlattenOne(x);
    assert Flatten(b) == Flatten(b[..k]) + x + Flatten(b[k + 1..]);
  }

  lemma {:induction false} FlattenPermuted<T>(a: seq<seq<T>>, b: seq<seq<T>>)
    requires multiset(a) == multiset(b)
    ensures multiset(Flatten(a)) == multiset(Flatten(b))
    decreases |a|
  {
    if a == [] {
      assert |multiset(b)| == 0;
    } else {
      var last, front := a[|a| - 1], a[..|a| - 1];
      assert a == front + [last];
      assert last in multiset(b);
      var rest := TakeOut(b, last);
      assert multiset(front) == multiset(a) - multiset{last};
      FlattenPermuted(front, rest);
    }
  }

  /** Where part `i` sits in the whole. */
  lemma FlattenSlice<T>(ss: seq<seq<T>>, i: nat)
    requires i < |ss|
    ensures |Flatten(ss[..i + 1])| == |Flatten(ss[..i])| + |ss[i]| <= |Flatten(ss)|
    ensures Flatten(ss)[|Flatten(ss[..i])|..|Flatten(ss[..i + 1])|] == ss[i]
  {
    assert ss[..i + 1][..i] == ss[..i];
    assert ss == ss[..i + 1] + ss[i + 1..];
    FlattenSplit(ss[..i + 1], ss[i + 1..]);
  }

  lemma FlattenPrefix<T>(ss: seq<seq<T>>, i: nat, j: nat)
    requires i <= j <= |ss|
    ensures |Flatten(ss[..i])| <= |Flatten(ss[..j])| <= |Flatten(ss)|
  {
    assert ss[..j] == ss[..i] + ss[i..j] && ss == ss[..j] + ss[j..];
    FlattenSplit(ss[..i], ss[i..j]);
    FlattenSplit(ss[..j], ss[j..]);
  }

  /** `s` without its `k`-th element. */
  function Without<T>(s: seq<T>, k: nat): (r: seq<T>)
    requires k < |s|
    ensures |r| == |s| - 1
  {
    s[..k] + s[k + 1..]
  }

  lemma MultisetAppend<T>(s: seq<T>, x: T)
    ensures multiset(s + [x]) == multiset(s) + multiset{x}
  {
  }

  lemma MultisetInsert<T>(a: seq<T>, x: T, b: seq<T>)
    ensures multiset(a + [x] + b) == multiset(a + b) + multiset{x}
  {
    assert multiset(a + [x] + b) == multiset(a) + multiset{x} + multiset(b);
    assert multiset(a + b) == multiset(a) + multiset(b);
  }

  lemma WithoutMultiset<T>(s: seq<T>, k: nat)
    requires k < |s|
    ensures multiset(Without(s, k)) == multiset(s) - multiset{s[k]}
  {
    assert s == s[..k] + [s[k]] + s[k + 1..];
  }

  lemma WithoutLast<T>(s: seq<T>, k: nat)
    requires k < |s|
    ensures k == |s| - 1 ==> Without(s, k) == s[..|s| - 1]
    ensures k < |s| - 1 ==> Without(s, k)[|s| - 2] == s[|s| - 1] && Without(s, k)[..|s| - 2] == Without(s[..|s| - 1], k)
  {
  }
}
