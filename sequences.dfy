/**
 * Order-preserving filters shared by the pipeline's deduplication loops:
 * `KeepFirst` is what a loop over a list with a `seen` set computes when it
 * appends an item only if the item is admitted and its key is unseen.
 */
module Sequences {

  /** The keys of the items of `s`. */
  function Keys<T(==), K(==)>(s: seq<T>, key: T -> K): set<K>
  {
    set x | x in s :: key(x)
  }

  lemma KeysAppend<T, K>(s: seq<T>, x: T, key: T -> K)
    ensures Keys(s + [x], key) == Keys(s, key) + {key(x)}
  {
    assert forall y :: y in s + [x] <==> y in s || y == x;
  }

  /** The admitted items of `s` whose key was not seen before, in their original order. */
  function KeepFirst<T(==), K(==)>(s: seq<T>, key: T -> K, admit: T -> bool): seq<T>
    decreases |s|
  {
    if |s| == 0 then []
    else
      var kept := KeepFirst(s[..|s| - 1], key, admit);
      var x := s[|s| - 1];
      if admit(x) && key(x) !in Keys(kept, key) then kept + [x] else kept
  }

  /** `a` is `b` with some items removed, the rest in their original order. */
  predicate IsSubsequence<T(==)>(a: seq<T>, b: seq<T>)
    decreases |b|
  {
    |a| == 0
    || (|b| > 0
        && ((a[|a| - 1] == b[|b| - 1] && IsSubsequence(a[..|a| - 1], b[..|b| - 1]))
            || IsSubsequence(a, b[..|b| - 1])))
  }

  lemma {:induction false} SubsequenceMembers<T>(a: seq<T>, b: seq<T>)
    requires IsSubsequence(a, b)
    ensures forall x :: x in a ==> x in b
    decreases |b|
  {
    if |a| > 0 {
      var b' := b[..|b| - 1];
      if a[|a| - 1] == b[|b| - 1] && IsSubsequence(a[..|a| - 1], b') {
        SubsequenceMembers(a[..|a| - 1], b');
        assert forall x :: x in a ==> x in a[..|a| - 1] || x == a[|a| - 1];
      } else {
        SubsequenceMembers(a, b');
      }
      assert forall x :: x in b' ==> x in b;
    }
  }

  /** A subsequence of a list that is non-increasing by `key` is non-increasing by `key`. */
  lemma {:induction false} SubsequenceKeepsNonIncreasing<T>(a: seq<T>, b: seq<T>, key: T -> real)
    requires IsSubsequence(a, b)
    requires forall i, j :: 0 <= i < j < |b| ==> key(b[j]) <= key(b[i])
    ensures forall i, j :: 0 <= i < j < |a| ==> key(a[j]) <= key(a[i])
    decreases |b|
  {
    if |a| > 0 {
      var b' := b[..|b| - 1];
      assert forall i, j :: 0 <= i < j < |b'| ==> key(b'[j]) <= key(b'[i]) by {
        assert forall i :: 0 <= i < |b'| ==> b'[i] == b[i];
      }
      if a[|a| - 1] == b[|b| - 1] && IsSubsequence(a[..|a| - 1], b') {
        var a' := a[..|a| - 1];
        SubsequenceKeepsNonIncreasing(a', b', key);
        SubsequenceMembers(a', b');
        forall i | 0 <= i < |a'|
          ensures key(a[|a| - 1]) <= key(a[i])
        {
          assert a[i] == a'[i] && a'[i] in b';
          var k :| 0 <= k < |b'| && b'[k] == a'[i];
          assert b[k] == a[i];
        }
      } else {
        SubsequenceKeepsNonIncreasing(a, b', key);
      }
    }
  }

  /** No two items of `r` share a key. */
  ghost predicate DistinctKeys<T, K>(r: seq<T>, key: T -> K)
  {
    forall i, j :: 0 <= i < j < |r| ==> key(r[i]) != key(r[j])
  }

  /** No two kept items share a key. */
  lemma {:induction false} KeepFirstDistinct<T, K>(s: seq<T>, key: T -> K, admit: T -> bool)
    ensures DistinctKeys(KeepFirst(s, key, admit), key)
    decreases |s|
  {
    if |s| > 0 {
      var kept := KeepFirst(s[..|s| - 1], key, admit);
      KeepFirstDistinct(s[..|s| - 1], key, admit);
      var x := s[|s| - 1];
      if admit(x) && key(x) !in Keys(kept, key) {
        var r := kept + [x];
        assert r == KeepFirst(s, key, admit);
        forall i, j | 0 <= i < j < |r|
          ensures key(r[i]) != key(r[j])
        {
          if j == |kept| {
            assert r[i] == kept[i] && kept[i] in kept && r[j] == x;
            assert key(kept[i]) in Keys(kept, key);
            assert key(r[i]) == key(kept[i]) && key(r[j]) == key(x);
          } else {
            assert r[i] == kept[i] && r[j] == kept[j];
            assert key(kept[i]) != key(kept[j]);
          }
        }
      }
    }
  }

  /** The kept items are admitted items of `s`, in their original order. */
  lemma {:induction false} KeepFirstSubsequence<T, K>(s: seq<T>, key: T -> K, admit: T -> bool)
    ensures IsSubsequence(KeepFirst(s, key, admit), s)
    ensures forall x :: x in KeepFirst(s, key, admit) ==> admit(x)
    decreases |s|
  {
    if |s| > 0 {
      var init := s[..|s| - 1];
      var kept := KeepFirst(init, key, admit);
      KeepFirstSubsequence(init, key, admit);
      var x := s[|s| - 1];
      if admit(x) && key(x) !in Keys(kept, key) {
        var r := kept + [x];
        assert r[..|r| - 1] == kept;
        assert forall y :: y in r ==> y in kept || y == x;
      }
    }
  }

  /** Every admitted item of `s` has its key among the kept items. */
  lemma {:induction false} KeepFirstCovers<T, K>(s: seq<T>, key: T -> K, admit: T -> bool)
    ensures forall x :: x in s && admit(x) ==> key(x) in Keys(KeepFirst(s, key, admit), key)
    decreases |s|
  {
    if |s| > 0 {
      var init := s[..|s| - 1];
      var kept := KeepFirst(init, key, admit);
      KeepFirstCovers(init, key, admit);
      var x := s[|s| - 1];
      var r := KeepFirst(s, key, admit);
      if admit(x) && key(x) !in Keys(kept, key) {
        KeysAppend(kept, x, key);
      }
      assert Keys(kept, key) <= Keys(r, key) by {
        if admit(x) && key(x) !in Keys(kept, key) { KeysAppend(kept, x, key); }
      }
      assert forall y :: y in s ==> y in init || y == x;
    }
  }

  /**
   * Each kept item is the first admitted item of `s` with its key: it occurs
   * in `s` at a position before which no admitted item has the same key.
   */
  lemma {:induction false} KeepFirstIsFirst<T, K>(s: seq<T>, key: T -> K, admit: T -> bool, y: T)
    requires y in KeepFirst(s, key, admit)
    ensures exists i :: 0 <= i < |s| && s[i] == y
                        && (forall j :: 0 <= j < i && admit(s[j]) ==> key(s[j]) != key(y))
    decreases |s|
  {
    var init := s[..|s| - 1];
    var kept := KeepFirst(init, key, admit);
    var x := s[|s| - 1];
    if y in kept {
      KeepFirstIsFirst(init, key, admit, y);
      var i :| 0 <= i < |init| && init[i] == y
               && (forall j :: 0 <= j < i && admit(init[j]) ==> key(init[j]) != key(y));
      assert s[i] == y;
      assert forall j :: 0 <= j < i ==> s[j] == init[j];
    } else {
      assert y == x && admit(x) && key(x) !in Keys(kept, key);
      KeepFirstCovers(init, key, admit);
      forall j | 0 <= j < |s| - 1 && admit(s[j])
        ensures key(s[j]) != key(y)
      {
        assert s[j] == init[j] && init[j] in init;
      }
      assert s[|s| - 1] == y;
    }
  }

  /** The items of `s` satisfying `p`, in order: what a loop appending the passing items builds. */
  function Filter<T>(s: seq<T>, p: T -> bool): (r: seq<T>)
    ensures |r| <= |s|
    ensures forall x :: x in r ==> x in s && p(x)
    decreases |s|
  {
    if |s| == 0 then []
    else Filter(s[..|s| - 1], p) + (if p(s[|s| - 1]) then [s[|s| - 1]] else [])
  }

  /** Nothing is filtered out exactly when every item passes; nothing is kept exactly when none does. */
  lemma FilterEmptyIff<T>(s: seq<T>, p: T -> bool)
    ensures Filter(s, p) == [] <==> forall i :: 0 <= i < |s| ==> !p(s[i])
    ensures Filter(s, p) == s <==> forall i :: 0 <= i < |s| ==> p(s[i])
  {
    FilterNoneIff(s, p);
    FilterAllIff(s, p);
  }

  lemma {:induction false} FilterNoneIff<T>(s: seq<T>, p: T -> bool)
    ensures Filter(s, p) == [] <==> forall i :: 0 <= i < |s| ==> !p(s[i])
    decreases |s|
  {
    if |s| > 0 {
      var init := s[..|s| - 1];
      var last := s[|s| - 1];
      FilterNoneIff(init, p);
      assert forall i :: 0 <= i < |init| ==> init[i] == s[i];
      assert Filter(s, p) == Filter(init, p) + (if p(last) then [last] else []);
    }
  }

  lemma {:induction false} FilterAllIff<T>(s: seq<T>, p: T -> bool)
    ensures Filter(s, p) == s <==> forall i :: 0 <= i < |s| ==> p(s[i])
    decreases |s|
  {
    if |s| > 0 {
      var init := s[..|s| - 1];
      var last := s[|s| - 1];
      var f := Filter(s, p);
      FilterAllIff(init, p);
      assert s == init + [last];
      if forall i :: 0 <= i < |s| ==> p(s[i]) {
        assert forall i :: 0 <= i < |init| ==> p(init[i]) by {
          forall i | 0 <= i < |init| ensures p(init[i]) { assert init[i] == s[i]; }
        }
        assert p(last);
      }
      if f == s {
        if p(last) {
          assert f == Filter(init, p) + [last];
          assert Filter(init, p) == f[..|s| - 1] == init;
          forall i | 0 <= i < |s| ensures p(s[i]) {
            if i < |init| { assert s[i] == init[i]; }
          }
        }
      }
    }
  }

  /** The filtered list holds exactly the passing items of the original. */
  lemma {:induction false} FilterMembers<T>(s: seq<T>, p: T -> bool)
    ensures forall x :: x in Filter(s, p) <==> x in s && p(x)
    decreases |s|
  {
    if |s| > 0 {
      var init := s[..|s| - 1];
      FilterMembers(init, p);
      assert forall x :: x in s <==> x in init || x == s[|s| - 1] by {
        assert s == init + [s[|s| - 1]];
      }
    }
  }

  /** The filtered list is a subsequence of the original. */
  lemma {:induction false} FilterSubsequence<T>(s: seq<T>, p: T -> bool)
    ensures IsSubsequence(Filter(s, p), s)
    decreases |s|
  {
    if |s| > 0 {
      var init := s[..|s| - 1];
      FilterSubsequence(init, p);
      var f := Filter(s, p);
      if p(s[|s| - 1]) {
        assert f == Filter(init, p) + [s[|s| - 1]];
        assert f[..|f| - 1] == Filter(init, p) && f[|f| - 1] == s[|s| - 1];
      } else {
        assert Filter(init, p) + [] == Filter(init, p);
        assert f == Filter(init, p);
        assert IsSubsequence(f, s[..|s| - 1]);
      }
    }
  }

  lemma AppendToEmpty<T>(x: T)
    ensures [] + [x] == [x]
  {
  }

  lemma AppendNothing<T>(s: seq<T>)
    ensures s + [] == s
  {
  }

  /** `[a]` when `pa`, `[b]` when `pb`, `[c]` when `pc`, in that order: where each item lands. */
  lemma OptionalItems<T>(a: T, b: T, c: T, pa: bool, pb: bool, pc: bool)
    ensures var x := (if pa then [a] else []) + (if pb then [b] else []) + (if pc then [c] else []);
            && |x| == (if pa then 1 else 0) + (if pb then 1 else 0) + (if pc then 1 else 0)
            && (pa ==> x[0] == a)
            && (pb ==> x[if pa then 1 else 0] == b)
            && (pc ==> x[|x| - 1] == c)
  {
  }

  /** The items of `b + x` past `|b|` are those of `x`, and `b` is its prefix. */
  lemma AppendParts<T>(b: seq<T>, x: seq<T>)
    ensures (b + x)[..|b|] == b
    ensures forall k :: 0 <= k < |x| ==> (b + x)[|b| + k] == x[k]
  {
  }
}
