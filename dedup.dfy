/**
 * First-occurrence-wins deduplication, shared by the content script's
 * tracker pass (`seenTrackers` set), the backend's requests-path tracker
 * loops (`seen_trackers` set) and the backend's in-page
 * `arr.findIndex(...) === i` filter.
 *
 * `Dedup` is the left-to-right pass with a set of seen keys; `KeepFirsts`
 * is the `findIndex` formulation (keep element i iff no earlier element has
 * its key). `DedupIsKeepFirsts` proves the two agree on every input.
 */
module Dedup {

  function KeySet<T, K>(s: seq<T>, key: T -> K): set<K> {
    set i | 0 <= i < |s| :: key(s[i])
  }

  /** No two elements share a key. */
  predicate UniqueKeys<T, K(==)>(s: seq<T>, key: T -> K) {
    forall i, j :: 0 <= i < j < |s| ==> key(s[i]) != key(s[j])
  }

  /** Element `i` is the first of `s` with its key (`findIndex` returns `i`). */
  predicate IsFirst<T, K(==)>(s: seq<T>, key: T -> K, i: int)
    requires 0 <= i < |s|
  {
    forall j :: 0 <= j < i ==> key(s[j]) != key(s[i])
  }

  /** The pass with a seen-set: an element is appended iff its key has not been seen. */
  function Dedup<T, K(==)>(s: seq<T>, key: T -> K): seq<T>
  {
    if |s| == 0 then []
    else
      var kept := Dedup(s[..|s| - 1], key);
      if key(s[|s| - 1]) in KeySet(kept, key) then kept else kept + [s[|s| - 1]]
  }

  /** The `findIndex` filter: keep `s[i]` iff it is the first element with its key. */
  function KeepFirsts<T, K(==)>(s: seq<T>, key: T -> K): seq<T>
  {
    if |s| == 0 then []
    else KeepFirsts(s[..|s| - 1], key) + (if IsFirst(s, key, |s| - 1) then [s[|s| - 1]] else [])
  }

  lemma KeySetSnoc<T, K>(s: seq<T>, x: T, key: T -> K)
    ensures KeySet(s + [x], key) == KeySet(s, key) + {key(x)}
  {
    var l, r := KeySet(s + [x], key), KeySet(s, key) + {key(x)};
    forall k | k in l ensures k in r {
      var i :| 0 <= i < |s| + 1 && key((s + [x])[i]) == k;
      if i < |s| { assert (s + [x])[i] == s[i]; }
    }
    forall k | k in r ensures k in l {
      if k == key(x) {
        assert (s + [x])[|s|] == x;
      } else {
        var i :| 0 <= i < |s| && key(s[i]) == k;
        assert (s + [x])[i] == s[i];
      }
    }
  }

  /** The pass keeps exactly the keys of its input. */
  lemma {:induction false} DedupKeySet<T, K>(s: seq<T>, key: T -> K)
    ensures KeySet(Dedup(s, key), key) == KeySet(s, key)
  {
    if |s| > 0 {
      var p, x := s[..|s| - 1], s[|s| - 1];
      assert s == p + [x];
      DedupKeySet(p, key);
      KeySetSnoc(p, x, key);
      var kept := Dedup(p, key);
      if key(x) !in KeySet(kept, key) {
        KeySetSnoc(kept, x, key);
      }
    }
  }

  /** The pass never keeps two elements with the same key. */
  lemma {:induction false} DedupUnique<T, K>(s: seq<T>, key: T -> K)
    ensures UniqueKeys(Dedup(s, key), key)
  {
    if |s| > 0 {
      var p, x := s[..|s| - 1], s[|s| - 1];
      DedupUnique(p, key);
      var kept := Dedup(p, key);
      if key(x) !in KeySet(kept, key) {
        var d := kept + [x];
        forall i, j | 0 <= i < j < |d| ensures key(d[i]) != key(d[j]) {
          if j == |kept| {
            assert d[i] == kept[i];
            assert key(kept[i]) in KeySet(kept, key);
          } else {
            assert d[i] == kept[i] && d[j] == kept[j];
          }
        }
      }
    }
  }

  /** The seen-set pass and the `findIndex` filter agree on every input. */
  lemma {:induction false} DedupIsKeepFirsts<T, K>(s: seq<T>, key: T -> K)
    ensures Dedup(s, key) == KeepFirsts(s, key)
  {
    if |s| > 0 {
      var n := |s|;
      var p, x := s[..n - 1], s[n - 1];
      DedupIsKeepFirsts(p, key);
      DedupKeySet(p, key);
      if key(x) in KeySet(p, key) {
        var j :| 0 <= j < n - 1 && key(p[j]) == key(x);
        assert s[j] == p[j];
        assert !IsFirst(s, key, n - 1);
      } else {
        forall j | 0 <= j < n - 1 ensures key(s[j]) != key(x) {
          assert s[j] == p[j];
          assert key(p[j]) in KeySet(p, key);
        }
        assert IsFirst(s, key, n - 1);
      }
    }
  }

  lemma IsFirstPrefix<T, K>(s: seq<T>, key: T -> K, n: int, j: int)
    requires 0 <= j < n <= |s|
    ensures IsFirst(s[..n], key, j) == IsFirst(s, key, j)
  {
    assert forall i :: 0 <= i <= j ==> s[..n][i] == s[i];
  }

  /** Every element the `findIndex` filter keeps is the first of its key in the input. */
  lemma {:induction false} KeepFirstsSound<T, K>(s: seq<T>, key: T -> K)
    ensures forall x :: x in KeepFirsts(s, key) ==> exists j :: 0 <= j < |s| && s[j] == x && IsFirst(s, key, j)
  {
    if |s| > 0 {
      var n := |s|;
      var p := s[..n - 1];
      KeepFirstsSound(p, key);
      forall x | x in KeepFirsts(s, key) ensures exists j :: 0 <= j < |s| && s[j] == x && IsFirst(s, key, j) {
        if x in KeepFirsts(p, key) {
          var j :| 0 <= j < |p| && p[j] == x && IsFirst(p, key, j);
          IsFirstPrefix(s, key, n - 1, j);
          assert s[j] == x && IsFirst(s, key, j);
        } else {
          assert x == s[n - 1] && IsFirst(s, key, n - 1);
        }
      }
    }
  }

  /** Every first occurrence of a key is kept by the `findIndex` filter. */
  lemma {:induction false} KeepFirstsComplete<T, K>(s: seq<T>, key: T -> K)
    ensures forall j :: 0 <= j < |s| && IsFirst(s, key, j) ==> s[j] in KeepFirsts(s, key)
  {
    if |s| > 0 {
      var n := |s|;
      var p := s[..n - 1];
      KeepFirstsComplete(p, key);
      forall j | 0 <= j < n && IsFirst(s, key, j) ensures s[j] in KeepFirsts(s, key) {
        if j < n - 1 {
          IsFirstPrefix(s, key, n - 1, j);
          assert p[j] == s[j];
          assert s[j] in KeepFirsts(p, key);
        }
      }
    }
  }

  /** Everything the pass keeps comes from its input. */
  lemma {:induction false} DedupFromInput<T, K>(s: seq<T>, key: T -> K)
    ensures forall x :: x in Dedup(s, key) ==> x in s
  {
    DedupIsKeepFirsts(s, key);
    KeepFirstsSound(s, key);
  }
}
