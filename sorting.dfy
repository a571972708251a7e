/** The sorted key list that the validator takes of a map with string keys
    (`slices.Sorted(maps.Keys(m))`). Go orders strings byte by byte; for
    UTF-8 text that is the order of the code points, which is the order
    `Below` defines on Dafny's `char` sequences. */
module Sorting {

  /** Lexicographic "strictly less than" on strings. */
  predicate Below(a: string, b: string)
  {
    |b| > 0 && (|a| == 0 || a[0] < b[0] || (a[0] == b[0] && Below(a[1..], b[1..])))
  }

  lemma {:induction false} BelowIrreflexive(a: string)
    ensures !Below(a, a)
  {
    if |a| > 0 {
      BelowIrreflexive(a[1..]);
    }
  }

  lemma {:induction false} BelowTransitive(a: string, b: string, c: string)
    requires Below(a, b) && Below(b, c)
    ensures Below(a, c)
  {
    if |a| > 0 && a[0] == b[0] && b[0] == c[0] {
      BelowTransitive(a[1..], b[1..], c[1..]);
    }
  }

  lemma {:induction false} BelowTotal(a: string, b: string)
    ensures a == b || Below(a, b) || Below(b, a)
  {
    if |a| > 0 && |b| > 0 && a[0] == b[0] {
      BelowTotal(a[1..], b[1..]);
      if a[1..] == b[1..] {
        assert a == [a[0]] + a[1..] && b == [b[0]] + b[1..];
      }
    }
  }

  /** `m` is the least element of `keys`. */
  predicate IsLeast(m: string, keys: set<string>) {
    m in keys && forall k :: k in keys ==> !Below(k, m)
  }

  lemma {:induction false} LeastExists(keys: set<string>)
    requires keys != {}
    ensures exists m :: IsLeast(m, keys)
    decreases keys
  {
    var x :| x in keys;
    BelowIrreflexive(x);
    if keys != {x} {
      var rest := keys - {x};
      LeastExists(rest);
      var m :| IsLeast(m, rest);
      if Below(x, m) {
        forall k | k in keys
          ensures !Below(k, x)
        {
          if k != x && Below(k, x) {
            BelowTransitive(k, x, m);
          }
        }
        assert IsLeast(x, keys);
      } else {
        assert IsLeast(m, keys);
      }
    } else {
      assert IsLeast(x, keys);
    }
  }

  lemma LeastUnique(keys: set<string>)
    ensures forall m, n :: IsLeast(m, keys) && IsLeast(n, keys) ==> m == n
  {
    forall m, n | IsLeast(m, keys) && IsLeast(n, keys) ensures m == n {
      BelowTotal(m, n);
    }
  }

  predicate StrictlyIncreasing(s: seq<string>) {
    forall i, j :: 0 <= i < j < |s| ==> Below(s[i], s[j])
  }

  /** The keys in increasing order, each once. */
  function SortedKeys(keys: set<string>): (r: seq<string>)
    ensures StrictlyIncreasing(r)
    ensures forall k :: k in r <==> k in keys
    ensures |r| == |keys|
    decreases keys
  {
    if keys == {} then []
    else
      LeastExists(keys);
      LeastUnique(keys);
      var m :| IsLeast(m, keys);
      var rest := SortedKeys(keys - {m});
      assert forall j :: 0 <= j < |rest| ==> Below(m, rest[j]) by {
        forall j | 0 <= j < |rest| ensures Below(m, rest[j]) {
          BelowTotal(m, rest[j]);
        }
      }
      [m] + rest
  }

  /** An element at a valid index is an element of the sequence. */
  lemma ElementOf(t: seq<string>, i: int)
    ensures 0 <= i < |t| ==> t[i] in t
  {
  }

  predicate Distinct(s: seq<string>) {
    forall i, j :: 0 <= i < j < |s| ==> s[i] != s[j]
  }

  lemma DistinctInit(s: seq<string>)
    requires Distinct(s) && s != []
    ensures Distinct(s[..|s| - 1]) && s[|s| - 1] !in s[..|s| - 1]
  {
    assert forall k :: 0 <= k < |s| - 1 ==> s[..|s| - 1][k] == s[k];
  }

  /** `order` lists every key of `keys` exactly once (an iteration order). */
  ghost predicate Enumerates(order: seq<string>, keys: set<string>) {
    && (forall k :: k in order <==> k in keys)
    && (forall i, j :: 0 <= i < j < |order| ==> order[i] != order[j])
  }

  /** Part way through visiting `keys`: `order` lists the keys visited so
      far, each once, and `remaining` the keys still to visit. */
  ghost predicate Visiting(order: seq<string>, remaining: set<string>, keys: set<string>) {
    && remaining <= keys
    && (forall k :: k in order <==> k in keys && k !in remaining)
    && Distinct(order)
  }

  lemma VisitStart(keys: set<string>)
    ensures Visiting([], keys, keys)
  {
  }

  lemma VisitNext(order: seq<string>, remaining: set<string>, keys: set<string>, k: string)
    requires Visiting(order, remaining, keys) && k in remaining
    ensures Visiting(order + [k], remaining - {k}, keys)
  {
    assert forall i :: 0 <= i < |order| ==> (order + [k])[i] == order[i];
  }

  lemma VisitDone(order: seq<string>, keys: set<string>)
    requires Visiting(order, {}, keys)
    ensures Enumerates(order, keys)
  {
  }

  lemma SortedKeysEnumerates(keys: set<string>)
    ensures Enumerates(SortedKeys(keys), keys)
  {
    var r := SortedKeys(keys);
    forall i, j | 0 <= i < j < |r| ensures r[i] != r[j] {
      BelowIrreflexive(r[i]);
    }
  }

  /** A strictly increasing sequence is determined by its elements. */
  lemma {:induction false} IncreasingUnique(s: seq<string>, t: seq<string>)
    requires StrictlyIncreasing(s) && StrictlyIncreasing(t)
    requires forall k :: k in s <==> k in t
    ensures s == t
  {
    if s == [] {
      ElementOf(t, 0);
    } else {
      assert s[0] in t;
      if s[0] != t[0] {
        assert s[0] in t && t[0] in s;
        var i :| 0 <= i < |t| && t[i] == s[0];
        var j :| 0 <= j < |s| && s[j] == t[0];
        assert Below(t[0], s[0]) by { assert i > 0; }
        assert Below(s[0], t[0]) by { assert j > 0; }
        BelowTransitive(s[0], t[0], s[0]);
        BelowIrreflexive(s[0]);
      }
      forall k ensures k in s[1..] <==> k in t[1..] {
        if k in s[1..] {
          var i :| 1 <= i < |s| && s[i] == k;
          assert Below(s[0], k);
          BelowIrreflexive(k);
          assert k in s && k in t;
          var i' :| 0 <= i' < |t| && t[i'] == k;
          assert i' > 0 && t[1..][i' - 1] == k;
        }
        if k in t[1..] {
          var i :| 1 <= i < |t| && t[i] == k;
          assert Below(t[0], k);
          BelowIrreflexive(k);
          assert k in t && k in s;
          var i' :| 0 <= i' < |s| && s[i'] == k;
          assert i' > 0 && s[1..][i' - 1] == k;
        }
      }
      IncreasingUnique(s[1..], t[1..]);
      assert s == [s[0]] + s[1..] && t == [t[0]] + t[1..];
    }
  }
}
