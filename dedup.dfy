/** First-occurrence deduplication: walk a sequence in order, keep an element when
    its key has not been seen yet, and remember the key. The real-time URB worker
    (keyed on the URB identity string, with the seen-set carried across parses)
    and the UI device and row dedupe loops all follow this scheme. */
module Dedup {

  /** The keys of the elements of `xs`. */
  function KeySet<T, K>(xs: seq<T>, key: T -> K): set<K> {
    set i | 0 <= i < |xs| :: key(xs[i])
  }

  /** The elements of `xs`, in order, whose key is neither in `seen` nor the key of
      an earlier element. */
  function KeepFirst<T, K>(xs: seq<T>, key: T -> K, seen: set<K>): seq<T> {
    if xs == [] then []
    else if key(xs[0]) in seen then KeepFirst(xs[1..], key, seen)
    else [xs[0]] + KeepFirst(xs[1..], key, seen + {key(xs[0])})
  }

  /** No two elements of `xs` share a key. */
  predicate DistinctKeys<T, K(==)>(xs: seq<T>, key: T -> K) {
    forall i, j :: 0 <= i < j < |xs| ==> key(xs[i]) != key(xs[j])
  }

  /** `ys` can be obtained from `xs` by deleting elements. */
  ghost predicate IsSubsequence<T>(ys: seq<T>, xs: seq<T>) {
    if ys == [] then true
    else if xs == [] then false
    else (ys[0] == xs[0] && IsSubsequence(ys[1..], xs[1..])) || IsSubsequence(ys, xs[1..])
  }

  lemma KeySetStep<T, K>(xs: seq<T>, key: T -> K, i: nat)
    requires i < |xs|
    ensures KeySet(xs[..i + 1], key) == KeySet(xs[..i], key) + {key(xs[i])}
  {
    var a, b := xs[..i + 1], xs[..i];
    assert a == b + [xs[i]];
    forall k | k in KeySet(a, key) ensures k in KeySet(b, key) + {key(xs[i])} {
      var j :| 0 <= j < |a| && key(a[j]) == k;
      if j < i { assert key(b[j]) == k; }
    }
    forall k | k in KeySet(b, key) + {key(xs[i])} ensures k in KeySet(a, key) {
      if k == key(xs[i]) { assert key(a[i]) == k; }
      else { var j :| 0 <= j < |b| && key(b[j]) == k; assert key(a[j]) == k; }
    }
  }

  lemma KeySetCons<T, K>(xs: seq<T>, key: T -> K)
    requires xs != []
    ensures KeySet(xs, key) == {key(xs[0])} + KeySet(xs[1..], key)
  {
    forall k | k in KeySet(xs, key) ensures k in {key(xs[0])} + KeySet(xs[1..], key) {
      var j :| 0 <= j < |xs| && key(xs[j]) == k;
      if j > 0 { assert key(xs[1..][j - 1]) == k; }
    }
    forall k | k in KeySet(xs[1..], key) ensures k in KeySet(xs, key) {
      var j :| 0 <= j < |xs[1..]| && key(xs[1..][j]) == k;
      assert key(xs[j + 1]) == k;
    }
  }

  /** Processing one more element extends the kept prefix by at most that element;
      this is what lets a loop compute `KeepFirst` front to back. */
  lemma {:induction false} KeepFirstSnoc<T, K>(xs: seq<T>, x: T, key: T -> K, seen: set<K>)
    ensures KeepFirst(xs + [x], key, seen)
         == KeepFirst(xs, key, seen)
            + (if key(x) in seen + KeySet(xs, key) then [] else [x])
    decreases |xs|
  {
    if xs == [] {
      assert KeySet(xs, key) == {};
      assert ([] + [x])[1..] == [];
    } else {
      var ys := xs + [x];
      assert ys[0] == xs[0] && ys[1..] == xs[1..] + [x];
      KeySetCons(xs, key);
      if key(xs[0]) in seen {
        KeepFirstSnoc(xs[1..], x, key, seen);
      } else {
        KeepFirstSnoc(xs[1..], x, key, seen + {key(xs[0])});
      }
    }
  }

  /** The step a front-to-back loop over `xs` makes at index `i`. */
  lemma KeepFirstPrefixStep<T, K>(xs: seq<T>, key: T -> K, seen: set<K>, i: nat)
    requires i < |xs|
    ensures seen + KeySet(xs[..i + 1], key) == seen + KeySet(xs[..i], key) + {key(xs[i])}
    ensures KeepFirst(xs[..i + 1], key, seen)
         == KeepFirst(xs[..i], key, seen)
            + (if key(xs[i]) in seen + KeySet(xs[..i], key) then [] else [xs[i]])
  {
    KeySetStep(xs, key, i);
    assert xs[..i + 1] == xs[..i] + [xs[i]];
    KeepFirstSnoc(xs[..i], xs[i], key, seen);
  }

  /** Nothing kept has a key from `seen`, and no two kept elements share a key. */
  lemma {:induction false} KeepFirstDistinct<T, K>(xs: seq<T>, key: T -> K, seen: set<K>)
    ensures forall i :: 0 <= i < |KeepFirst(xs, key, seen)| ==> key(KeepFirst(xs, key, seen)[i]) !in seen
    ensures forall i, j :: 0 <= i < j < |KeepFirst(xs, key, seen)| ==>
              key(KeepFirst(xs, key, seen)[i]) != key(KeepFirst(xs, key, seen)[j])
    decreases |xs|
  {
    if xs != [] {
      if key(xs[0]) in seen {
        KeepFirstDistinct(xs[1..], key, seen);
      } else {
        KeepFirstDistinct(xs[1..], key, seen + {key(xs[0])});
      }
    }
  }

  /** The kept keys are exactly the keys of `xs` that were not already seen. */
  lemma {:induction false} KeepFirstKeys<T, K>(xs: seq<T>, key: T -> K, seen: set<K>)
    ensures KeySet(KeepFirst(xs, key, seen), key) == KeySet(xs, key) - seen
    decreases |xs|
  {
    var r := KeepFirst(xs, key, seen);
    if xs == [] {
      assert KeySet(r, key) == {};
    } else {
      KeySetCons(xs, key);
      if key(xs[0]) in seen {
        KeepFirstKeys(xs[1..], key, seen);
      } else {
        KeepFirstKeys(xs[1..], key, seen + {key(xs[0])});
        KeySetCons(r, key);
        assert r[1..] == KeepFirst(xs[1..], key, seen + {key(xs[0])});
      }
    }
  }

  /** The kept elements appear in `xs` in the same order. */
  lemma {:induction false} KeepFirstSubsequence<T, K>(xs: seq<T>, key: T -> K, seen: set<K>)
    ensures IsSubsequence(KeepFirst(xs, key, seen), xs)
    decreases |xs|
  {
    if xs != [] {
      var r := KeepFirst(xs, key, seen);
      if key(xs[0]) in seen {
        KeepFirstSubsequence(xs[1..], key, seen);
      } else {
        KeepFirstSubsequence(xs[1..], key, seen + {key(xs[0])});
        assert r[1..] == KeepFirst(xs[1..], key, seen + {key(xs[0])});
      }
    }
  }

  /** Every kept element is the first element of `xs` with its key, and that key was
      not already seen. */
  lemma {:induction false} KeepFirstIsFirstOccurrence<T, K>(xs: seq<T>, key: T -> K, seen: set<K>, j: nat)
    requires j < |KeepFirst(xs, key, seen)|
    ensures exists i :: 0 <= i < |xs| && KeepFirst(xs, key, seen)[j] == xs[i]
              && key(xs[i]) !in seen
              && forall k :: 0 <= k < i ==> key(xs[k]) != key(xs[i])
    decreases |xs|
  {
    var r := KeepFirst(xs, key, seen);
    if key(xs[0]) in seen {
      KeepFirstIsFirstOccurrence(xs[1..], key, seen, j);
      var i :| 0 <= i < |xs[1..]| && r[j] == xs[1..][i] && key(xs[1..][i]) !in seen
               && forall k :: 0 <= k < i ==> key(xs[1..][k]) != key(xs[1..][i]);
      assert r[j] == xs[i + 1];
      forall k | 0 <= k < i + 1 ensures key(xs[k]) != key(xs[i + 1]) {
        if k > 0 { assert xs[k] == xs[1..][k - 1]; }
      }
    } else if j == 0 {
      assert r[0] == xs[0];
    } else {
      var seen' := seen + {key(xs[0])};
      assert r[j] == KeepFirst(xs[1..], key, seen')[j - 1];
      KeepFirstIsFirstOccurrence(xs[1..], key, seen', j - 1);
      var i :| 0 <= i < |xs[1..]| && r[j] == xs[1..][i] && key(xs[1..][i]) !in seen'
               && forall k :: 0 <= k < i ==> key(xs[1..][k]) != key(xs[1..][i]);
      assert r[j] == xs[i + 1];
      forall k | 0 <= k < i + 1 ensures key(xs[k]) != key(xs[i + 1]) {
        if k > 0 { assert xs[k] == xs[1..][k - 1]; }
      }
    }
  }

  /** Whether `xs[i]` is new: its key is neither in `seen` nor the key of an earlier
      element. */
  predicate IsNewAt<T, K>(xs: seq<T>, key: T -> K, seen: set<K>, i: nat)
    requires i < |xs|
  {
    key(xs[i]) !in seen + KeySet(xs[..i], key)
  }

  /** The position, at or after `i`, of the first new element on which `fails` holds,
      or `|xs|` when there is none. */
  function FirstFailureFrom<T, K>(xs: seq<T>, key: T -> K, seen: set<K>, fails: T -> bool, i: nat): (r: nat)
    requires i <= |xs|
    decreases |xs| - i
  {
    if i == |xs| then |xs|
    else if IsNewAt(xs, key, seen, i) && fails(xs[i]) then i
    else FirstFailureFrom(xs, key, seen, fails, i + 1)
  }

  function FirstFailure<T, K>(xs: seq<T>, key: T -> K, seen: set<K>, fails: T -> bool): nat {
    FirstFailureFrom(xs, key, seen, fails, 0)
  }

  /** `FirstFailure` finds the first new element that fails: before it no new element
      fails, and it is new and fails unless it is `|xs|`. */
  lemma {:induction false} FirstFailureFromIs<T, K>(xs: seq<T>, key: T -> K, seen: set<K>, fails: T -> bool, i: nat)
    requires i <= |xs|
    ensures var r := FirstFailureFrom(xs, key, seen, fails, i);
      && i <= r <= |xs|
      && (r < |xs| ==> IsNewAt(xs, key, seen, r) && fails(xs[r]))
      && forall j :: i <= j < r ==> !(IsNewAt(xs, key, seen, j) && fails(xs[j]))
    decreases |xs| - i
  {
    if i < |xs| && !(IsNewAt(xs, key, seen, i) && fails(xs[i])) {
      FirstFailureFromIs(xs, key, seen, fails, i + 1);
    }
  }

  /** Where the loop of `MarkNew` ends: after the element whose delivery failed, or
      at the end of `xs`. */
  function StopAt<T, K>(xs: seq<T>, key: T -> K, seen: set<K>, collect: bool, fails: T -> bool): nat {
    var e := if collect then FirstFailure(xs, key, seen, fails) else |xs|;
    if e < |xs| then e + 1 else |xs|
  }

  /** The loop itself: walk `xs` in order, add every key to the seen-set and, when
      `collect` holds, collect each element whose key was not yet seen. Collecting an
      element on which `fails` holds raises: the loop stops right after it, with
      that element collected and its key seen. */
  method MarkNew<T, K>(xs: seq<T>, key: T -> K, seen: set<K>, collect: bool, fails: T -> bool)
    returns (seenAfter: set<K>, collected: seq<T>, stopped: bool)
    ensures var n := StopAt(xs, key, seen, collect, fails);
      && n <= |xs|
      && stopped == (collect && FirstFailure(xs, key, seen, fails) < |xs|)
      && seenAfter == seen + KeySet(xs[..n], key)
      && collected == (if collect then KeepFirst(xs[..n], key, seen) else [])
    ensures stopped ==> collected != [] && fails(collected[|collected| - 1])
  {
    seenAfter := seen;
    collected := [];
    stopped := false;
    var i := 0;
    while i < |xs| && !stopped
      invariant 0 <= i <= |xs|
      invariant seenAfter == seen + KeySet(xs[..i], key)
      invariant collected == (if collect then KeepFirst(xs[..i], key, seen) else [])
      invariant !stopped ==> !collect || FirstFailure(xs, key, seen, fails) == FirstFailureFrom(xs, key, seen, fails, i)
      invariant stopped ==> collect && i > 0 && FirstFailure(xs, key, seen, fails) == i - 1
                            && collected != [] && fails(collected[|collected| - 1])
    {
      var x := xs[i];
      var k := key(x);
      KeepFirstPrefixStep(xs, key, seen, i);
      if k !in seenAfter {
        seenAfter := seenAfter + {k};
        if collect {
          collected := collected + [x];
          if fails(x) {
            stopped := true;
          }
        }
      }
      i := i + 1;
    }
    if !stopped {
      assert xs[..i] == xs;
    }
  }

  /** `MarkNew` with a step that never fails: it walks all of `xs` and keeps the
      first element of each new key. */
  method KeepFirstLoop<T, K>(xs: seq<T>, key: T -> K, seen: set<K>)
    returns (seenAfter: set<K>, kept: seq<T>)
    ensures seenAfter == seen + KeySet(xs, key)
    ensures kept == KeepFirst(xs, key, seen)
  {
    var stopped;
    seenAfter, kept, stopped := MarkNew(xs, key, seen, true, _ => false);
    FirstFailureFromIs(xs, key, seen, _ => false, 0);
    assert xs[..|xs|] == xs;
  }

  /** Appending what `KeepFirst` keeps to a sequence whose keys are distinct and
      already seen keeps the keys distinct, and all of them seen afterwards. */
  lemma AppendKeptStaysDistinct<T, K>(prefix: seq<T>, xs: seq<T>, key: T -> K, seen: set<K>, collect: bool)
    requires DistinctKeys(prefix, key) && KeySet(prefix, key) <= seen
    ensures var d := prefix + (if collect then KeepFirst(xs, key, seen) else []);
      DistinctKeys(d, key) && KeySet(d, key) <= seen + KeySet(xs, key)
  {
    var kept := KeepFirst(xs, key, seen);
    KeepFirstDistinct(xs, key, seen);
    KeepFirstKeys(xs, key, seen);
    var d := prefix + (if collect then kept else []);
    forall i, j | 0 <= i < j < |d| ensures key(d[i]) != key(d[j]) {
      if j >= |prefix| {
        assert d[j] == kept[j - |prefix|];
        assert key(d[j]) !in seen;
        if i < |prefix| {
          assert key(d[i]) in KeySet(prefix, key);
        } else {
          assert d[i] == kept[i - |prefix|];
        }
      }
    }
    forall k | k in KeySet(d, key) ensures k in seen + KeySet(xs, key) {
      var i :| 0 <= i < |d| && key(d[i]) == k;
      if i < |prefix| {
        assert key(prefix[i]) in KeySet(prefix, key);
      } else {
        assert d[i] == kept[i - |prefix|];
        assert key(kept[i - |prefix|]) in KeySet(kept, key);
      }
    }
  }

  /** An element that shows up in two consecutive batches, with a key not seen
      before, is kept exactly once over both: some kept element carries its key and
      no two kept elements share one. */
  lemma KeepFirstAcrossBatches<T, K>(first: seq<T>, second: seq<T>, key: T -> K, seen: set<K>, x: T)
    requires x in first && x in second && key(x) !in seen
    ensures var d := KeepFirst(first, key, seen) + KeepFirst(second, key, seen + KeySet(first, key));
      && DistinctKeys(d, key)
      && exists i :: 0 <= i < |d| && key(d[i]) == key(x)
  {
    var k1 := KeepFirst(first, key, seen);
    KeepFirstDistinct(first, key, seen);
    KeepFirstKeys(first, key, seen);
    forall k | k in KeySet(k1, key) ensures k in seen + KeySet(first, key) { }
    AppendKeptStaysDistinct(k1, second, key, seen + KeySet(first, key), true);
    var n :| 0 <= n < |first| && first[n] == x;
    assert key(x) in KeySet(first, key);
    assert key(x) in KeySet(k1, key);
    var i :| 0 <= i < |k1| && key(k1[i]) == key(x);
    var d := k1 + KeepFirst(second, key, seen + KeySet(first, key));
    assert d[i] == k1[i];
  }
}
