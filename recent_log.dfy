/**
 * A bounded, deduplicated sample log: the shape shared by the hook's `chartData`
 * (`[...prev, p].slice(-60)` unless the last point equals `p`) and the page's download
 * and upload histories (`[...prev, s].slice(-30)` unless the last value equals `s.val`).
 *
 * `Push` is the one-step update the source performs. `Collapse` is an independent
 * reference definition (drop every element whose key repeats the key of the element
 * received just before it), and `PushAllCollapse` proves that a log built by `Push`
 * is always the most recent `cap` elements of the collapsed input.
 */
module RecentLog {

  /** The last `min(n, |s|)` elements of `s`; for a positive `n` this is `s.slice(-n)`. */
  function Recent<T>(s: seq<T>, n: nat): (r: seq<T>)
    ensures |r| == if |s| <= n then |s| else n
    ensures r == s[|s| - |r|..]
  {
    if |s| <= n then s else s[|s| - n..]
  }

  /** The new element would repeat the last one, as far as `key` can tell. */
  predicate RepeatsLast<T, K(==)>(log: seq<T>, x: T, key: T -> K) {
    |log| > 0 && key(log[|log| - 1]) == key(x)
  }

  /** No two neighbours of `log` have the same key. */
  predicate NoAdjacentRepeats<T, K(==)>(log: seq<T>, key: T -> K) {
    forall i :: 0 < i < |log| ==> key(log[i - 1]) != key(log[i])
  }

  /** One append: skipped when it repeats the last entry, otherwise the new entry is
      added and only the most recent `cap` entries are kept. */
  function Push<T, K(==)>(log: seq<T>, x: T, key: T -> K, cap: nat): (r: seq<T>)
    requires cap > 0
    ensures RepeatsLast(log, x, key) ==> r == log
    ensures !RepeatsLast(log, x, key) ==>
              |r| > 0 && r[|r| - 1] == x && r[..|r| - 1] == Recent(log, cap - 1)
    ensures |r| <= cap || r == log
    ensures NoAdjacentRepeats(log, key) ==> NoAdjacentRepeats(r, key)
  {
    if RepeatsLast(log, x, key) then log
    else
      RecentAppend(log, x, cap);
      AppendKeepsNoRepeats(log, x, key, cap);
      Recent(log + [x], cap)
  }

  /** The window after an append is the shorter window before it, plus the new entry. */
  lemma RecentAppend<T>(log: seq<T>, x: T, cap: nat)
    requires cap > 0
    ensures Recent(log + [x], cap) == Recent(log, cap - 1) + [x]
  {
    var lx := log + [x];
    if |lx| > cap {
      assert lx[|lx| - cap..] == log[|log| - (cap - 1)..] + [x];
    }
  }

  /** Appending an entry that does not repeat the last one, then keeping a window,
      adds no adjacent repeat. */
  lemma AppendKeepsNoRepeats<T, K>(log: seq<T>, x: T, key: T -> K, cap: nat)
    requires !RepeatsLast(log, x, key)
    ensures NoAdjacentRepeats(log, key) ==> NoAdjacentRepeats(Recent(log + [x], cap), key)
  {
    if NoAdjacentRepeats(log, key) {
      var lx := log + [x];
      assert NoAdjacentRepeats(lx, key) by {
        forall i | 0 < i < |lx| ensures key(lx[i - 1]) != key(lx[i]) {
          if i < |log| {
            assert lx[i - 1] == log[i - 1] && lx[i] == log[i];
          }
        }
      }
      var r := Recent(lx, cap);
      var k := |lx| - |r|;
      forall i | 0 < i < |r| ensures key(r[i - 1]) != key(r[i]) {
        assert r[i - 1] == lx[k + i - 1] && r[i] == lx[k + i];
      }
    }
  }

  /** Pushes every element of `xs`, oldest first. */
  function PushAll<T, K(==)>(log: seq<T>, xs: seq<T>, key: T -> K, cap: nat): seq<T>
    requires cap > 0
    decreases |xs|
  {
    if xs == [] then log else PushAll(Push(log, xs[0], key, cap), xs[1..], key, cap)
  }

  /** Reference definition: keep `s[0]`, and keep `s[i]` exactly when its key differs
      from the key of `s[i - 1]`. */
  function Collapse<T, K(==)>(s: seq<T>, key: T -> K): seq<T>
    decreases |s|
  {
    if |s| <= 1 then s
    else
      Collapse(s[..|s| - 1], key)
      + (if key(s[|s| - 2]) != key(s[|s| - 1]) then [s[|s| - 1]] else [])
  }

  /** The collapsed sequence is empty only for the empty input, and it ends with an
      element whose key is that of the input's last element. */
  lemma {:induction false} CollapseLast<T, K>(s: seq<T>, key: T -> K)
    ensures |Collapse(s, key)| <= |s|
    ensures (|Collapse(s, key)| == 0) == (|s| == 0)
    ensures |s| > 0 ==> key(Collapse(s, key)[|Collapse(s, key)| - 1]) == key(s[|s| - 1])
    decreases |s|
  {
    if |s| > 1 {
      CollapseLast(s[..|s| - 1], key);
    }
  }

  /** Collapsing removes every adjacent repeat. */
  lemma {:induction false} CollapseNoRepeats<T, K>(s: seq<T>, key: T -> K)
    ensures NoAdjacentRepeats(Collapse(s, key), key)
    decreases |s|
  {
    if |s| > 1 {
      var init := s[..|s| - 1];
      CollapseNoRepeats(init, key);
      CollapseLast(init, key);
    }
  }

  /** Keeping the last `n` of a log and then appending keeps the same window as
      appending to the whole log. */
  lemma RecentSnoc<T>(d: seq<T>, x: T, n: nat)
    requires n > 0
    ensures Recent(Recent(d, n) + [x], n) == Recent(d + [x], n)
  {
    var a := Recent(Recent(d, n) + [x], n);
    var b := Recent(d + [x], n);
    assert |a| == |b|;
    forall i | 0 <= i < |a| ensures a[i] == b[i] {
      if i < |a| - 1 {
        assert a[i] == (Recent(d, n) + [x])[|Recent(d, n) + [x]| - |a| + i];
      }
    }
  }

  /** `Collapse` unfolded at an appended element. */
  lemma CollapseSnoc<T, K>(s: seq<T>, x: T, key: T -> K)
    ensures |s| == 0 ==> Collapse(s + [x], key) == [x]
    ensures |s| > 0 && key(s[|s| - 1]) == key(x) ==> Collapse(s + [x], key) == Collapse(s, key)
    ensures |s| > 0 && key(s[|s| - 1]) != key(x) ==> Collapse(s + [x], key) == Collapse(s, key) + [x]
  {
    var sx := s + [x];
    assert sx[..|sx| - 1] == s;
    if |s| == 0 {
      assert sx == [x];
    }
  }

  /** One step of the correspondence between `Push` and `Collapse`. */
  lemma PushCollapse<T, K>(s: seq<T>, x: T, key: T -> K, cap: nat)
    requires cap > 0
    ensures Push(Recent(Collapse(s, key), cap), x, key, cap) == Recent(Collapse(s + [x], key), cap)
  {
    CollapseSnoc(s, x, key);
    if |s| == 0 {
      assert Recent(Collapse(s, key), cap) == [];
    } else {
      var d := Collapse(s, key);
      CollapseLast(s, key);
      var w := Recent(d, cap);
      assert w[|w| - 1] == d[|d| - 1];
      if key(s[|s| - 1]) != key(x) {
        assert !RepeatsLast(w, x, key);
        assert Push(w, x, key, cap) == Recent(w + [x], cap);
        RecentSnoc(d, x, cap);
      } else {
        assert RepeatsLast(w, x, key);
      }
    }
  }

  /** Pushing any sequence of elements onto the window of a collapsed prefix yields the
      window of the collapsed whole. */
  lemma {:induction false} PushAllCollapse<T, K>(s: seq<T>, xs: seq<T>, key: T -> K, cap: nat)
    requires cap > 0
    ensures PushAll(Recent(Collapse(s, key), cap), xs, key, cap) == Recent(Collapse(s + xs, key), cap)
    decreases |xs|
  {
    if xs == [] {
      assert s + xs == s;
    } else {
      var s' := s + [xs[0]];
      var log := Recent(Collapse(s, key), cap);
      assert s' + xs[1..] == s + xs;
      calc {
        PushAll(log, xs, key, cap);
        PushAll(Push(log, xs[0], key, cap), xs[1..], key, cap);
        { PushCollapse(s, xs[0], key, cap); }
        PushAll(Recent(Collapse(s', key), cap), xs[1..], key, cap);
        { PushAllCollapse(s', xs[1..], key, cap); }
        Recent(Collapse(s' + xs[1..], key), cap);
      }
    }
  }

  /** A log that starts empty holds the last `cap` elements of the collapsed input, with
      no adjacent repeats and never more than `cap` entries. */
  lemma FromEmpty<T, K>(xs: seq<T>, key: T -> K, cap: nat)
    requires cap > 0
    ensures PushAll([], xs, key, cap) == Recent(Collapse(xs, key), cap)
    ensures |PushAll([], xs, key, cap)| <= cap
    ensures NoAdjacentRepeats(PushAll([], xs, key, cap), key)
  {
    assert Recent(Collapse([], key), cap) == [];
    PushAllCollapse([], xs, key, cap);
    assert [] + xs == xs;
    CollapseNoRepeats(xs, key);
    RecentKeepsNoRepeats(Collapse(xs, key), key, cap);
  }

  /** A window of a log without adjacent repeats has none either. */
  lemma RecentKeepsNoRepeats<T, K>(c: seq<T>, key: T -> K, n: nat)
    requires NoAdjacentRepeats(c, key)
    ensures NoAdjacentRepeats(Recent(c, n), key)
  {
    var r := Recent(c, n);
    forall i | 0 < i < |r| ensures key(r[i - 1]) != key(r[i]) {
      assert r[i - 1] == c[|c| - |r| + i - 1] && r[i] == c[|c| - |r| + i];
    }
  }

  /** A log never grows beyond `cap` once it is within it. */
  lemma {:induction false} PushAllBounded<T, K>(log: seq<T>, xs: seq<T>, key: T -> K, cap: nat)
    requires cap > 0 && |log| <= cap
    ensures |PushAll(log, xs, key, cap)| <= cap
    decreases |xs|
  {
    if xs != [] {
      PushAllBounded(Push(log, xs[0], key, cap), xs[1..], key, cap);
    }
  }

  /** Pushing the same element twice has the effect of pushing it once. */
  lemma PushIdempotent<T, K>(log: seq<T>, x: T, key: T -> K, cap: nat)
    requires cap > 0
    ensures Push(Push(log, x, key, cap), x, key, cap) == Push(log, x, key, cap)
  {
  }
}
