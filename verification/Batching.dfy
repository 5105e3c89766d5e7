/** Greedy grouping of a sequence into contiguous groups, and why it is optimal.

    The Markdown chunker (sentences and paragraphs under a token cap) and the v2
    inbox drain (messages within a burst window) both extend the current group as
    long as the result is still admissible. Admissibility is a parameter here. */
module Batching {

  ghost function Flatten<T>(groups: seq<seq<T>>): (r: seq<T>) {
    if groups == [] then [] else groups[0] + Flatten(groups[1..])
  }

  /** Single elements are admissible, and so is every nonempty prefix and suffix of
      an admissible group. */
  ghost predicate Hereditary<T(!new)>(fits: seq<T> -> bool) {
    && (forall x: T :: fits([x]))
    && (forall g: seq<T>, k: nat {:trigger fits(g[..k])} | 0 < k <= |g| && fits(g) :: fits(g[..k]))
    && (forall g: seq<T>, k: nat {:trigger fits(g[k..])} | k < |g| && fits(g) :: fits(g[k..]))
  }

  /** `groups` cuts `xs` into contiguous admissible groups. */
  ghost predicate Grouping<T>(fits: seq<T> -> bool, groups: seq<seq<T>>, xs: seq<T>) {
    && Flatten(groups) == xs
    && forall g | g in groups :: g != [] && fits(g)
  }

  /** The groups still to be emitted when `buf` is the open group and `xs` is unread. */
  ghost function Greedy<T>(fits: seq<T> -> bool, buf: seq<T>, xs: seq<T>): (r: seq<seq<T>>)
    decreases |xs|
  {
    if xs == [] then
      if buf == [] then [] else [buf]
    else if buf != [] && !fits(buf + [xs[0]]) then
      [buf] + Greedy(fits, [xs[0]], xs[1..])
    else
      Greedy(fits, buf + [xs[0]], xs[1..])
  }

  lemma Appended<T>(a: seq<T>, b: seq<T>, c: seq<T>)
    ensures a + (b + c) == (a + b) + c
    ensures b == [] ==> a + b == a
  {
  }

  lemma {:induction false} FlattenConcat<T>(a: seq<seq<T>>, b: seq<seq<T>>)
    ensures Flatten(a + b) == Flatten(a) + Flatten(b)
  {
    if a == [] {
      assert a + b == b;
    } else {
      assert (a + b)[1..] == a[1..] + b;
      FlattenConcat(a[1..], b);
    }
  }

  lemma {:induction false} GreedyIsGrouping<T(!new)>(fits: seq<T> -> bool, buf: seq<T>, xs: seq<T>)
    requires Hereditary(fits)
    requires buf == [] || fits(buf)
    ensures Grouping(fits, Greedy(fits, buf, xs), buf + xs)
    decreases |xs|
  {
    if xs == [] {
      assert buf + xs == buf;
      assert buf != [] ==> Flatten([buf]) == buf + Flatten<T>([]) == buf;
    } else {
      var x, rest := xs[0], xs[1..];
      assert buf + xs == (buf + [x]) + rest;
      if buf != [] && !fits(buf + [x]) {
        GreedyIsGrouping(fits, [x], rest);
        assert buf + xs == buf + ([x] + rest);
      } else {
        assert buf == [] ==> buf + [x] == [x];
        GreedyIsGrouping(fits, buf + [x], rest);
      }
    }
  }

  /** No grouping of a sequence that ends with `buf + xs` has fewer groups than the
      greedy continuation from `buf`. */
  lemma {:induction false} GreedyStaysAhead<T(!new)>(
    fits: seq<T> -> bool, buf: seq<T>, xs: seq<T>, groups: seq<seq<T>>, skipped: nat)
    requires Hereditary(fits)
    requires forall g | g in groups :: fits(g)
    requires skipped <= |Flatten(groups)| && buf + xs == Flatten(groups)[skipped..]
    ensures |Greedy(fits, buf, xs)| <= |groups|
    decreases |xs|, |groups|
  {
    if buf + xs == [] {
      return;
    }
    var g, later := groups[0], groups[1..];
    if skipped >= |g| {
      assert Flatten(groups)[skipped..] == Flatten(later)[skipped - |g|..];
      GreedyStaysAhead(fits, buf, xs, later, skipped - |g|);
      return;
    }
    var tail := g[skipped..];
    assert buf + xs == tail + Flatten(later);
    if xs == [] {
      return;
    }
    var x, rest := xs[0], xs[1..];
    assert buf + xs == (buf + [x]) + rest;
    if buf != [] && !fits(buf + [x]) {
      var k := if |buf| < |tail| then |buf| + 1 else |tail|;
      assert fits(tail[..k]) && tail[..k] == (buf + xs)[..k];
      assert (buf + xs)[..|buf| + 1] == buf + [x];
      assert [x] + rest == (buf + xs)[|buf|..] == Flatten(later)[|buf| - |tail|..];
      GreedyStaysAhead(fits, [x], rest, later, |buf| - |tail|);
    } else {
      GreedyStaysAhead(fits, buf + [x], rest, groups, skipped);
    }
  }

  /** Greedy grouping uses the fewest groups of any admissible grouping. */
  lemma GreedyIsOptimal<T(!new)>(fits: seq<T> -> bool, xs: seq<T>, groups: seq<seq<T>>)
    requires Hereditary(fits)
    requires Grouping(fits, groups, xs)
    ensures |Greedy(fits, [], xs)| <= |groups|
  {
    assert [] + xs == Flatten(groups)[0..];
    GreedyStaysAhead(fits, [], xs, groups, 0);
  }

  /** Where no admissible group crosses a boundary, greedy grouping works on the two
      sides independently. */
  lemma {:induction false} GreedySplits<T(!new)>(fits: seq<T> -> bool, buf: seq<T>, xs: seq<T>, ys: seq<T>)
    requires Hereditary(fits)
    requires buf + xs != [] && ys != []
    requires !fits([(buf + xs)[|buf + xs| - 1], ys[0]])
    ensures Greedy(fits, buf, xs + ys) == Greedy(fits, buf, xs) + Greedy(fits, [], ys)
    decreases |xs|
  {
    if xs == [] {
      assert xs + ys == ys && buf + xs == buf;
      var pair := (buf + [ys[0]])[|buf| - 1..];
      assert pair == [buf[|buf| - 1], ys[0]];
      assert !fits(buf + [ys[0]]);
      assert [] + [ys[0]] == [ys[0]];
    } else {
      var x, rest := xs[0], xs[1..];
      assert (xs + ys)[0] == x && (xs + ys)[1..] == rest + ys;
      if buf != [] && !fits(buf + [x]) {
        assert ([x] + rest)[|rest|] == (buf + xs)[|buf + xs| - 1];
        GreedySplits(fits, [x], rest, ys);
      } else {
        assert buf + xs == (buf + [x]) + rest;
        GreedySplits(fits, buf + [x], rest, ys);
      }
    }
  }

  /** The first greedy group is the longest admissible prefix. */
  lemma {:induction false} GreedyTakesLongest<T(!new)>(fits: seq<T> -> bool, xs: seq<T>, taken: nat, k: nat)
    requires Hereditary(fits)
    requires taken <= k <= |xs| && 0 < k && fits(xs[..k])
    requires k == |xs| || !fits(xs[..k + 1])
    ensures Greedy(fits, xs[..taken], xs[taken..]) == [xs[..k]] + Greedy(fits, [], xs[k..])
    decreases k - taken
  {
    if taken < k {
      var x := xs[taken];
      assert xs[..taken] + [x] == xs[..k][..taken + 1] == xs[..taken + 1];
      assert xs[taken..][1..] == xs[taken + 1..];
      GreedyTakesLongest(fits, xs, taken + 1, k);
    } else if k < |xs| {
      assert xs[..k] + [xs[k]] == xs[..k + 1];
      assert xs[k..][1..] == xs[k + 1..];
      assert [] + [xs[k]] == [xs[k]];
    }
  }
}
