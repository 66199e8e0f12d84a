/** Grouping links into named buckets, as `displayLinks` and `performInstantSearch` do in
    popup.js: which bucket a link belongs to, the bucket contents as a selection of the
    links in order, and the count that every link lands in exactly one bucket. */
module LinkBuckets {
  import opened Common

  /** How a view assigns links to buckets: `displayLinks` with its set of bucket keys, or
      the search with its term. */
  datatype Rule = ByDisplay(keys: set<string>) | BySearch(term: string)

  /** The bucket `displayLinks` puts a link in: its category when that is a bucket, else
      `Other` (popup.js:1000-1006). */
  function DisplayHome(l: Link, keys: set<string>): string {
    if l.category != "" && l.category in keys then l.category else "Other"
  }

  /** The bucket a kept search result is pushed into: its category as is when only
      filtering by category (popup.js:604), otherwise its category or `Other` when it has
      none (popup.js:619). Neither falls back to `Other` for a category that is not a
      bucket. */
  function SearchHome(l: Link, term: string): string {
    if term == "" then l.category else if l.category != "" then l.category else "Other"
  }

  function Home(rule: Rule, l: Link): string {
    match rule
    case ByDisplay(keys) => DisplayHome(l, keys)
    case BySearch(term) => SearchHome(l, term)
  }

  /** The links of `xs`, in order, whose bucket under `rule` is `k`. */
  function Select(xs: seq<Link>, rule: Rule, k: string): (r: seq<Link>)
    ensures |r| <= |xs|
  {
    if xs == [] then []
    else
      var last := xs[|xs| - 1];
      Select(xs[..|xs| - 1], rule, k) + (if Home(rule, last) == k then [last] else [])
  }

  /** The bucket for `k` holds exactly the links whose key is `k`. */
  lemma {:induction false} SelectMembers(xs: seq<Link>, rule: Rule, k: string)
    ensures forall x :: x in Select(xs, rule, k) <==> x in xs && Home(rule, x) == k
  {
    if xs != [] {
      var init := xs[..|xs| - 1];
      SelectMembers(init, rule, k);
      assert xs == init + [xs[|xs| - 1]];
    }
  }

  /** Appending a link grows its own bucket by it and leaves every other bucket alone. */
  lemma SelectSnocAll(xs: seq<Link>, x: Link, rule: Rule)
    ensures forall k :: Select(xs + [x], rule, k) == Select(xs, rule, k) + (if Home(rule, x) == k then [x] else [])
  {
    assert (xs + [x])[..|xs + [x]| - 1] == xs;
  }

  /** The buckets of `xs` under `rule`, one per key in `keys`. */
  function Buckets(xs: seq<Link>, keys: set<string>, rule: Rule): (m: map<string, seq<Link>>)
    ensures m.Keys == keys
  {
    map k | k in keys :: Select(xs, rule, k)
  }

  /** Appending a link whose key is a bucket appends it to that bucket only. */
  lemma BucketsSnoc(xs: seq<Link>, x: Link, keys: set<string>, rule: Rule)
    requires Home(rule, x) in keys
    ensures Buckets(xs + [x], keys, rule) ==
            Buckets(xs, keys, rule)[Home(rule, x) := Buckets(xs, keys, rule)[Home(rule, x)] + [x]]
  {
    var before, after := Buckets(xs, keys, rule), Buckets(xs + [x], keys, rule);
    var pushed := before[Home(rule, x) := before[Home(rule, x)] + [x]];
    SelectSnocAll(xs, x, rule);
    assert after.Keys == pushed.Keys;
    forall k | k in after
      ensures after[k] == pushed[k]
    {
      assert after[k] == Select(xs + [x], rule, k);
    }
  }

  /** Pushing the links of `xs`, in order, each onto the end of the bucket of its key,
      starting from `m`: what the `forEach` loops of popup.js do. `None` when some link's
      bucket does not exist, where the push would throw. */
  function PushAll(xs: seq<Link>, m: map<string, seq<Link>>, rule: Rule): (r: Option<map<string, seq<Link>>>)
    ensures r.Some? ==> r.value.Keys == m.Keys
  {
    if xs == [] then Some(m)
    else
      match PushAll(xs[..|xs| - 1], m, rule)
      case None => None
      case Some(before) =>
        var x := xs[|xs| - 1];
        var k := Home(rule, x);
        if k in before then Some(before[k := before[k] + [x]]) else None
  }

  lemma PushAllSnoc(xs: seq<Link>, x: Link, m: map<string, seq<Link>>, rule: Rule)
    ensures PushAll(xs + [x], m, rule) ==
            match PushAll(xs, m, rule)
            case None => None
            case Some(before) =>
              if Home(rule, x) in before
              then Some(before[Home(rule, x) := before[Home(rule, x)] + [x]])
              else None
  {
    assert (xs + [x])[..|xs + [x]| - 1] == xs;
  }

  /** Starting from empty buckets, the pushes succeed exactly when every link's key is a
      bucket, and then leave each bucket holding the links of its key, in order. */
  lemma {:induction false} PushAllIsBuckets(xs: seq<Link>, m: map<string, seq<Link>>, rule: Rule)
    requires m == Buckets([], m.Keys, rule)
    ensures PushAll(xs, m, rule).Some? <==> forall x :: x in xs ==> Home(rule, x) in m
    ensures PushAll(xs, m, rule).Some? ==> PushAll(xs, m, rule).value == Buckets(xs, m.Keys, rule)
  {
    if xs != [] {
      var init, x := xs[..|xs| - 1], xs[|xs| - 1];
      assert xs == init + [x];
      PushAllIsBuckets(init, m, rule);
      PushAllSnoc(init, x, m, rule);
      if PushAll(init, m, rule).Some? && Home(rule, x) in m {
        BucketsSnoc(init, x, m.Keys, rule);
      }
    }
  }

  /** The sum of the bucket sizes of `xs` over the keys `ks`. */
  function SumSizes(xs: seq<Link>, rule: Rule, ks: seq<string>): nat {
    if ks == [] then 0 else |Select(xs, rule, ks[0])| + SumSizes(xs, rule, ks[1..])
  }

  /** The number of times `k` occurs in `ks`. */
  function Occurrences(ks: seq<string>, k: string): nat {
    if ks == [] then 0 else (if ks[0] == k then 1 else 0) + Occurrences(ks[1..], k)
  }

  lemma {:induction false} OccurrencesOfUnique(ks: seq<string>, k: string)
    requires NoDup(ks) && k in ks
    ensures Occurrences(ks, k) == 1
  {
    if ks[0] == k {
      OccurrencesOfAbsent(ks[1..], k);
    } else {
      OccurrencesOfUnique(ks[1..], k);
    }
  }

  lemma {:induction false} OccurrencesOfAbsent(ks: seq<string>, k: string)
    requires k !in ks
    ensures Occurrences(ks, k) == 0
  {
    if ks != [] {
      OccurrencesOfAbsent(ks[1..], k);
    }
  }

  /** Appending one link adds one to the bucket sum once per occurrence of its key. */
  lemma {:induction false} SumSizesSnoc(xs: seq<Link>, x: Link, rule: Rule, ks: seq<string>)
    ensures SumSizes(xs + [x], rule, ks) == SumSizes(xs, rule, ks) + Occurrences(ks, Home(rule, x))
  {
    if ks != [] {
      assert (xs + [x])[..|xs + [x]| - 1] == xs;
      SumSizesSnoc(xs, x, rule, ks[1..]);
    }
  }

  /** Every link lands in exactly one bucket: when the keys are distinct and every link's key
      is among them, the bucket sizes add up to the number of links. */
  lemma {:induction false} BucketSizesSum(xs: seq<Link>, rule: Rule, ks: seq<string>)
    requires NoDup(ks)
    requires forall x :: x in xs ==> Home(rule, x) in ks
    ensures SumSizes(xs, rule, ks) == |xs|
  {
    if xs == [] {
      EmptySumSizes(rule, ks);
    } else {
      var init, last := xs[..|xs| - 1], xs[|xs| - 1];
      assert xs == init + [last];
      BucketSizesSum(init, rule, ks);
      SumSizesSnoc(init, last, rule, ks);
      OccurrencesOfUnique(ks, Home(rule, last));
    }
  }

  lemma {:induction false} EmptySumSizes(rule: Rule, ks: seq<string>)
    ensures SumSizes([], rule, ks) == 0
  {
    if ks != [] {
      EmptySumSizes(rule, ks[1..]);
    }
  }
}
