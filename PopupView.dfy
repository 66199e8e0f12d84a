/** The popup's browsing view (popup.js): the category top-up run when the popup opens,
    the choice of which collection `loadLinks` shows, the grouping of links into category
    buckets by `displayLinks`, and the search and category filter. The rendering of the
    buckets is not modelled; each operation returns what it would render. */
module PopupView {
  import opened Common
  import opened Text
  import opened Storage
  import opened LinkBuckets

  /** The categories `loadAllCategories` makes sure exist (popup.js:860). */
  function ExpectedCategories(): (r: seq<string>)
    ensures "Other" in r && NoDup(r)
  {
    ["Automation", "Down selection", "Logs review & Stereo", "Maps", "Other", "Vision"]
  }

  /** `getAllPossibleCategories()`: the twelve categories of popup.js:1628-1641. */
  function AllPossibleCategories(): (r: seq<string>)
    ensures |r| == 12 && "Other" in r && NoDup(r)
    ensures forall c :: c in ExpectedCategories() ==> c in r
  {
    ["Automation", "Down selection", "Logs review & Stereo", "Maps", "Other", "Vision",
     "2D", "3D", "AI", "Tools", "Navigation", "Sensors"]
  }

  // ---------------------------------------------------------------------------------------
  // The category top-up (loadAllCategories)

  /** Each expected category not yet listed is appended, in the expected order. */
  function TopUp(categories: seq<string>, expected: seq<string>): (r: seq<string>)
    ensures |r| >= |categories| && r[..|categories|] == categories
    decreases |expected|
  {
    if expected == [] then categories
    else
      var next := if expected[0] in categories then categories else categories + [expected[0]];
      assert next[..|categories|] == categories;
      TopUp(next, expected[1..])
  }

  /** The expected entries missing from `categories`, in their expected order: an
      independent description of what the top-up appends. */
  function Missing(categories: seq<string>, expected: seq<string>): (r: seq<string>)
    ensures forall c :: c in r ==> c in expected && c !in categories
  {
    if expected == [] then []
    else (if expected[0] in categories then [] else [expected[0]]) + Missing(categories, expected[1..])
  }

  lemma {:induction false} MissingIgnoresOthers(categories: seq<string>, x: string, expected: seq<string>)
    requires x !in expected
    ensures Missing(categories + [x], expected) == Missing(categories, expected)
  {
    if expected != [] {
      MissingIgnoresOthers(categories, x, expected[1..]);
    }
  }

  /** The top-up keeps the existing list in its order and appends each missing expected
      category in the expected order. */
  lemma {:induction false} TopUpAppendsMissing(categories: seq<string>, expected: seq<string>)
    requires NoDup(expected)
    ensures TopUp(categories, expected) == categories + Missing(categories, expected)
    decreases |expected|
  {
    if expected != [] {
      var e0, rest := expected[0], expected[1..];
      NoDupTail(expected);
      var next := if e0 in categories then categories else categories + [e0];
      TopUpAppendsMissing(next, rest);
      if e0 !in categories {
        MissingIgnoresOthers(categories, e0, rest);
        assert categories + [e0] + Missing(categories, rest) == categories + ([e0] + Missing(categories, rest));
      }
    }
  }

  lemma NoDupTail(xs: seq<string>)
    requires xs != [] && NoDup(xs)
    ensures NoDup(xs[1..]) && xs[0] !in xs[1..]
  {
    var rest := xs[1..];
    forall i, j | 0 <= i < j < |rest| ensures rest[i] != rest[j] {
      assert rest[i] == xs[i + 1] && rest[j] == xs[j + 1];
    }
    forall j | 0 <= j < |rest| ensures rest[j] != xs[0] {
      assert rest[j] == xs[j + 1];
    }
  }

  /** Afterwards every expected category is listed. */
  lemma {:induction false} TopUpIncludes(categories: seq<string>, expected: seq<string>)
    ensures forall c :: c in expected ==> c in TopUp(categories, expected)
    decreases |expected|
  {
    if expected != [] {
      var next := if expected[0] in categories then categories else categories + [expected[0]];
      TopUpIncludes(next, expected[1..]);
      assert expected[0] in next;
      assert next <= TopUp(next, expected[1..]);
    }
  }

  lemma {:induction false} TopUpComplete(categories: seq<string>, expected: seq<string>)
    requires forall c :: c in expected ==> c in categories
    ensures TopUp(categories, expected) == categories
    decreases |expected|
  {
    if expected != [] {
      TopUpComplete(categories, expected[1..]);
    }
  }

  /** Running the top-up a second time changes nothing. */
  lemma TopUpIdempotent(categories: seq<string>, expected: seq<string>)
    ensures TopUp(TopUp(categories, expected), expected) == TopUp(categories, expected)
  {
    TopUpIncludes(categories, expected);
    TopUpComplete(TopUp(categories, expected), expected);
  }

  /** The top-up keeps a list of distinct categories distinct. */
  lemma {:induction false} TopUpNoDup(categories: seq<string>, expected: seq<string>)
    requires NoDup(categories)
    ensures NoDup(TopUp(categories, expected))
    decreases |expected|
  {
    if expected != [] {
      var next := if expected[0] in categories then categories else categories + [expected[0]];
      assert NoDup(next);
      TopUpNoDup(next, expected[1..]);
    }
  }

  /** The loop of popup.js:861-865. */
  method TopUpCategories(categories: seq<string>, expected: seq<string>) returns (r: seq<string>)
    ensures r == TopUp(categories, expected)
  {
    r := categories;
    for i := 0 to |expected|
      invariant TopUp(r, expected[i..]) == TopUp(categories, expected)
    {
      var category := expected[i];
      assert expected[i..][1..] == expected[i + 1..];
      if category !in r {
        r := r + [category];
      }
    }
  }

  /** `loadAllCategories()`. A never-written `categories` key and an empty one end up the
      same: the default list it starts from is exactly the expected list. `written` records
      whether the list grew and was saved. */
  method LoadAllCategories(store: Store) returns (written: bool)
    modifies store
    ensures written <==> |TopUp(old(store.categories), ExpectedCategories())| > |old(store.categories)|
    ensures store.State() == old(store.State()).(categories := TopUp(old(store.categories), ExpectedCategories()))
    ensures "Other" in store.categories
  {
    written := SaveTopUp(store, ExpectedCategories());
  }

  /** The top-up by `expected`, saved only when the list grew (popup.js:867-869). */
  method SaveTopUp(store: Store, expected: seq<string>) returns (written: bool)
    modifies store
    ensures written <==> |TopUp(old(store.categories), expected)| > |old(store.categories)|
    ensures store.State() == old(store.State()).(categories := TopUp(old(store.categories), expected))
    ensures forall c :: c in expected ==> c in store.categories
  {
    var categories := TopUpCategories(store.categories, expected);
    TopUpIncludes(store.categories, expected);
    written := |categories| > |store.categories|;
    if written {
      store.categories := categories;
    } else {
      assert categories[..|store.categories|] == store.categories;
    }
  }

  // ---------------------------------------------------------------------------------------
  // Which collection loadLinks shows

  /** What `loadLinks()` goes on to do. */
  datatype View =
    | UseFallback
    | FetchFromApi
    | Show(categories: seq<string>, shared: seq<Link>, user: seq<Link>)

  /** The categories `loadLinks` works with: the stored ones, or all twelve when none. */
  function ViewCategories(s: StoreState): (r: seq<string>)
    ensures r != []
    ensures s.categories != [] ==> r == s.categories
  {
    if s.categories == [] then AllPossibleCategories() else s.categories
  }

  function ChooseView(s: StoreState, storageError: bool): (v: View)
    ensures storageError ==> v == UseFallback
    ensures v == FetchFromApi <==> !storageError && s.adminLinks == [] && s.links == [] && s.userLinks == []
    ensures v.Show? ==> v.categories != [] && v.user == s.userLinks
    // The admin mirror wins over `links` whenever it is non-empty.
    ensures v.Show? && s.adminLinks != [] ==> v.shared == s.adminLinks
    ensures v.Show? && s.adminLinks == [] ==> v.shared == s.links
  {
    if storageError then UseFallback
    else if |s.adminLinks| == 0 && |s.links| == 0 && |s.userLinks| == 0 then FetchFromApi
    else Show(ViewCategories(s), if |s.adminLinks| > 0 then s.adminLinks else s.links, s.userLinks)
  }

  /** `loadLinks()`: saves the twelve categories when none are stored, then decides. */
  method LoadLinks(store: Store, storageError: bool) returns (view: View)
    modifies store
    ensures view == ChooseView(old(store.State()), storageError)
    ensures !storageError ==> store.State() == old(store.State()).(categories := ViewCategories(old(store.State())))
    ensures storageError ==> unchanged(store)
  {
    if storageError {
      return UseFallback;
    }
    var adminLinks := store.adminLinks;
    var defaultLinks := store.links;
    var userLinks := store.userLinks;
    var categories := store.categories;
    if |categories| == 0 {
      categories := AllPossibleCategories();
      store.categories := categories;
    }
    if |adminLinks| == 0 && |defaultLinks| == 0 && |userLinks| == 0 {
      return FetchFromApi;
    }
    view := Show(categories, if |adminLinks| > 0 then adminLinks else defaultLinks, userLinks);
  }

  // ---------------------------------------------------------------------------------------
  // Grouping into buckets (displayLinks)

  /** The buckets: every listed category plus `Other`. */
  function BucketKeys(categories: seq<string>): (r: set<string>)
    ensures forall c :: c in r <==> c in categories || c == "Other"
  {
    (set c | c in categories) + {"Other"}
  }

  /** What `displayLinks` renders: a "no links" message, or the buckets. */
  datatype Grouping = NoLinksMessage | Grouped(buckets: map<string, seq<Link>>)

  /** The bucket map with every key of `categories` and `Other`, all empty
      (popup.js:988-998). */
  method EmptyBuckets(categories: seq<string>) returns (m: map<string, seq<Link>>)
    ensures m.Keys == BucketKeys(categories)
    ensures forall rule :: m == Buckets([], BucketKeys(categories), rule)
  {
    m := map[];
    for i := 0 to |categories|
      invariant m.Keys == set c | c in categories[..i]
      invariant forall k :: k in m ==> m[k] == []
    {
      assert categories[..i + 1] == categories[..i] + [categories[i]];
      m := m[categories[i] := []];
    }
    assert categories[..|categories|] == categories;
    if "Other" !in m {
      m := m["Other" := []];
    }
    forall rule: Rule
      ensures m == Buckets([], BucketKeys(categories), rule)
    {
      assert forall k :: k in m ==> m[k] == Select([], rule, k);
    }
  }

  /** `displayLinks(categories, sharedLinks, userLinks)`: user links first, then shared
      ones, each appended to its bucket in that order. */
  method GroupLinks(categories: seq<string>, shared: seq<Link>, user: seq<Link>) returns (g: Grouping)
    ensures user + shared == [] <==> g == NoLinksMessage
    ensures g.Grouped? ==>
              g.buckets == Buckets(user + shared, BucketKeys(categories), ByDisplay(BucketKeys(categories)))
  {
    var allLinks := user + shared;
    if |allLinks| == 0 {
      return NoLinksMessage;
    }
    var linksByCategory := EmptyBuckets(categories);
    ghost var start := linksByCategory;
    linksByCategory := FillDisplayBuckets(allLinks, linksByCategory);
    PushAllIsBuckets(allLinks, start, ByDisplay(start.Keys));
    g := Grouped(linksByCategory);
  }

  /** The loop of popup.js:1000-1007: each link onto its category's bucket, or `Other`'s. */
  method FillDisplayBuckets(allLinks: seq<Link>, buckets: map<string, seq<Link>>)
    returns (linksByCategory: map<string, seq<Link>>)
    requires "Other" in buckets
    ensures PushAll(allLinks, buckets, ByDisplay(buckets.Keys)) == Some(linksByCategory)
  {
    linksByCategory := buckets;
    ghost var rule := ByDisplay(buckets.Keys);
    for i := 0 to |allLinks|
      invariant PushAll(allLinks[..i], buckets, rule) == Some(linksByCategory)
    {
      var link := allLinks[i];
      var category := if link.category != "" && link.category in linksByCategory then link.category else "Other";
      assert category == Home(rule, link);
      TakeOneMore(allLinks, i);
      PushAllSnoc(allLinks[..i], link, buckets, rule);
      linksByCategory := linksByCategory[category := linksByCategory[category] + [link]];
    }
    assert allLinks[..|allLinks|] == allLinks;
  }

  /** Every displayed link lands in exactly one bucket, a link whose category is missing or
      not a bucket lands in `Other`, and the bucket sizes add up to `|userLinks| +
      |sharedLinks|` (for any listing `ks` of the bucket keys without repeats). */
  lemma DisplayBucketsPartition(categories: seq<string>, shared: seq<Link>, user: seq<Link>, ks: seq<string>)
    requires NoDup(ks) && forall k :: k in ks <==> k in BucketKeys(categories)
    ensures SumSizes(user + shared, ByDisplay(BucketKeys(categories)), ks) == |user| + |shared|
  {
    var keys := BucketKeys(categories);
    var rule := ByDisplay(keys);
    assert "Other" in keys;
    forall x | x in user + shared
      ensures Home(rule, x) in ks
    {
      assert DisplayHome(x, keys) in keys;
    }
    BucketSizesSum(user + shared, rule, ks);
  }

  /** A link whose category is missing or is not one of the listed categories is shown
      under `Other`. */
  lemma UnlistedGoesToOther(categories: seq<string>, l: Link)
    requires l.category == "" || l.category !in categories
    ensures Home(ByDisplay(BucketKeys(categories)), l) == "Other"
  {
  }

  // ---------------------------------------------------------------------------------------
  // Search (performInstantSearch)

  /** The search box contents, lower-cased and then trimmed. */
  function SearchTerm(raw: string): string {
    Trim(Lower(raw))
  }

  /** Some tag of the link contains the term, ignoring case. */
  predicate TagMatches(tags: seq<string>, term: string) {
    exists i :: 0 <= i < |tags| && Contains(Lower(tags[i]), term)
  }

  /** The term occurs, ignoring case, in the title, URL, description or a tag. */
  predicate Matches(l: Link, term: string) {
    Contains(Lower(l.title), term) || Contains(Lower(l.url), term) ||
    Contains(Lower(l.description), term) || TagMatches(l.tags, term)
  }

  /** A link the search keeps: of the filtered category (unless the filter is `all`) and,
      when there is a term, matching it. */
  predicate Kept(l: Link, term: string, filter: string) {
    (filter == "all" || l.category == filter) && (term == "" || Matches(l, term))
  }

  /** The kept links, in order. */
  function Hits(xs: seq<Link>, term: string, filter: string): (r: seq<Link>)
    ensures |r| <= |xs|
  {
    if xs == [] then []
    else
      var last := xs[|xs| - 1];
      Hits(xs[..|xs| - 1], term, filter) + (if Kept(last, term, filter) then [last] else [])
  }

  /** The hits are exactly the kept links; with a category filter, all of that category. */
  lemma {:induction false} HitsMembers(xs: seq<Link>, term: string, filter: string)
    ensures forall l :: l in Hits(xs, term, filter) <==> l in xs && Kept(l, term, filter)
    ensures filter != "all" ==> forall l :: l in Hits(xs, term, filter) ==> l.category == filter
  {
    if xs != [] {
      var init := xs[..|xs| - 1];
      HitsMembers(init, term, filter);
      assert xs == init + [xs[|xs| - 1]];
    }
  }

  /** What the search renders: the normal view (no term, no filter), the buckets with the
      match count, or nothing, because pushing into a bucket that does not exist throws a
      `TypeError` that ends the callback. */
  datatype SearchView =
    | NormalView
    | Results(buckets: map<string, seq<Link>>, totalMatches: nat)
    | Aborted(missingBucket: string)

  /** `performInstantSearch()` on the stored collections: shared links first, then the
      user's (popup.js:575). */
  method Search(shared: seq<Link>, user: seq<Link>, categories: seq<string>, rawTerm: string, filter: string)
    returns (view: SearchView)
    ensures view == NormalView <==> SearchTerm(rawTerm) == "" && filter == "all"
    // Otherwise the search completes exactly when every kept link's bucket exists.
    ensures view != NormalView ==>
              (view.Results? <==>
                 forall l :: l in shared + user && Kept(l, SearchTerm(rawTerm), filter) ==>
                   SearchHome(l, SearchTerm(rawTerm)) in BucketKeys(categories))
    ensures view.Aborted? ==>
              view.missingBucket !in BucketKeys(categories) &&
              exists l :: l in shared + user && Kept(l, SearchTerm(rawTerm), filter) &&
                          SearchHome(l, SearchTerm(rawTerm)) == view.missingBucket
    ensures view.Results? ==>
              var term := SearchTerm(rawTerm);
              var hits := Hits(shared + user, term, filter);
              view.buckets.Keys == BucketKeys(categories) &&
              (forall l :: l in shared + user && Kept(l, term, filter) ==> SearchHome(l, term) in BucketKeys(categories)) &&
              view.buckets == Buckets(hits, BucketKeys(categories), BySearch(term)) &&
              view.totalMatches == |hits|
  {
    var searchTerm := SearchTerm(rawTerm);
    if searchTerm == "" && filter == "all" {
      return NormalView;
    }
    var linksByCategory := EmptyBuckets(categories);
    view := FillBuckets(shared + user, searchTerm, filter, linksByCategory);
  }

  /** The tests of popup.js:583-621 for one link: the bucket it is to be pushed into, or
      nothing when it is filtered out or does not match. */
  method Placement(link: Link, searchTerm: string, filter: string) returns (place: Option<string>)
    requires !(searchTerm == "" && filter == "all")
    ensures place.Some? <==> Kept(link, searchTerm, filter)
    ensures place.Some? ==> place.value == SearchHome(link, searchTerm)
  {
    if filter != "all" && link.category != filter {
      return None;
    }
    if searchTerm == "" && filter != "all" {
      // Category filter only: the link's own category.
      return Some(link.category);
    }
    if Matches(link, searchTerm) {
      return Some(if link.category != "" then link.category else "Other");
    }
    return None;
  }

  /** The loop of popup.js:581-622 over `allLinks`, pushing into the buckets of `buckets`. */
  method FillBuckets(allLinks: seq<Link>, searchTerm: string, filter: string, buckets: map<string, seq<Link>>)
    returns (view: SearchView)
    requires !(searchTerm == "" && filter == "all")
    requires buckets == Buckets([], buckets.Keys, BySearch(searchTerm))
    ensures view != NormalView
    ensures view.Aborted? ==>
              view.missingBucket !in buckets &&
              exists l :: l in allLinks && Kept(l, searchTerm, filter) && SearchHome(l, searchTerm) == view.missingBucket
    ensures view.Results? ==>
              view.buckets.Keys == buckets.Keys &&
              (forall l :: l in allLinks && Kept(l, searchTerm, filter) ==> SearchHome(l, searchTerm) in buckets) &&
              view.buckets == Buckets(Hits(allLinks, searchTerm, filter), buckets.Keys, BySearch(searchTerm)) &&
              view.totalMatches == |Hits(allLinks, searchTerm, filter)|
  {
    var linksByCategory := buckets;
    var totalMatches := 0;
    ghost var rule := BySearch(searchTerm);
    ghost var hits := [];
    for i := 0 to |allLinks|
      invariant hits == Hits(allLinks[..i], searchTerm, filter)
      invariant PushAll(hits, buckets, rule) == Some(linksByCategory)
      invariant totalMatches == |hits|
    {
      var link := allLinks[i];
      HitsStep(allLinks, i, searchTerm, filter);
      var place := Placement(link, searchTerm, filter);
      if place.None? {
        continue;
      }
      var category := place.value;
      if category !in linksByCategory {
        return Aborted(category);
      }
      PushAllSnoc(hits, link, buckets, rule);
      linksByCategory := linksByCategory[category := linksByCategory[category] + [link]];
      totalMatches := totalMatches + 1;
      hits := hits + [link];
    }
    assert allLinks[..|allLinks|] == allLinks;
    HitsMembers(allLinks, searchTerm, filter);
    PushAllIsBuckets(hits, buckets, rule);
    view := Results(linksByCategory, totalMatches);
  }

  lemma HitsStep(xs: seq<Link>, i: nat, term: string, filter: string)
    requires i < |xs|
    ensures Hits(xs[..i + 1], term, filter) ==
            Hits(xs[..i], term, filter) + (if Kept(xs[i], term, filter) then [xs[i]] else [])
  {
    assert xs[..i + 1][..i] == xs[..i];
  }

  /** `totalMatches` is the number of links placed into buckets: the bucket sizes add up to
      it (for any listing `ks` of the bucket keys without repeats). */
  lemma SearchTotalIsBucketSum(xs: seq<Link>, term: string, filter: string, categories: seq<string>, ks: seq<string>)
    requires NoDup(ks) && forall k :: k in ks <==> k in BucketKeys(categories)
    requires forall l :: l in Hits(xs, term, filter) ==> SearchHome(l, term) in BucketKeys(categories)
    ensures SumSizes(Hits(xs, term, filter), BySearch(term), ks) == |Hits(xs, term, filter)|
  {
    BucketSizesSum(Hits(xs, term, filter), BySearch(term), ks);
  }
}
