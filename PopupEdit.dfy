/** The popup's editing operations (popup.js): adding a link or editing one in place,
    adding a category, deleting a link, the id lookup behind the edit and share buttons,
    and the export/import file. Form contents, the confirmation dialog, the time and the
    file read are parameters. */
module PopupEdit {
  import opened Common
  import opened Text
  import opened Storage

  // ---------------------------------------------------------------------------------------
  // The tags field

  /** A tag as the tags field yields it: non-empty, comma-free, no surrounding white space. */
  predicate TagOk(t: string) {
    t != "" && ',' !in t && Trimmed(t)
  }

  function TrimAll(xs: seq<string>): (r: seq<string>)
    ensures |r| == |xs| && forall i :: 0 <= i < |xs| ==> r[i] == Trim(xs[i])
  {
    seq(|xs|, i requires 0 <= i < |xs| => Trim(xs[i]))
  }

  function DropEmpty(xs: seq<string>): (r: seq<string>)
    ensures forall t :: t in r ==> t in xs && t != ""
    ensures (forall i :: 0 <= i < |xs| ==> xs[i] != "") ==> r == xs
    ensures forall i :: 0 <= i < |xs| && xs[i] != "" ==> xs[i] in r
  {
    if xs == [] then []
    else
      var rest := DropEmpty(xs[1..]);
      assert forall i :: 1 <= i < |xs| ==> xs[i] == xs[1..][i - 1];
      if xs[0] == "" then rest
      else
        var r := [xs[0]] + rest;
        assert (forall i :: 0 <= i < |xs| ==> xs[i] != "") ==>
               (forall i :: 0 <= i < |xs[1..]| ==> xs[1..][i] != "");
        assert [xs[0]] + xs[1..] == xs;
        r
  }

  /** Dropping the empty strings works piecewise, so it keeps the order of the rest. */
  lemma {:induction false} DropEmptyConcat(a: seq<string>, b: seq<string>)
    ensures DropEmpty(a + b) == DropEmpty(a) + DropEmpty(b)
  {
    if a == [] {
      assert a + b == b;
    } else {
      assert (a + b)[0] == a[0];
      assert (a + b)[1..] == a[1..] + b;
      DropEmptyConcat(a[1..], b);
    }
  }

  /** The tags field: trimmed, split at commas, each piece trimmed, empty pieces dropped. */
  function ParseTags(raw: string): (r: seq<string>)
    ensures forall t :: t in r ==> TagOk(t)
  {
    var pieces := Split(Trim(raw), ',');
    var r := DropEmpty(TrimAll(pieces));
    assert forall t :: t in r ==> t in TrimAll(pieces);
    r
  }

  /** The tags are the comma pieces of the raw field, each trimmed, with the empty ones
      dropped, in order: trimming the whole field first changes none of them. */
  lemma ParseTagsPieces(raw: string)
    ensures ParseTags(raw) == DropEmpty(TrimAll(Split(raw, ',')))
  {
    PiecesIgnoreLeadingSpace(raw);
    PiecesIgnoreTrailingSpace(TrimStart(raw));
  }

  /** White space before the field only lengthens the first piece, which is trimmed. */
  lemma {:induction false} PiecesIgnoreLeadingSpace(s: string)
    ensures TrimAll(Split(TrimStart(s), ',')) == TrimAll(Split(s, ','))
  {
    if s != [] && IsSpace(s[0]) {
      var rest := Split(s[1..], ',');
      assert Split(s, ',') == [[s[0]] + rest[0]] + rest[1..];
      SpaceBeforeFirstPiece(s[0], rest);
      PiecesIgnoreLeadingSpace(s[1..]);
    }
  }

  /** White space after the field only lengthens the last piece, which is trimmed. */
  lemma {:induction false} PiecesIgnoreTrailingSpace(s: string)
    ensures TrimAll(Split(TrimEnd(s), ',')) == TrimAll(Split(s, ','))
    decreases |s|
  {
    if s != [] && IsSpace(s[|s| - 1]) {
      var c := s[|s| - 1];
      var s' := s[..|s| - 1];
      FrontThenLast(s);
      assert c != ',' && ',' !in [c];
      SplitAppend(s', [c], ',');
      SpaceAfterLastPiece(Split(s', ','), c);
      PiecesIgnoreTrailingSpace(s');
    }
  }

  lemma SpaceBeforeFirstPiece(c: char, ps: seq<string>)
    requires IsSpace(c) && ps != []
    ensures TrimAll([[c] + ps[0]] + ps[1..]) == TrimAll(ps)
  {
    HeadThenTail(ps);
    TrimAllCons([c] + ps[0], ps[1..]);
    TrimSkipsSpaceBefore(c, ps[0]);
    TrimAllCons(ps[0], ps[1..]);
  }

  lemma SpaceAfterLastPiece(ps: seq<string>, c: char)
    requires IsSpace(c) && ps != []
    ensures TrimAll(ps[..|ps| - 1] + [ps[|ps| - 1] + [c]]) == TrimAll(ps)
  {
    var n := |ps| - 1;
    FrontThenLast(ps);
    TrimAllSnoc(ps[..n], ps[n] + [c]);
    TrimSkipsSpaceAfter(ps[n], c);
    TrimAllSnoc(ps[..n], ps[n]);
  }

  lemma TrimAllCons(x: string, ys: seq<string>)
    ensures TrimAll([x] + ys) == [Trim(x)] + TrimAll(ys)
  {
    TrimAllOne(x);
    TrimAllConcat([x], ys);
  }

  lemma TrimAllSnoc(xs: seq<string>, x: string)
    ensures TrimAll(xs + [x]) == TrimAll(xs) + [Trim(x)]
  {
    TrimAllOne(x);
    TrimAllConcat(xs, [x]);
  }

  lemma TrimAllOne(x: string)
    ensures TrimAll([x]) == [Trim(x)]
  {
    assert [x][0] == x;
  }

  /** Trimming every piece works list by list. */
  lemma TrimAllConcat(a: seq<string>, b: seq<string>)
    ensures TrimAll(a + b) == TrimAll(a) + TrimAll(b)
  {
    assert forall i :: 0 <= i < |a| ==> (a + b)[i] == a[i];
    assert forall i :: 0 <= i < |b| ==> (a + b)[|a| + i] == b[i];
  }

  /** Every piece after the first one, as `join(', ')` lays it out. */
  function Spaced(ys: seq<string>): (r: seq<string>)
    ensures |r| == |ys| && forall i :: 0 <= i < |ys| ==> r[i] == " " + ys[i]
  {
    seq(|ys|, i requires 0 <= i < |ys| => " " + ys[i])
  }

  lemma {:induction false} SplitJoined(p: string, ys: seq<string>)
    requires ',' !in p && ys != []
    requires forall y :: y in ys ==> ',' !in y
    ensures Split(p + Join(ys, ", "), ',') == [p + ys[0]] + Spaced(ys[1..])
    decreases |ys|
  {
    if |ys| == 1 {
      SplitWithoutSeparator(p + ys[0], ',');
    } else {
      var rest := ys[1..];
      CommaSpace(p, ys[0], Join(rest, ", "));
      assert forall y :: y in rest ==> y in ys;
      SplitAtSeparator(p + ys[0], ',', " " + Join(rest, ", "));
      SplitJoined(" ", rest);
      assert [" " + rest[0]] + Spaced(rest[1..]) == Spaced(rest);
    }
  }

  lemma CommaSpace(a: string, b: string, j: string)
    ensures a + (b + ", " + j) == (a + b) + [','] + (" " + j)
  {
    assert ", " == [','] + " ";
  }

  lemma {:induction false} JoinEnds(ys: seq<string>)
    requires ys != [] && forall i :: 0 <= i < |ys| ==> ys[i] != ""
    ensures var j := Join(ys, ", ");
            j != [] && j[0] == ys[0][0] && j[|j| - 1] == ys[|ys| - 1][|ys[|ys| - 1]| - 1]
  {
    if |ys| > 1 {
      JoinEnds(ys[1..]);
      var t := Join(ys[1..], ", ");
      assert Join(ys, ", ") == ys[0] + ", " + t;
    }
  }

  lemma JoinTrimmed(tags: seq<string>)
    requires forall t :: t in tags ==> TagOk(t)
    ensures Trim(Join(tags, ", ")) == Join(tags, ", ")
  {
    if tags != [] {
      assert forall i :: 0 <= i < |tags| ==> TagOk(tags[i]);
      JoinEnds(tags);
      TrimOfTrimmed(Join(tags, ", "));
    }
  }

  lemma TrimPiece(tags: seq<string>, i: nat)
    requires i < |tags| && TagOk(tags[i])
    ensures Trim(([tags[0]] + Spaced(tags[1..]))[i]) == tags[i]
  {
    if i == 0 {
      TrimOfTrimmed(tags[0]);
    } else {
      assert ([tags[0]] + Spaced(tags[1..]))[i] == " " + tags[i];
      TrimLeadingSpace(" ", tags[i]);
    }
  }

  lemma TrimPieces(tags: seq<string>)
    requires tags != [] && forall t :: t in tags ==> TagOk(t)
    ensures TrimAll([tags[0]] + Spaced(tags[1..])) == tags
  {
    var pieces := [tags[0]] + Spaced(tags[1..]);
    var trimmed := TrimAll(pieces);
    forall i | 0 <= i < |tags| ensures trimmed[i] == tags[i] {
      assert tags[i] in tags;
      TrimPiece(tags, i);
    }
  }

  lemma SplitOfJoin(tags: seq<string>)
    requires tags != [] && forall t :: t in tags ==> ',' !in t
    ensures Split(Join(tags, ", "), ',') == [tags[0]] + Spaced(tags[1..])
  {
    SplitJoined("", tags);
    assert "" + Join(tags, ", ") == Join(tags, ", ");
    assert "" + tags[0] == tags[0];
  }

  lemma NoEmptyTags(tags: seq<string>)
    requires forall t :: t in tags ==> TagOk(t)
    ensures DropEmpty(tags) == tags
  {
    assert forall i :: 0 <= i < |tags| ==> tags[i] in tags;
  }

  /** The edit form shows a link's tags joined with `, ` (popup.js:1230); saving the form
      parses them back to the same list. */
  lemma {:induction false} TagsRoundTrip(tags: seq<string>)
    requires forall t :: t in tags ==> TagOk(t)
    ensures ParseTags(Join(tags, ", ")) == tags
  {
    var j := Join(tags, ", ");
    JoinTrimmed(tags);
    NoEmptyTags(tags);
    if tags == [] {
      assert Split(Trim(j), ',') == [""];
      assert TrimAll([""]) == [""];
    } else {
      SplitOfJoin(tags);
      TrimPieces(tags);
      assert TrimAll(Split(Trim(j), ',')) == tags;
    }
  }

  /** Opening a saved link for editing and saving it again leaves its tags as they were. */
  lemma ParseTagsStable(raw: string)
    ensures ParseTags(Join(ParseTags(raw), ", ")) == ParseTags(raw)
  {
    TagsRoundTrip(ParseTags(raw));
  }

  // ---------------------------------------------------------------------------------------
  // The URL field

  /** `url` with `https://` put in front unless it starts with `http://` or `https://`. */
  function FormatUrl(url: string): (r: string)
    ensures StartsWith(r, "http://") || StartsWith(r, "https://")
    ensures StartsWith(url, "http://") || StartsWith(url, "https://") ==> r == url
    ensures !(StartsWith(url, "http://") || StartsWith(url, "https://")) ==> r == "https://" + url
  {
    if !StartsWith(url, "http://") && !StartsWith(url, "https://") then
      var r := "https://" + url;
      assert r[..|"https://"|] == "https://";
      r
    else url
  }

  lemma FormatUrlIdempotent(url: string)
    ensures FormatUrl(FormatUrl(url)) == FormatUrl(url)
  {
  }

  // ---------------------------------------------------------------------------------------
  // Adding and editing a link

  /** The raw contents of the add/edit form. */
  datatype LinkForm = LinkForm(title: string, url: string, category: string, tags: string)

  /** The form needs a title and a URL once white space is trimmed. */
  predicate FormAccepted(form: LinkForm) {
    Trim(form.title) != "" && Trim(form.url) != ""
  }

  /** The fields an edit writes. */
  datatype Edit = Edit(title: string, url: string, category: string, tags: seq<string>, lastUpdated: string)

  function EditOf(form: LinkForm, now: string): (e: Edit)
    ensures e.title == Trim(form.title) && e.url == FormatUrl(Trim(form.url))
    ensures e.category == form.category && e.tags == ParseTags(form.tags) && e.lastUpdated == now
  {
    Edit(Trim(form.title), FormatUrl(Trim(form.url)), form.category, ParseTags(form.tags), now)
  }

  /** An edit changes `title`, `url`, `category`, `tags` and `lastUpdated` and nothing else. */
  function Apply(l: Link, e: Edit): (r: Link)
    ensures r.id == l.id && r.description == l.description && r.isShared == l.isShared
    ensures r.adminId == l.adminId && r.sharedBy == l.sharedBy && r.sharedAt == l.sharedAt
    ensures r.dateAdded == l.dateAdded
    ensures r.title == e.title && r.url == e.url && r.category == e.category
    ensures r.tags == e.tags && r.lastUpdated == e.lastUpdated
  {
    l.(title := e.title, url := e.url, category := e.category, tags := e.tags, lastUpdated := e.lastUpdated)
  }

  /** The position of the first link with this id, or `|xs|` when there is none. */
  function IndexOf(xs: seq<Link>, id: string): (k: nat)
    ensures k <= |xs|
    ensures forall j :: 0 <= j < k ==> xs[j].id != id
    ensures k < |xs| ==> xs[k].id == id
  {
    if xs == [] then 0
    else if xs[0].id == id then 0
    else 1 + IndexOf(xs[1..], id)
  }

  lemma {:induction false} IndexOfConcat(a: seq<Link>, b: seq<Link>, id: string)
    ensures IndexOf(a + b, id) == if IndexOf(a, id) < |a| then IndexOf(a, id) else |a| + IndexOf(b, id)
  {
    if a != [] {
      assert (a + b)[1..] == a[1..] + b;
      IndexOfConcat(a[1..], b, id);
    } else {
      assert a + b == b;
    }
  }

  /** The edit loop of popup.js:319-329 (and 333-343): update the first link with this id,
      in place, and stop. */
  method EditFirst(xs: seq<Link>, id: string, e: Edit) returns (ys: seq<Link>, found: bool)
    ensures found <==> IndexOf(xs, id) < |xs|
    ensures found ==> ys == xs[IndexOf(xs, id) := Apply(xs[IndexOf(xs, id)], e)]
    ensures !found ==> ys == xs
  {
    ys, found := xs, false;
    var i := 0;
    while i < |xs|
      invariant 0 <= i <= |xs|
      invariant forall j :: 0 <= j < i ==> xs[j].id != id
      invariant ys == xs && !found
    {
      if xs[i].id == id {
        ys := xs[i := Apply(xs[i], e)];
        found := true;
        assert IndexOf(xs, id) == i;
        break;
      }
      i := i + 1;
    }
  }

  /** The two collections after the edit of popup.js:318-344: the first matching link of
      `links` is edited, else the first matching link of `userLinks`. */
  function EditedCollections(links: seq<Link>, userLinks: seq<Link>, id: string, e: Edit)
    : (r: (seq<Link>, seq<Link>))
    ensures |r.0| == |links| && |r.1| == |userLinks|
    ensures IndexOf(links, id) < |links| ==> r.1 == userLinks
    ensures IndexOf(links, id) == |links| ==> r.0 == links
    // Exactly one link changes, the first with the id in `links` then `userLinks`.
    ensures r.0 + r.1 == (if IndexOf(links + userLinks, id) < |links + userLinks|
                          then (links + userLinks)[IndexOf(links + userLinks, id) :=
                                  Apply((links + userLinks)[IndexOf(links + userLinks, id)], e)]
                          else links + userLinks)
  {
    IndexOfConcat(links, userLinks, id);
    var k := IndexOf(links, id);
    if k < |links| then
      var r := (links[k := Apply(links[k], e)], userLinks);
      assert r.0 + r.1 == (links + userLinks)[k := Apply(links[k], e)];
      r
    else
      var m := IndexOf(userLinks, id);
      if m < |userLinks| then
        var r := (links, userLinks[m := Apply(userLinks[m], e)]);
        assert r.0 + r.1 == (links + userLinks)[|links| + m := Apply(userLinks[m], e)];
        r
      else (links, userLinks)
  }

  /** A new link: a `user_<time>` id and the form's fields. */
  function NewUserLink(form: LinkForm, stamp: string, now: string): (l: Link)
    ensures l.id == "user_" + stamp && l.dateAdded == now && !l.isShared
    ensures l.title == Trim(form.title) && l.url == FormatUrl(Trim(form.url))
    ensures l.category == form.category && l.tags == ParseTags(form.tags)
  {
    Plain("user_" + stamp, Trim(form.title), FormatUrl(Trim(form.url)), form.category,
          ParseTags(form.tags), "").(dateAdded := now)
  }

  /** The store after `addLink()` with the form `form`, in edit mode for `editId` when it is
      not empty. */
  function AddLinkEffect(s: StoreState, form: LinkForm, editId: string, stamp: string, now: string)
    : (r: StoreState)
    ensures !FormAccepted(form) ==> r == s
    ensures FormAccepted(form) && editId == "" ==>
              r == s.(userLinks := s.userLinks + [NewUserLink(form, stamp, now)])
    ensures FormAccepted(form) && editId != "" ==>
              var (ls, us) := EditedCollections(s.links, s.userLinks, editId, EditOf(form, now));
              r == s.(links := ls, userLinks := us)
    // Only the two link collections can change.
    ensures r.categories == s.categories && r.adminLinks == s.adminLinks && r.initialized == s.initialized
  {
    if !FormAccepted(form) then s
    else if editId == "" then s.(userLinks := s.userLinks + [NewUserLink(form, stamp, now)])
    else
      var (ls, us) := EditedCollections(s.links, s.userLinks, editId, EditOf(form, now));
      s.(links := ls, userLinks := us)
  }

  /** What `addLink()` reports. */
  datatype AddOutcome = MissingField | LinkUpdated | LinkAdded

  /** `addLink()`. `editId` is the form's pending edit id (`''` when adding). */
  method AddLink(store: Store, form: LinkForm, editId: string, stamp: string, now: string)
    returns (outcome: AddOutcome)
    modifies store
    ensures store.State() == AddLinkEffect(old(store.State()), form, editId, stamp, now)
    ensures outcome == (if !FormAccepted(form) then MissingField
                        else if editId != "" then LinkUpdated else LinkAdded)
  {
    var title := Trim(form.title);
    var url := Trim(form.url);
    if title == "" || url == "" {
      return MissingField;
    }
    if editId != "" {
      UpdateLink(store, editId, EditOf(form, now));
      outcome := LinkUpdated;
    } else {
      AppendUserLink(store, NewUserLink(form, stamp, now));
      outcome := LinkAdded;
    }
  }

  /** The add branch of `addLink()` (popup.js:365-378): the new link goes last in `userLinks`. */
  method AppendUserLink(store: Store, l: Link)
    modifies store
    ensures store.State() == old(store.State()).(userLinks := old(store.userLinks) + [l])
  {
    var userLinks := store.userLinks;
    userLinks := userLinks + [l];
    store.userLinks := userLinks;
  }

  /** The edit branch of `addLink()` (popup.js:311-362): the first link with the id in
      `links`, else in `userLinks`, takes the edit; both collections are written back. */
  method UpdateLink(store: Store, id: string, e: Edit)
    modifies store
    ensures var (ls, us) := EditedCollections(old(store.links), old(store.userLinks), id, e);
            store.State() == old(store.State()).(links := ls, userLinks := us)
  {
    var links, linkUpdated := EditFirst(store.links, id, e);
    var userLinks := store.userLinks;
    if !linkUpdated {
      userLinks, linkUpdated := EditFirst(userLinks, id, e);
    }
    store.links := links;
    store.userLinks := userLinks;
  }

  // ---------------------------------------------------------------------------------------
  // Adding a category

  /** The category list after `addCategory()` with the raw field `raw`: `None` when the
      trimmed name is empty or already present. */
  function CategoryAdded(categories: seq<string>, raw: string): (r: Option<seq<string>>)
    ensures r.None? <==> Trim(raw) == "" || Trim(raw) in categories
    ensures r.Some? ==> |r.value| == |categories| + 1 && r.value[..|categories|] == categories &&
                        r.value[|categories|] == Trim(raw)
    ensures r.Some? && NoDup(categories) ==> NoDup(r.value)
  {
    var name := Trim(raw);
    if name == "" || name in categories then None
    else
      var r := categories + [name];
      assert r[..|categories|] == categories;
      Some(r)
  }

  /** `addCategory()`; `added` is false when the name was rejected. */
  method AddCategory(store: Store, raw: string) returns (added: bool)
    modifies store
    ensures added <==> CategoryAdded(old(store.categories), raw).Some?
    ensures added ==> store.State() == old(store.State()).(categories := CategoryAdded(old(store.categories), raw).value)
    ensures !added ==> unchanged(store)
  {
    var newCategory := Trim(raw);
    if newCategory == "" {
      return false;
    }
    var categories := store.categories;
    if newCategory in categories {
      return false;
    }
    categories := categories + [newCategory];
    store.categories := categories;
    added := true;
  }

  // ---------------------------------------------------------------------------------------
  // Finding and deleting a link

  /** The first link with this id, if any. */
  function FindLink(xs: seq<Link>, id: string): (r: Option<Link>)
    ensures r.Some? ==> r.value in xs && r.value.id == id
    ensures r.None? <==> forall l :: l in xs ==> l.id != id
    ensures r.Some? ==> r.value == xs[IndexOf(xs, id)]
  {
    var k := IndexOf(xs, id);
    if k < |xs| then Some(xs[k]) else None
  }

  /** The link the edit button opens (searched in `links` then `userLinks`) is the very link
      saving the form then updates. */
  lemma EditTargetsFoundLink(links: seq<Link>, userLinks: seq<Link>, id: string, e: Edit)
    requires FindLink(links + userLinks, id).Some?
    ensures var (ls, us) := EditedCollections(links, userLinks, id, e);
            var l := FindLink(links + userLinks, id).value;
            Apply(l, e) in ls + us && multiset(ls + us) == multiset(links + userLinks) - multiset{l} + multiset{Apply(l, e)}
  {
    var all := links + userLinks;
    var k := IndexOf(all, id);
    var (ls, us) := EditedCollections(links, userLinks, id, e);
    assert ls + us == all[k := Apply(all[k], e)];
    assert all == all[..k] + [all[k]] + all[k + 1..];
    assert ls + us == all[..k] + [Apply(all[k], e)] + all[k + 1..];
  }

  /** The links whose id differs from `id`, in their order. */
  function Without(xs: seq<Link>, id: string): (r: seq<Link>)
    ensures forall l :: l in r ==> l in xs && l.id != id
    ensures forall l :: l in xs && l.id != id ==> l in r
    ensures |r| <= |xs|
  {
    if xs == [] then []
    else if xs[0].id == id then Without(xs[1..], id)
    else [xs[0]] + Without(xs[1..], id)
  }

  /** Deleting keeps the surviving links in their order: filtering distributes over
      concatenation, so a link before another stays before it. */
  lemma {:induction false} WithoutConcat(a: seq<Link>, b: seq<Link>, id: string)
    ensures Without(a + b, id) == Without(a, id) + Without(b, id)
  {
    if a == [] {
      assert a + b == b;
    } else {
      assert (a + b)[1..] == a[1..] + b;
      WithoutConcat(a[1..], b, id);
    }
  }

  /** After a delete neither the edit nor the share button can find the link. */
  lemma DeletedLinkNotFound(links: seq<Link>, userLinks: seq<Link>, id: string)
    ensures FindLink(Without(links, id) + Without(userLinks, id), id).None?
  {
    WithoutConcat(links, userLinks, id);
  }

  /** `deleteLink(linkId)`; nothing happens unless the confirmation dialog is accepted. */
  method DeleteLink(store: Store, id: string, confirmed: bool)
    modifies store
    ensures confirmed ==> store.State() == old(store.State()).(links := Without(old(store.links), id),
                                                               userLinks := Without(old(store.userLinks), id))
    ensures !confirmed ==> unchanged(store)
  {
    if confirmed {
      var newLinks := Without(store.links, id);
      var newUserLinks := Without(store.userLinks, id);
      store.links := newLinks;
      store.userLinks := newUserLinks;
    }
  }

  // ---------------------------------------------------------------------------------------
  // Export and import

  /** The exported file `{links, userLinks, categories, exportDate}`. */
  datatype ExportFile = ExportFile(links: seq<Link>, userLinks: seq<Link>, categories: seq<string>,
                                   exportDate: string)

  function ExportOf(s: StoreState, now: string): (f: ExportFile)
    ensures f.links == s.links && f.userLinks == s.userLinks && f.categories == s.categories
  {
    ExportFile(s.links, s.userLinks, s.categories, now)
  }

  /** A chosen import file as parsed JSON; `None` fields are absent (or falsy). */
  datatype ImportFile = ImportFile(links: Option<seq<Link>>, userLinks: Option<seq<Link>>,
                                   categories: Option<seq<string>>)

  /** Reading back an exported file. */
  function Reread(f: ExportFile): ImportFile {
    ImportFile(Some(f.links), Some(f.userLinks), Some(f.categories))
  }

  /** The store after importing `file` (`None`: not valid JSON): only `links` and
      `categories` are written, and only when the file has both. */
  function ImportEffect(s: StoreState, file: Option<ImportFile>): (r: Option<StoreState>)
    ensures r.Some? <==> file.Some? && file.value.links.Some? && file.value.categories.Some?
    ensures r.Some? ==> r.value == s.(links := file.value.links.value, categories := file.value.categories.value)
  {
    match file
    case None => None
    case Some(f) =>
      if f.links.None? || f.categories.None? then None
      else Some(s.(links := f.links.value, categories := f.categories.value))
  }

  /** Exporting and importing restores `links` and `categories`, but the importing store
      keeps its own `userLinks`. */
  lemma ExportImportRoundTrip(s: StoreState, t: StoreState, now: string)
    ensures var r := ImportEffect(t, Some(Reread(ExportOf(s, now))));
            r.Some? && r.value.links == s.links && r.value.categories == s.categories &&
            r.value.userLinks == t.userLinks
  {
  }

  /** So the round trip restores the whole `{links, userLinks, categories}` triple only when
      the importing store already had the exported user links. */
  lemma ExportImportTriple(s: StoreState, t: StoreState, now: string)
    ensures var r := ImportEffect(t, Some(Reread(ExportOf(s, now)))).value;
            (r.links, r.userLinks, r.categories) == (s.links, s.userLinks, s.categories)
            <==> t.userLinks == s.userLinks
  {
  }

  /** `importData()` once the file has been read; `imported` is false on a rejected file. */
  method ImportData(store: Store, file: Option<ImportFile>) returns (imported: bool)
    modifies store
    ensures imported <==> ImportEffect(old(store.State()), file).Some?
    ensures imported ==> store.State() == ImportEffect(old(store.State()), file).value
    ensures !imported ==> unchanged(store)
  {
    if file.None? {
      return false;
    }
    var data := file.value;
    if data.links.None? || data.categories.None? {
      return false;
    }
    store.links := data.links.value;
    store.categories := data.categories.value;
    imported := true;
  }
}
