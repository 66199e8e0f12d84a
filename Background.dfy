/** The extension's background service worker (background.js): the periodic synchroniser
    that pulls the shared link feed into the store, the bundled-defaults loaders, the
    reset-to-defaults and share-link message handlers, and the installation's user id.
    Network and file reads arrive as `Fetched` values; timestamps and random suffixes are
    parameters. */
module Background {
  import opened Common
  import opened Storage

  /** Categories used when `default_links.json` has none (background.js:167-170, 298). */
  const ManifestFallbackCategories: seq<string> :=
    ["2D", "3D", "Maps", "Vision", "Logs review & Stereo", "Automation", "PDA",
     "Down selection", "Other"]

  /** Categories written by first-run defaults (background.js:376, 414). */
  const FirstRunCategories: seq<string> := ["2D", "3D", "Maps", "Vision", "Other"]

  /** The two links written when `default_links.json` cannot be used (background.js:393-410). */
  function HardcodedLinks(): (r: seq<Link>)
    ensures |r| == 2 && r[0].id == "admin_1" && r[1].id == "admin_2"
    ensures forall l :: l in r ==> l.category in FirstRunCategories
  {
    [ Plain("admin_1", "MDN Web Documentation", "https://developer.mozilla.org", "2D",
            ["documentation", "web", "javascript"], "Comprehensive web development documentation"),
      Plain("admin_2", "GitHub", "https://github.com", "Other",
            ["code", "repository", "git"], "Host and review code, manage projects") ]
  }

  // ---------------------------------------------------------------------------------------
  // Response normalisation (fetchSharedLinks)

  /** `a` and `b` agree on every field except `id` and `isShared`. */
  predicate SameContent(a: Link, b: Link) {
    a.(id := "", isShared := false) == b.(id := "", isShared := false)
  }

  /** A copy of the link flagged as shared, keeping its id or, when it has none, taking
      `shared_` followed by the random suffix. */
  function Stamp(l: Link, suffix: string): (r: Link)
    ensures r.isShared && SameContent(r, l)
    ensures l.id != "" ==> r.id == l.id
    ensures l.id == "" ==> r.id == "shared_" + suffix
  {
    l.(isShared := true, id := if l.id != "" then l.id else "shared_" + suffix)
  }

  /** The `map` of background.js:145-149; `rand(i)` is the random suffix drawn for element
      `i` when it has no id. */
  function NormalizeLinks(xs: seq<Link>, rand: nat -> string): (r: seq<Link>)
    ensures |r| == |xs|
    ensures forall i :: 0 <= i < |xs| ==> r[i].isShared && r[i].id != "" && SameContent(r[i], xs[i])
    ensures forall i :: 0 <= i < |xs| && xs[i].id != "" ==> r[i].id == xs[i].id
    ensures forall i :: 0 <= i < |xs| && xs[i].id == "" ==> r[i].id == "shared_" + rand(i)
  {
    var r := seq(|xs|, i requires 0 <= i < |xs| => Stamp(xs[i], rand(i)));
    assert forall i :: 0 <= i < |xs| ==> r[i] == Stamp(xs[i], rand(i));
    r
  }

  /** `fetchSharedLinks()`: the normalised link array of a successful, parseable response;
      `[]` for an HTTP error, a transport failure or a body that is not JSON. */
  function FetchSharedLinks(feed: Fetched, rand: nat -> string): (r: seq<Link>)
    ensures AcceptedPayload(feed).Some? ==>
              |r| == |ChooseLinks(feed.json.value)| &&
              forall i :: 0 <= i < |r| ==> SameContent(r[i], ChooseLinks(feed.json.value)[i])
    ensures AcceptedPayload(feed).Some? ==>
              forall i :: 0 <= i < |r| ==>
                (ChooseLinks(feed.json.value)[i].id != "" ==> r[i].id == ChooseLinks(feed.json.value)[i].id) &&
                (ChooseLinks(feed.json.value)[i].id == "" ==> r[i].id == "shared_" + rand(i))
    ensures AcceptedPayload(feed).None? ==> r == []
    ensures forall l :: l in r ==> l.isShared && l.id != ""
  {
    match AcceptedPayload(feed)
    case Some(p) => NormalizeLinks(ChooseLinks(p), rand)
    case None => []
  }

  /** A feed whose `links` is an empty array yields no links even when `adminLinks` has
      some: `links` wins whenever it is an array. */
  lemma EmptyLinksArrayWins(status: int, admin: seq<Link>, cats: Option<seq<string>>, rand: nat -> string)
    requires 200 <= status < 300
    ensures FetchSharedLinks(Answer(status, Some(Payload(Some([]), Some(admin), cats))), rand) == []
  {
  }

  // ---------------------------------------------------------------------------------------
  // The bundled defaults file

  /** What `loadDefaultLinksFromFile` and the reset handler take from `default_links.json`:
      its `adminLinks` (or `[]`) and its `categories` (or the nine fallback categories). The
      status is not checked; a body that does not parse yields nothing. */
  function DefaultsFromFile(manifest: Fetched): (r: Option<(seq<Link>, seq<string>)>)
    ensures r.Some? <==> manifest.Answer? && manifest.json.Some?
    ensures r.Some? ==> r.value.0 == manifest.json.value.adminLinks.GetOr([])
    ensures r.Some? && manifest.json.value.categories.None? ==>
              r.value.1 == ManifestFallbackCategories && "Other" in r.value.1
    ensures r.Some? && manifest.json.value.categories.Some? ==>
              r.value.1 == manifest.json.value.categories.value
  {
    if manifest.Answer? && manifest.json.Some? then
      var p := manifest.json.value;
      Some((p.adminLinks.GetOr([]), p.categories.GetOr(ManifestFallbackCategories)))
    else None
  }

  /** The store after `loadDefaultLinksFromFile`: only `links`, `categories`, `initialized`
      and `lastUpdate` are written, and only when the file was read. */
  function AfterDefaultsFile(s: StoreState, manifest: Fetched, now: string): (r: StoreState)
    ensures DefaultsFromFile(manifest).None? ==> r == s
    ensures DefaultsFromFile(manifest).Some? ==>
              r.links == DefaultsFromFile(manifest).value.0 &&
              r.categories == DefaultsFromFile(manifest).value.1 &&
              r.initialized && r.lastUpdate == now
    ensures r.userLinks == s.userLinks && r.adminLinks == s.adminLinks && r.userId == s.userId
    ensures r.lastApiSuccess == s.lastApiSuccess && r.lastSyncTime == s.lastSyncTime
  {
    match DefaultsFromFile(manifest)
    case Some((ls, cs)) => s.(links := ls, categories := cs, initialized := true, lastUpdate := now)
    case None => s
  }

  // ---------------------------------------------------------------------------------------
  // The synchroniser

  /** Everything one `synchronizeLinks()` run depends on besides the store: the feed
      response, the defaults file, whether a storage call throws, the time and the random
      id suffixes. */
  datatype SyncEnv = SyncEnv(
    feed: Fetched,
    manifest: Fetched,
    storageThrows: bool,
    now: string,
    rand: nat -> string)

  /** The store after one synchronisation that fetched `shared`. */
  function SyncEffect(s: StoreState, shared: seq<Link>, env: SyncEnv): (r: StoreState)
    // A fetch with links replaces `links` wholesale and leaves `categories` alone.
    ensures !env.storageThrows && |shared| > 0 ==>
              r == s.(links := shared, initialized := true, lastSyncTime := env.now)
    // An empty fetch over a non-empty store (an outage) changes nothing.
    ensures shared == [] && s.links != [] ==> r == s
    // An empty fetch over an empty store falls back to the defaults file.
    ensures !env.storageThrows && shared == [] && s.links == [] ==>
              r == AfterDefaultsFile(s, env.manifest, env.now)
    ensures env.storageThrows ==> r == s
    // Sync never writes the user's links, the admin mirror or the user id.
    ensures r.userLinks == s.userLinks && r.adminLinks == s.adminLinks && r.userId == s.userId
    ensures r.lastApiSuccess == s.lastApiSuccess
  {
    if env.storageThrows then s
    else if |shared| > 0 then s.(links := shared, initialized := true, lastSyncTime := env.now)
    else if |s.links| > 0 then s
    else AfterDefaultsFile(s, env.manifest, env.now)
  }

  /** A transient outage after a successful sync keeps the synced links. */
  lemma OutageKeepsSyncedLinks(s: StoreState, shared: seq<Link>, env: SyncEnv, later: SyncEnv)
    requires !env.storageThrows && |shared| > 0
    ensures var t := SyncEffect(s, shared, env);
            SyncEffect(t, [], later) == t && t.links == shared
  {
  }

  /** Repeating a synchronisation that fetched nothing changes nothing further. */
  lemma EmptySyncIdempotent(s: StoreState, env: SyncEnv)
    ensures SyncEffect(SyncEffect(s, [], env), [], env) == SyncEffect(s, [], env)
  {
  }

  /** One synchronisation of an empty store with no network stores the bundled defaults
      file's admin links and its categories, or the fallback list when it has none. */
  lemma FreshInstallOffline(env: SyncEnv, links: Option<seq<Link>>, admin: seq<Link>,
                            cats: Option<seq<string>>, status: int)
    requires !env.storageThrows && env.feed == NetworkFailure
    requires env.manifest == Answer(status, Some(Payload(links, Some(admin), cats)))
    ensures var r := SyncEffect(EmptyState(), FetchSharedLinks(env.feed, env.rand), env);
            r.links == admin && r.initialized &&
            r.categories == cats.GetOr(ManifestFallbackCategories) &&
            (cats.None? ==> "Other" in r.categories)
  {
  }

  /** One feed link `{title: "A", url: "a.com"}` is stored with a generated id and the
      shared flag, its URL untouched; the store's categories are not taken from the feed. */
  lemma SingleFeedLinkScenario(s: StoreState, env: SyncEnv, a: Link, status: int)
    requires !env.storageThrows && 200 <= status < 300
    requires a == Plain("", "A", "a.com", "", [], "")
    requires env.feed == Answer(status, Some(Payload(Some([a]), None, Some(["X"]))))
    ensures var r := SyncEffect(s, FetchSharedLinks(env.feed, env.rand), env);
            |r.links| == 1 && r.links[0].id == "shared_" + env.rand(0) &&
            r.links[0].isShared && r.links[0].url == "a.com" && r.links[0].title == "A" &&
            r.categories == s.categories
  {
    var shared := FetchSharedLinks(env.feed, env.rand);
    assert shared == [Stamp(a, env.rand(0))];
  }

  // ---------------------------------------------------------------------------------------
  // First-run defaults (loadDefaultData) and the categories refresh

  /** The links and categories first-run defaults write: the defaults file's when it was
      served with a success status, parsed, and has an `adminLinks` array; otherwise the two
      hardcoded links and the five first-run categories. */
  function FirstRunData(manifest: Fetched): (r: (seq<Link>, seq<string>))
    ensures AcceptedPayload(manifest).Some? && manifest.json.value.adminLinks.Some? ==>
              r.0 == manifest.json.value.adminLinks.value &&
              r.1 == manifest.json.value.categories.GetOr(FirstRunCategories)
    ensures !(AcceptedPayload(manifest).Some? && manifest.json.value.adminLinks.Some?) ==>
              r == (HardcodedLinks(), FirstRunCategories)
  {
    match AcceptedPayload(manifest)
    case Some(p) =>
      if p.adminLinks.Some? then (p.adminLinks.value, p.categories.GetOr(FirstRunCategories))
      else (HardcodedLinks(), FirstRunCategories)
    case None => (HardcodedLinks(), FirstRunCategories)
  }

  /** The store after `loadDefaultData()`: untouched when already initialised with links,
      otherwise `links`, `categories`, `initialized` and `lastUpdate` are written. */
  function FirstRunEffect(s: StoreState, manifest: Fetched, now: string): (r: StoreState)
    ensures s.initialized && s.links != [] ==> r == s
    ensures !(s.initialized && s.links != []) ==>
              r.links == FirstRunData(manifest).0 && r.categories == FirstRunData(manifest).1 &&
              r.initialized && r.lastUpdate == now
    ensures r.userLinks == s.userLinks && r.adminLinks == s.adminLinks && r.userId == s.userId
    ensures r.lastApiSuccess == s.lastApiSuccess && r.lastSyncTime == s.lastSyncTime
  {
    if s.initialized && |s.links| > 0 then s
    else
      var (ls, cs) := FirstRunData(manifest);
      s.(links := ls, categories := cs, initialized := true, lastUpdate := now)
  }

  /** First-run defaults on an unreadable defaults file write exactly the hardcoded data. */
  lemma FirstRunWithoutFile(s: StoreState, manifest: Fetched, now: string)
    requires !s.initialized
    requires !manifest.IsOk()
    ensures var r := FirstRunEffect(s, manifest, now);
            |r.links| == 2 && r.categories == ["2D", "3D", "Maps", "Vision", "Other"]
  {
  }

  /** The defaults file was read and holds a non-empty `categories` array. */
  predicate ServesCategories(manifest: Fetched) {
    manifest.Answer? && manifest.json.Some? && manifest.json.value.categories.Some? &&
    manifest.json.value.categories.value != []
  }

  /** `updateCategoriesFromDefaultFile()` overwrites `categories` only with a non-empty
      array from the defaults file (whatever the status), and touches nothing else. */
  function CategoriesRefresh(s: StoreState, manifest: Fetched): (r: StoreState)
    ensures ServesCategories(manifest) ==> r == s.(categories := manifest.json.value.categories.value)
    ensures !ServesCategories(manifest) ==> r == s
    ensures r.categories != [] || r == s
  {
    if manifest.Answer? && manifest.json.Some? then
      match manifest.json.value.categories
      case Some(cs) => if |cs| > 0 then s.(categories := cs) else s
      case None => s
    else s
  }

  // ---------------------------------------------------------------------------------------
  // The installation's user id

  /** The id kept after start-up: the stored one, or a new `user_<time>_<random>` id when
      none is stored. */
  function UserIdAfterInit(stored: string, stamp: string, rand: string): (r: string)
    ensures r != ""
    ensures stored != "" ==> r == stored
    ensures stored == "" ==> r == "user_" + stamp + "_" + rand
  {
    if stored == "" then "user_" + stamp + "_" + rand else stored
  }

  /** A second start-up keeps the id the first one settled on. */
  lemma UserIdStable(stored: string, stamp1: string, rand1: string, stamp2: string, rand2: string)
    ensures var first := UserIdAfterInit(stored, stamp1, rand1);
            UserIdAfterInit(first, stamp2, rand2) == first
  {
  }

  // ---------------------------------------------------------------------------------------
  // Sharing a link

  /** The link object a share message carries: any field may be missing, and `tags` may be
      something other than an array (`None`). */
  datatype ShareRequest = ShareRequest(
    title: string,
    url: string,
    category: string,
    tags: Option<seq<string>>,
    description: string)

  /** The link `shareUserLink` builds: missing text fields become `''`, a missing category
      becomes `Other`, a non-array `tags` becomes `[]`, and it is signed by the user id or
      `anonymous`. */
  function SharedLinkOf(req: ShareRequest, userId: string, id: string, now: string): (l: Link)
    ensures l.id == id && l.title == req.title && l.url == req.url && l.description == req.description
    ensures l.category != "" && (req.category != "" ==> l.category == req.category)
    ensures req.category == "" ==> l.category == "Other"
    ensures l.tags == (if req.tags.Some? then req.tags.value else [])
    ensures l.sharedBy != "" && (userId != "" ==> l.sharedBy == userId)
    ensures userId == "" ==> l.sharedBy == "anonymous"
    ensures l.sharedAt == now && !l.isShared
  {
    Link(id, req.title, req.url, if req.category != "" then req.category else "Other",
         req.tags.GetOr([]), req.description, false, "",
         if userId != "" then userId else "anonymous", now, "", "")
  }

  /** The list `shareUserLink` posts back, given the response to its read of the remote
      list: the remote `links` array (never `adminLinks`) with the new link appended. */
  function SharedList(current: Fetched, newLink: Link): (r: Result<seq<Link>, Cause>)
    ensures r.Success? <==> AcceptedPayload(current).Some?
    ensures r.Success? ==>
              var remote := current.json.value.links.GetOr([]);
              |r.value| == |remote| + 1 && r.value[..|remote|] == remote &&
              r.value[|remote|] == newLink
    ensures current.Answer? && !current.IsOk() ==> r == Failure(ListFetchFailed(current.status))
    ensures current.IsOk() && current.json.None? ==> r == Failure(BadJson)
    ensures !current.Answer? ==> r == Failure(NetworkDown)
  {
    match current
    case NetworkFailure => Failure(NetworkDown)
    case TimedOut => Failure(NetworkDown)
    case Answer(status, json) =>
      if !current.IsOk() then Failure(ListFetchFailed(status))
      else match json
        case None => Failure(BadJson)
        case Some(p) => Success(p.links.GetOr([]) + [newLink])
  }

  /** A remote body with only `adminLinks` is treated as an empty list: the shared links it
      holds are not carried into the posted list. */
  lemma ShareIgnoresAdminLinks(status: int, admin: seq<Link>, newLink: Link)
    requires 200 <= status < 300
    ensures SharedList(Answer(status, Some(Payload(None, Some(admin), None))), newLink) ==
            Success([newLink])
  {
  }

  /** The background worker: its module-level user id and the storage area it uses
      (`chrome.storage.sync` where available, else `chrome.storage.local`). */
  class Worker {
    var userId: string
    const storage: Store

    constructor (storage: Store)
      ensures this.storage == storage && userId == "anonymous"
    {
      this.storage := storage;
      userId := "anonymous";
    }

    /** The `userId` start-up step of background.js:22-28. */
    method InitUserId(stamp: string, rand: string)
      modifies this, storage
      ensures userId == UserIdAfterInit(old(storage.userId), stamp, rand)
      ensures storage.State() == old(storage.State()).(userId := userId)
    {
      if storage.userId == "" {
        userId := "user_" + stamp + "_" + rand;
        storage.userId := userId;
      } else {
        userId := storage.userId;
      }
    }

    /** `loadDefaultLinksFromFile()`. */
    method LoadDefaultLinksFromFile(manifest: Fetched, now: string) returns (reply: Reply)
      modifies storage
      ensures storage.State() == AfterDefaultsFile(old(storage.State()), manifest, now)
      ensures reply.Done? <==> DefaultsFromFile(manifest).Some?
    {
      if !manifest.Answer? {
        return Failed(NetworkDown);
      }
      if manifest.json.None? {
        return Failed(BadJson);
      }
      var data := manifest.json.value;
      var adminLinks := data.adminLinks.GetOr([]);
      var categories := data.categories.GetOr(ManifestFallbackCategories);
      storage.links := adminLinks;
      storage.categories := categories;
      storage.initialized := true;
      storage.lastUpdate := now;
      reply := Done("");
    }

    /** `synchronizeLinks()`; `notified` records the `linksUpdated` broadcast. */
    method Synchronize(env: SyncEnv) returns (reply: Reply, notified: bool)
      modifies storage
      ensures storage.State() ==
              SyncEffect(old(storage.State()), FetchSharedLinks(env.feed, env.rand), env)
      ensures reply == (if env.storageThrows then Failed(StorageThrew) else Done(""))
      ensures notified == !env.storageThrows
    {
      var sharedLinks := FetchSharedLinks(env.feed, env.rand);
      if |sharedLinks| == 0 {
        if env.storageThrows {
          return Failed(StorageThrew), false;
        }
        var hasLinks := |storage.links| > 0;
        if !hasLinks {
          var ignored := LoadDefaultLinksFromFile(env.manifest, env.now);
        }
      } else {
        if env.storageThrows {
          return Failed(StorageThrew), false;
        }
        storage.links := sharedLinks;
        storage.initialized := true;
        storage.lastSyncTime := env.now;
      }
      reply, notified := Done(""), true;
    }

    /** `shareUserLink(link)`: `current` answers the read of the remote list, `update` the
      post of the new one, and `env` the follow-up synchronisation. `posted` is the list
      sent, if the post was made. */
    method ShareUserLink(req: ShareRequest, stamp: string, rand: string, now: string,
                         current: Fetched, update: Fetched, env: SyncEnv)
      returns (reply: Reply, posted: Option<seq<Link>>)
      modifies storage
      ensures var l := SharedLinkOf(req, old(userId), "shared_" + stamp + "_" + rand, now);
              posted == (match SharedList(current, l)
                         case Success(xs) => Some(xs)
                         case Failure(_) => None)
      ensures SharedList(current, SharedLinkOf(req, old(userId), "shared_" + stamp + "_" + rand, now)).Failure? ==>
                reply == Failed(SharedList(current, SharedLinkOf(req, old(userId), "shared_" + stamp + "_" + rand, now)).error) &&
                unchanged(storage)
      ensures posted.Some? && !update.Answer? ==> reply == Failed(NetworkDown) && unchanged(storage)
      ensures posted.Some? && update.Answer? && !update.IsOk() ==>
                reply == Failed(ListUpdateFailed(update.status)) && unchanged(storage)
      ensures posted.Some? && update.IsOk() ==>
                reply == Done("Link shared successfully") &&
                storage.State() == SyncEffect(old(storage.State()), FetchSharedLinks(env.feed, env.rand), env)
    {
      var sharedLink := SharedLinkOf(req, userId, "shared_" + stamp + "_" + rand, now);
      var list := SharedList(current, sharedLink);
      if list.Failure? {
        return Failed(list.error), None;
      }
      posted := Some(list.value);
      if !update.Answer? {
        return Failed(NetworkDown), posted;
      }
      if !update.IsOk() {
        return Failed(ListUpdateFailed(update.status)), posted;
      }
      var ignored, notified := Synchronize(env);
      reply := Done("Link shared successfully");
    }

    /** The `resetToDefaults` message handler. */
    method ResetToDefaults(manifest: Fetched, now: string) returns (reply: Reply, notified: bool)
      modifies storage
      ensures storage.State() == AfterDefaultsFile(old(storage.State()), manifest, now)
      ensures reply.Done? <==> DefaultsFromFile(manifest).Some?
      ensures notified <==> reply.Done?
    {
      if !manifest.Answer? {
        return Failed(NetworkDown), false;
      }
      if manifest.json.None? {
        return Failed(BadJson), false;
      }
      var data := manifest.json.value;
      var defaultCategories := data.categories.GetOr(ManifestFallbackCategories);
      var defaultLinks := data.adminLinks.GetOr([]);
      storage.links := defaultLinks;
      storage.categories := defaultCategories;
      storage.initialized := true;
      storage.lastUpdate := now;
      reply, notified := Done(""), true;
    }

    /** `loadDefaultData()`. */
    method LoadDefaultData(manifest: Fetched, now: string)
      modifies storage
      ensures storage.State() == FirstRunEffect(old(storage.State()), manifest, now)
    {
      var isInitialized := storage.initialized;
      var hasLinks := |storage.links| > 0;
      if !isInitialized || !hasLinks {
        var links, categories := HardcodedLinks(), FirstRunCategories;
        if manifest.IsOk() && manifest.json.Some? && manifest.json.value.adminLinks.Some? {
          var data := manifest.json.value;
          links := data.adminLinks.value;
          categories := data.categories.GetOr(FirstRunCategories);
        }
        storage.links := links;
        storage.categories := categories;
        storage.initialized := true;
        storage.lastUpdate := now;
      }
    }

    /** `updateCategoriesFromDefaultFile()`; `notified` records the `categoriesUpdated`
        broadcast. */
    method UpdateCategoriesFromDefaultFile(manifest: Fetched) returns (notified: bool)
      modifies storage
      ensures storage.State() == CategoriesRefresh(old(storage.State()), manifest)
      ensures notified <==> ServesCategories(manifest)
    {
      notified := false;
      if manifest.Answer? && manifest.json.Some? {
        var data := manifest.json.value;
        if data.categories.Some? && |data.categories.value| > 0 {
          storage.categories := data.categories.value;
          notified := true;
        }
      }
    }
  }
}
