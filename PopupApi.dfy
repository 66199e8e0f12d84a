/** The popup's own fetch of the shared links (popup.js `fetchApiLinks`): three endpoints
    tried in order, the first usable answer saved by `handleApiSuccess`, and the offline
    demo data of `useFallbackWithAllCategories` when none answers. What each endpoint
    answers is a parameter; the `?cachebust=` suffix of the request is not. */
module PopupApi {
  import opened Common
  import opened Storage
  import opened PopupView

  /** `API_URLS` (popup.js:1388-1392), tried in this order. */
  function ApiUrls(): (r: seq<string>)
    ensures |r| == 3
  {
    ["https://apimocha.com/linklib/links",
     "https://api.npoint.io/43644ec4fa049e8995fe",
     "https://api.jsonbin.io/b/60f7b8a5a917050205c8a76d"]
  }

  /** Endpoint `i` gave a 2xx answer whose body is a JSON object. */
  predicate Usable(respond: string -> Fetched, i: nat)
    requires i < |ApiUrls()|
  {
    AcceptedPayload(respond(ApiUrls()[i])).Some?
  }

  /** The first usable endpoint from `index` on, if any. */
  function FirstUsable(respond: string -> Fetched, index: nat): (r: Option<nat>)
    ensures r.Some? ==> index <= r.value < |ApiUrls()| && Usable(respond, r.value)
    ensures r.Some? ==> forall j :: index <= j < r.value ==> !Usable(respond, j)
    ensures r.None? ==> forall j :: index <= j < |ApiUrls()| ==> !Usable(respond, j)
    decreases |ApiUrls()| - index
  {
    if index >= |ApiUrls()| then None
    else if Usable(respond, index) then Some(index)
    else FirstUsable(respond, index + 1)
  }

  /** The store after `handleApiSuccess(data)`: both link keys get the chosen array, the
      categories are the response's when it lists any, else all twelve. */
  function ApiSuccessEffect(s: StoreState, data: Payload, nowMs: int): (r: StoreState)
    ensures r.adminLinks == r.links == ChooseLinks(data)
    ensures r.categories == (if data.categories.GetOr([]) != [] then data.categories.GetOr([])
                             else AllPossibleCategories())
    ensures r.categories != []
    ensures r.lastApiSuccess == nowMs
    // No other key is written.
    ensures r.(links := s.links, adminLinks := s.adminLinks, categories := s.categories,
               lastApiSuccess := s.lastApiSuccess) == s
  {
    var links := ChooseLinks(data);
    var categories := data.categories.GetOr([]);
    s.(adminLinks := links, links := links,
       categories := if |categories| > 0 then categories else AllPossibleCategories(),
       lastApiSuccess := nowMs)
  }

  /** The category of demo link number `i + 1`. */
  function DemoCategory(i: nat): string
    requires i < 12
  {
    match i
    case 0 => "Other"
    case 1 => "Vision"
    case 2 => "Maps"
    case 3 => "AI"
    case 4 => "Automation"
    case 5 => "3D"
    case 6 => "2D"
    case 7 => "Navigation"
    case 8 => "Sensors"
    case 9 => "Tools"
    case 10 => "Logs review & Stereo"
    case _ => "Down selection"
  }

  /** The twelve demo links of popup.js:1486-1607, stamped with the time they were made. */
  function DemoLinks(nowIso: string): (r: seq<Link>)
    ensures |r| == 12
    ensures forall i :: 0 <= i < |r| ==>
              r[i].category == DemoCategory(i) && r[i].adminId == "demo" &&
              r[i].dateAdded == nowIso && !r[i].isShared
  {
    seq(12, i requires 0 <= i < 12 => DemoLink(i, nowIso))
  }

  /** Demo link number `i + 1`. */
  function DemoLink(i: nat, nowIso: string): (l: Link)
    requires i < 12
    ensures l.category == DemoCategory(i) && l.adminId == "demo" && l.dateAdded == nowIso
    ensures !l.isShared
  {
    if i < 3 then DemoLinksOneToThree(i, nowIso)
    else if i < 6 then DemoLinksFourToSix(i, nowIso)
    else if i < 9 then DemoLinksSevenToNine(i, nowIso)
    else DemoLinksTenToTwelve(i, nowIso)
  }

  function DemoLinksOneToThree(i: nat, nowIso: string): (l: Link)
    requires i < 3
    ensures l.category == DemoCategory(i) && l.adminId == "demo" && l.dateAdded == nowIso
    ensures !l.isShared
  {
    match i
    case 0 => Demo("demo_1", "GitHub", "https://github.com", "Other",
                   ["code", "repository", "git"],
                   "Host and review code, manage projects", nowIso)
    case 1 => Demo("demo_2", "OpenCV Documentation", "https://docs.opencv.org", "Vision",
                   ["computer vision", "image processing"],
                   "Open source computer vision library", nowIso)
    case _ => Demo("demo_3", "Mapbox GL JS", "https://docs.mapbox.com/mapbox-gl-js", "Maps",
                   ["maps", "javascript", "geospatial"],
                   "Interactive, customizable maps", nowIso)
  }

  function DemoLinksFourToSix(i: nat, nowIso: string): (l: Link)
    requires 3 <= i < 6
    ensures l.category == DemoCategory(i) && l.adminId == "demo" && l.dateAdded == nowIso
    ensures !l.isShared
  {
    match i
    case 3 => Demo("demo_4", "TensorFlow", "https://tensorflow.org", "AI",
                   ["machine learning", "deep learning"],
                   "Open source machine learning platform", nowIso)
    case 4 => Demo("demo_5", "Jenkins", "https://jenkins.io", "Automation",
                   ["CI/CD", "pipeline"],
                   "Automation server for building and testing", nowIso)
    case _ => Demo("demo_6", "Point Cloud Library", "https://pointclouds.org", "3D",
                   ["point cloud", "3D processing"],
                   "3D point cloud processing library", nowIso)
  }

  function DemoLinksSevenToNine(i: nat, nowIso: string): (l: Link)
    requires 6 <= i < 9
    ensures l.category == DemoCategory(i) && l.adminId == "demo" && l.dateAdded == nowIso
    ensures !l.isShared
  {
    match i
    case 6 => Demo("demo_7", "Matplotlib", "https://matplotlib.org", "2D",
                   ["plotting", "visualization"],
                   "Python plotting library", nowIso)
    case 7 => Demo("demo_8", "ROS Documentation", "https://docs.ros.org", "Navigation",
                   ["robotics", "navigation"],
                   "Robot Operating System documentation", nowIso)
    case _ => Demo("demo_9", "Sensor Fusion", "https://en.wikipedia.org/wiki/Sensor_fusion", "Sensors",
                   ["fusion", "filtering"],
                   "Combining sensory data from multiple sources", nowIso)
  }

  function DemoLinksTenToTwelve(i: nat, nowIso: string): (l: Link)
    requires 9 <= i < 12
    ensures l.category == DemoCategory(i) && l.adminId == "demo" && l.dateAdded == nowIso
    ensures !l.isShared
  {
    match i
    case 9 => Demo("demo_10", "VSCode", "https://code.visualstudio.com", "Tools",
                   ["editor", "development"],
                   "Free source-code editor from Microsoft", nowIso)
    case 10 => Demo("demo_11", "LiDAR Processing", "https://en.wikipedia.org/wiki/Lidar", "Logs review & Stereo",
                   ["lidar", "point cloud"],
                   "Light Detection and Ranging processing techniques", nowIso)
    case _ => Demo("demo_12", "Feature Selection", "https://en.wikipedia.org/wiki/Feature_selection", "Down selection",
                   ["features", "selection"],
                   "Process of selecting relevant features for model building", nowIso)
  }

  function Demo(id: string, title: string, url: string, category: string, tags: seq<string>,
                description: string, nowIso: string): (l: Link)
    ensures l.id == id && l.category == category && l.adminId == "demo" && l.dateAdded == nowIso
    ensures !l.isShared
  {
    Plain(id, title, url, category, tags, description).(adminId := "demo", dateAdded := nowIso)
  }

  /** The store after `useFallbackWithAllCategories()`; `lastApiSuccess` 0 marks demo data. */
  function FallbackEffect(s: StoreState, nowIso: string): (r: StoreState)
    ensures r.adminLinks == r.links == DemoLinks(nowIso)
    ensures r.categories == AllPossibleCategories() && r.lastApiSuccess == 0
    // No other key is written.
    ensures r.(links := s.links, adminLinks := s.adminLinks, categories := s.categories,
               lastApiSuccess := s.lastApiSuccess) == s
  {
    s.(adminLinks := DemoLinks(nowIso), links := DemoLinks(nowIso),
       categories := AllPossibleCategories(), lastApiSuccess := 0)
  }

  /** Where the saved links came from. */
  datatype Source = Endpoint(index: nat) | DemoData

  /** The store after trying the endpoints from `index` on: whichever way it ends, the admin
      mirror equals `links`, some categories are listed and no other key is written. */
  function TryEffect(s: StoreState, respond: string -> Fetched, index: nat, nowMs: int, nowIso: string)
    : (r: StoreState)
    ensures r.adminLinks == r.links && r.categories != []
    ensures r.lastApiSuccess == 0 || r.lastApiSuccess == nowMs
    // Only the two link keys, the categories and the success time are written.
    ensures r.(links := s.links, adminLinks := s.adminLinks, categories := s.categories,
               lastApiSuccess := s.lastApiSuccess) == s
  {
    match FirstUsable(respond, index)
    case Some(i) => ApiSuccessEffect(s, AcceptedPayload(respond(ApiUrls()[i])).value, nowMs)
    case None => FallbackEffect(s, nowIso)
  }

  /** `handleApiSuccess(data)`. */
  method HandleApiSuccess(store: Store, data: Payload, nowMs: int)
    modifies store
    ensures store.State() == ApiSuccessEffect(old(store.State()), data, nowMs)
  {
    var links := ChooseLinks(data);
    var categories := data.categories.GetOr([]);
    store.adminLinks := links;
    store.links := links;
    store.categories := if |categories| > 0 then categories else AllPossibleCategories();
    store.lastApiSuccess := nowMs;
  }

  /** `useFallbackWithAllCategories()`. */
  method UseFallbackWithAllCategories(store: Store, nowIso: string)
    modifies store
    ensures store.State() == FallbackEffect(old(store.State()), nowIso)
  {
    var allCategories := AllPossibleCategories();
    var demoLinks := DemoLinks(nowIso);
    store.adminLinks := demoLinks;
    store.links := demoLinks;
    store.categories := allCategories;
    store.lastApiSuccess := 0;
  }

  /** `tryNextApi(index)`: a failed status, a body that is not a JSON object, a network
      error or a timeout moves on to the next endpoint; past the last one the demo data is
      saved. `tried` lists the endpoints requested, in order. */
  method TryNextApi(store: Store, index: nat, respond: string -> Fetched, nowMs: int, nowIso: string)
    returns (source: Source, tried: seq<string>)
    modifies store
    requires index <= |ApiUrls()|
    ensures store.State() == TryEffect(old(store.State()), respond, index, nowMs, nowIso)
    ensures FirstUsable(respond, index).Some? ==>
              source == Endpoint(FirstUsable(respond, index).value) &&
              tried == ApiUrls()[index..FirstUsable(respond, index).value + 1]
    ensures FirstUsable(respond, index).None? ==> source == DemoData && tried == ApiUrls()[index..]
    decreases |ApiUrls()| - index
  {
    if index >= |ApiUrls()| {
      UseFallbackWithAllCategories(store, nowIso);
      return DemoData, [];
    }
    var apiUrl := ApiUrls()[index];
    var answer := respond(apiUrl);
    match AcceptedPayload(answer)
    case Some(data) =>
      HandleApiSuccess(store, data, nowMs);
      source, tried := Endpoint(index), [apiUrl];
    case None =>
      var rest;
      source, rest := TryNextApi(store, index + 1, respond, nowMs, nowIso);
      tried := [apiUrl] + rest;
  }

  /** `fetchApiLinks()`: every endpoint from the first. */
  method FetchApiLinks(store: Store, respond: string -> Fetched, nowMs: int, nowIso: string)
    returns (source: Source, tried: seq<string>)
    modifies store
    ensures store.State() == TryEffect(old(store.State()), respond, 0, nowMs, nowIso)
    ensures source.Endpoint? <==> exists i :: 0 <= i < |ApiUrls()| && Usable(respond, i)
    ensures source.Endpoint? ==> source.index < |ApiUrls()| && Usable(respond, source.index) &&
                                 tried == ApiUrls()[..source.index + 1]
    ensures source == DemoData ==> tried == ApiUrls()
  {
    source, tried := TryNextApi(store, 0, respond, nowMs, nowIso);
    assert ApiUrls()[0..] == ApiUrls();
  }

  // ---------------------------------------------------------------------------------------
  // What the popup shows afterwards (both paths end in `loadLinks()`)

  /** Every demo link is filed under one of the twelve categories the fallback saves. */
  lemma DemoCategoriesAreKnown()
    ensures forall i :: 0 <= i < 12 ==> DemoCategory(i) in AllPossibleCategories()
  {
    var all := AllPossibleCategories();
    assert DemoCategory(0) == all[4] && DemoCategory(1) == all[5] && DemoCategory(2) == all[3];
    assert DemoCategory(3) == all[8] && DemoCategory(4) == all[0] && DemoCategory(5) == all[7];
    assert DemoCategory(6) == all[6] && DemoCategory(7) == all[10] && DemoCategory(8) == all[11];
    assert DemoCategory(9) == all[9] && DemoCategory(10) == all[2] && DemoCategory(11) == all[1];
  }

  /** Every one of the twelve categories holds a demo link. */
  lemma DemoCoversAllCategories()
    ensures forall c :: c in AllPossibleCategories() ==> exists i :: 0 <= i < 12 && DemoCategory(i) == c
  {
    var all := AllPossibleCategories();
    assert all[0] == DemoCategory(4) && all[1] == DemoCategory(11) && all[2] == DemoCategory(10);
    assert all[3] == DemoCategory(2) && all[4] == DemoCategory(0) && all[5] == DemoCategory(1);
    assert all[6] == DemoCategory(6) && all[7] == DemoCategory(5) && all[8] == DemoCategory(3);
    assert all[9] == DemoCategory(9) && all[10] == DemoCategory(7) && all[11] == DemoCategory(8);
  }

  /** After the fallback the popup shows the demo links under all twelve categories. */
  lemma FallbackThenShow(s: StoreState, nowIso: string)
    ensures ChooseView(FallbackEffect(s, nowIso), false) ==
            Show(AllPossibleCategories(), DemoLinks(nowIso), s.userLinks)
  {
  }

  /** `links` wins whenever it is an array, even an empty one: an answer with `links: []`
      and a non-empty `adminLinks` saves no links. */
  lemma EmptyLinksArrayWins(s: StoreState, admin: seq<Link>, categories: Option<seq<string>>, nowMs: int)
    ensures ApiSuccessEffect(s, Payload(Some([]), Some(admin), categories), nowMs).links == []
  {
  }

  /** An endpoint answering with no links, for a user with no links of their own, leaves
      the store so that `loadLinks()` fetches again: popup.js:1473 calls `loadLinks`,
      which calls `fetchApiLinks` once more, and so on for as long as the endpoint keeps
      giving the same empty answer. */
  lemma EmptyAnswerRefetches(s: StoreState, data: Payload, nowMs: int)
    requires ChooseLinks(data) == [] && s.userLinks == []
    ensures ChooseView(ApiSuccessEffect(s, data, nowMs), false) == FetchFromApi
  {
  }

  /** Any answer with links is shown, with the saved categories. */
  lemma AnswerWithLinksIsShown(s: StoreState, data: Payload, nowMs: int)
    requires ChooseLinks(data) != []
    ensures var r := ApiSuccessEffect(s, data, nowMs);
            ChooseView(r, false) == Show(r.categories, ChooseLinks(data), s.userLinks)
  {
  }
}
