/** Values shared by the background worker and the popup: links, the JSON body of a link
    feed, the outcome of one HTTP request, typed failures, and the selection of links into
    category buckets. */
module Common {

  datatype Option<+T> = None | Some(value: T) {
    function GetOr(default: T): T {
      match this
      case Some(v) => v
      case None => default
    }
  }

  datatype Result<+R, +E> = Success(value: R) | Failure(error: E)

  /** A stored or fetched link. A JavaScript field that is absent (or falsy) is the empty
      string here, so `link.id || x` reads as `if link.id == "" then x else link.id`. */
  datatype Link = Link(
    id: string,
    title: string,
    url: string,
    category: string,
    tags: seq<string>,
    description: string,
    isShared: bool,
    adminId: string,
    sharedBy: string,
    sharedAt: string,
    dateAdded: string,
    lastUpdated: string)

  /** A link carrying only the fields the user or a data file gives it. */
  function Plain(id: string, title: string, url: string, category: string,
                 tags: seq<string>, description: string): (l: Link)
    ensures l.id == id && l.title == title && l.url == url && l.category == category
    ensures l.tags == tags && l.description == description && !l.isShared
  {
    Link(id, title, url, category, tags, description, false, "", "", "", "", "")
  }

  /** The parsed JSON object of a feed or of the bundled defaults file
      `{ links?, adminLinks?, categories? }`. `None` stands for a field that is absent or is
      not an array. */
  datatype Payload = Payload(
    links: Option<seq<Link>>,
    adminLinks: Option<seq<Link>>,
    categories: Option<seq<string>>)

  /** What one HTTP request came back with: a status and the body parsed as a JSON object
      (`None` when it is not valid JSON or is `null`), a transport failure, or a timeout. */
  datatype Fetched = Answer(status: int, json: Option<Payload>) | NetworkFailure | TimedOut
  {
    /** `response.ok` for fetch, `status >= 200 && status < 300` for XMLHttpRequest. */
    predicate IsOk() {
      Answer? && 200 <= status < 300
    }
  }

  /** Why an operation reported `{success: false}`. The error text itself is not modelled. */
  datatype Cause =
    | ListFetchFailed(status: int)
    | ListUpdateFailed(status: int)
    | NetworkDown
    | BadJson
    | StorageThrew

  /** The `{success, message?, error?}` object sent back to a message sender. */
  datatype Reply = Done(message: string) | Failed(cause: Cause)

  /** The body that a JSON parse of a successful response yields, if any. */
  function AcceptedPayload(f: Fetched): (r: Option<Payload>)
    ensures r.Some? <==> f.IsOk() && f.json.Some?
    ensures r.Some? ==> r == f.json
  {
    if f.IsOk() then f.json else None
  }

  /** The link array picked out of a feed body: `links` whenever it is an array (even an
      empty one), otherwise `adminLinks` if that is an array, otherwise nothing. */
  function ChooseLinks(p: Payload): (r: seq<Link>)
    ensures p.links.Some? ==> r == p.links.value
    ensures p.links.None? && p.adminLinks.Some? ==> r == p.adminLinks.value
    ensures p.links.None? && p.adminLinks.None? ==> r == []
  {
    match p.links
    case Some(xs) => xs
    case None => p.adminLinks.GetOr([])
  }

  ghost predicate NoDup<T>(s: seq<T>) {
    forall i, j :: 0 <= i < j < |s| ==> s[i] != s[j]
  }

  /** The prefix of length `i + 1` is the prefix of length `i` and then element `i`. */
  lemma TakeOneMore<T>(xs: seq<T>, i: nat)
    requires i < |xs|
    ensures xs[..i + 1] == xs[..i] + [xs[i]]
  {
  }

  /** A non-empty sequence is its first element and then the rest. */
  lemma HeadThenTail<T>(xs: seq<T>)
    requires xs != []
    ensures [xs[0]] + xs[1..] == xs
  {
  }

  /** A non-empty sequence is all but its last element and then the last. */
  lemma FrontThenLast<T>(xs: seq<T>)
    requires xs != []
    ensures xs[..|xs| - 1] + [xs[|xs| - 1]] == xs
  {
  }
}
