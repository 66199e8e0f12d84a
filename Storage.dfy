/** The extension's persistent key-value store, restricted to the keys the link logic reads
    and writes. A key that was never written reads as the empty value of its type, which is
    how every reader treats it (`result.links || []`, `!result.userId`, ...). */
module Storage {
  import opened Common

  /** A snapshot of every key of the store. */
  datatype StoreState = StoreState(
    links: seq<Link>,
    userLinks: seq<Link>,
    adminLinks: seq<Link>,
    categories: seq<string>,
    initialized: bool,
    userId: string,
    lastApiSuccess: int,
    lastSyncTime: string,
    lastUpdate: string)

  /** A store with nothing written to it: the state of a fresh install. */
  function EmptyState(): (s: StoreState)
    ensures s.links == [] && s.userLinks == [] && s.adminLinks == [] && s.categories == []
    ensures !s.initialized && s.userId == ""
  {
    StoreState([], [], [], [], false, "", 0, "", "")
  }

  /** One storage area (`chrome.storage.local` or `chrome.storage.sync`). Operations write
      its fields directly, one `storage.set` key per field. */
  class Store {
    var links: seq<Link>
    var userLinks: seq<Link>
    var adminLinks: seq<Link>
    var categories: seq<string>
    var initialized: bool
    var userId: string
    var lastApiSuccess: int
    var lastSyncTime: string
    var lastUpdate: string

    constructor (s: StoreState)
      ensures State() == s
    {
      links, userLinks, adminLinks, categories := s.links, s.userLinks, s.adminLinks, s.categories;
      initialized, userId, lastApiSuccess := s.initialized, s.userId, s.lastApiSuccess;
      lastSyncTime, lastUpdate := s.lastSyncTime, s.lastUpdate;
    }

    function State(): StoreState
      reads this
    {
      StoreState(links, userLinks, adminLinks, categories, initialized, userId,
                 lastApiSuccess, lastSyncTime, lastUpdate)
    }
  }
}
