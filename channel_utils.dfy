/**
 * Channel identity and study-list helpers shared by the content script and the popup:
 * resolving the page's channel id, membership, idempotent add, the placeholder record
 * and the 24-hour details cache.
 */
module ChannelUtils {
  import opened Wrappers
  import opened Text
  import opened Records
  import opened Storage

  const ChannelSegment := "/channel/"
  /** How long a cached details entry stays usable: one day in milliseconds. */
  const CacheLifetime := 86400000
  const PlaceholderNamePrefix := "Channel "
  const ThumbnailPrefix := "https://www.gstatic.com/youtube/img/channels/channel_"
  const ThumbnailSuffix := "_default.png"

  // ---------------------------------------------------------------------------------------------
  // Channel identity: the regex /\/channel\/([\w-]+)/ and the three-step resolver
  // ---------------------------------------------------------------------------------------------

  /** The regex can match at index `p`: `/channel/` starts there and at least one `[\w-]` follows it. */
  predicate MatchesAt(s: string, p: int)
  {
    OccursAt(s, ChannelSegment, p) && p + |ChannelSegment| < |s| && IsIdChar(s[p + |ChannelSegment|])
  }

  /** `p` is where a JavaScript regex search finds its match: the first index at which it can match. */
  predicate IsLeftmostMatch(s: string, p: int)
  {
    MatchesAt(s, p) && forall q :: 0 <= q < p ==> !MatchesAt(s, q)
  }

  /** The first index from `i` on at which the regex can match. */
  function FirstMatchFrom(s: string, i: nat): (r: Option<nat>)
    ensures r.None? ==> forall p :: i <= p ==> !MatchesAt(s, p)
    ensures r.Some? ==> i <= r.value && MatchesAt(s, r.value)
    ensures r.Some? ==> forall q :: i <= q < r.value ==> !MatchesAt(s, q)
    decreases |s| - i
  {
    if i + |ChannelSegment| >= |s| then None
    else if MatchesAt(s, i) then Some(i)
    else FirstMatchFrom(s, i + 1)
  }

  /**
   * `s.match(/\/channel\/([\w-]+)/)` followed by `[1]`: the capture group of the leftmost match,
   * which is the maximal run of `[\w-]` after that `/channel/`.
   */
  function MatchChannelPath(s: string): (r: Option<string>)
    ensures r.None? <==> forall p :: !MatchesAt(s, p)
    ensures r.Some? ==> exists p :: IsLeftmostMatch(s, p) && r.value == IdRun(s[p + |ChannelSegment|..])
    ensures r.Some? ==> r.value != [] && forall k :: 0 <= k < |r.value| ==> IsIdChar(r.value[k])
  {
    match FirstMatchFrom(s, 0)
    case None => None
    case Some(p) =>
      assert IsLeftmostMatch(s, p);
      Some(IdRun(s[p + |ChannelSegment|..]))
  }

  /** The loop over the anchors from index `i` on: the index of the first href the regex matches. */
  function FirstLinkFrom(hrefs: seq<string>, i: nat): (r: Option<nat>)
    requires i <= |hrefs|
    ensures r.None? ==> forall k :: i <= k < |hrefs| ==> MatchChannelPath(hrefs[k]).None?
    ensures r.Some? ==> i <= r.value < |hrefs| && MatchChannelPath(hrefs[r.value]).Some?
    ensures r.Some? ==> forall j :: i <= j < r.value ==> MatchChannelPath(hrefs[j]).None?
    decreases |hrefs| - i
  {
    if i == |hrefs| then None
    else if MatchChannelPath(hrefs[i]).Some? then Some(i)
    else FirstLinkFrom(hrefs, i + 1)
  }

  /**
   * `extractChannelId()`. `meta` is the `content` of `meta[itemprop="channelId"]` when that element
   * exists; `hrefs` are the `href`s of the `a[href*="/channel/"]` anchors in document order.
   */
  function ExtractChannelId(meta: Option<string>, pathname: string, hrefs: seq<string>): (r: Option<string>)
    ensures meta.Some? ==> r == meta
    ensures meta.None? && (exists p :: MatchesAt(pathname, p)) ==> r == MatchChannelPath(pathname)
    ensures meta.None? ==>
              (r.None? <==> (forall p :: !MatchesAt(pathname, p))
                            && forall k :: 0 <= k < |hrefs| ==> MatchChannelPath(hrefs[k]).None?)
    ensures meta.None? && r.Some? ==> r.value != [] && forall k :: 0 <= k < |r.value| ==> IsIdChar(r.value[k])
  {
    if meta.Some? then meta
    else if MatchChannelPath(pathname).Some? then MatchChannelPath(pathname)
    else match FirstLinkFrom(hrefs, 0)
      case None => None
      case Some(k) => MatchChannelPath(hrefs[k])
  }

  /**
   * With no meta element and no match in the path, the id is the capture of the first href in
   * document order that matches.
   */
  lemma {:induction false} LinksGiveFirstMatch(pathname: string, hrefs: seq<string>, k: nat)
    requires forall p :: !MatchesAt(pathname, p)
    requires k < |hrefs| && MatchChannelPath(hrefs[k]).Some?
    requires forall j :: 0 <= j < k ==> MatchChannelPath(hrefs[j]).None?
    ensures ExtractChannelId(None, pathname, hrefs) == MatchChannelPath(hrefs[k])
  {
    assert FirstLinkFrom(hrefs, 0) == Some(k);
  }

  /** With a meta element present, the URL and the links are never consulted. */
  lemma MetaShadowsUrlAndLinks(content: string, p1: string, p2: string, h1: seq<string>, h2: seq<string>)
    ensures ExtractChannelId(Some(content), p1, h1) == ExtractChannelId(Some(content), p2, h2) == Some(content)
  {
  }

  /** With no meta element and a channel path, the links are never consulted. */
  lemma PathShadowsLinks(pathname: string, h1: seq<string>, h2: seq<string>)
    requires MatchChannelPath(pathname).Some?
    ensures ExtractChannelId(None, pathname, h1) == ExtractChannelId(None, pathname, h2)
  {
  }

  // ---------------------------------------------------------------------------------------------
  // Study-list membership and the idempotent add
  // ---------------------------------------------------------------------------------------------

  /** `list.some(c => c.id === id)`. */
  function IsMember(list: seq<Item>, id: string): (b: bool)
    ensures b <==> exists i :: 0 <= i < |list| && HasId(list[i], id)
  {
    if list == [] then false
    else if HasId(list[0], id) then true
    else
      assert forall i :: 1 <= i < |list| ==> list[i] == list[1..][i - 1];
      IsMember(list[1..], id)
  }

  /** `isChannelInStudy(id)`: membership in the stored list, a missing list reading as empty. */
  function IsChannelInStudy(store: Store, id: string): (b: bool)
    reads store
    ensures store.studyChannels.None? ==> !b
    ensures b <==> exists i :: 0 <= i < |store.StudyChannels()| && HasId(store.StudyChannels()[i], id)
  {
    IsMember(store.StudyChannels(), id)
  }

  /**
   * The list logic of `addChannelToStudy`: push `ch` unless a record with its id is present.
   * The result keeps `list` as a prefix and grows by exactly `Record(ch)` when, and only when, the id is new.
   */
  function AddToList(list: seq<Item>, ch: Channel): (r: seq<Item>)
    ensures list <= r && |r| <= |list| + 1
    ensures |r| == |list| + 1 <==> !IsMember(list, ch.id)
    ensures |r| == |list| + 1 ==> r[|list|] == Record(ch)
    ensures IsMember(r, ch.id)
  {
    if IsMember(list, ch.id) then list
    else
      assert HasId((list + [Record(ch)])[|list|], ch.id);
      list + [Record(ch)]
  }

  /** Adding an id a second time, whatever details come with it, changes nothing. */
  lemma AddIsIdempotent(list: seq<Item>, first: Channel, second: Channel)
    requires first.id == second.id
    ensures AddToList(AddToList(list, first), second) == AddToList(list, first)
  {
    var once := AddToList(list, first);
    assert IsMember(once, second.id);
  }

  /** The add changes membership of its own id only. */
  lemma AddChangesOnlyItsId(list: seq<Item>, ch: Channel, other: string)
    ensures IsMember(AddToList(list, ch), other) <==> IsMember(list, other) || other == ch.id
  {
    var r := AddToList(list, ch);
    if IsMember(r, other) && other != ch.id {
      var i :| 0 <= i < |r| && HasId(r[i], other);
      if i < |list| {
        assert list[i] == r[i];
      }
    }
    if IsMember(list, other) {
      var i :| 0 <= i < |list| && HasId(list[i], other);
      assert r[i] == list[i];
    }
  }

  /** The add keeps a list whose records have distinct ids in that shape. */
  lemma AddKeepsIdsUnique(list: seq<Item>, ch: Channel)
    requires UniqueIds(list)
    ensures UniqueIds(AddToList(list, ch))
  {
    var r := AddToList(list, ch);
    if |r| == |list| + 1 {
      forall i, j | 0 <= i < j < |r| && r[i].Record?
        ensures !HasId(r[j], r[i].channel.id)
      {
        if j == |list| {
          assert r[i] == list[i];
          if HasId(r[j], r[i].channel.id) {
            assert HasId(list[i], ch.id);
          }
        } else {
          assert r[i] == list[i] && r[j] == list[j];
        }
      }
    }
  }

  // ---------------------------------------------------------------------------------------------
  // Placeholder record and the details cache
  // ---------------------------------------------------------------------------------------------

  /** The record used when the details of `id` cannot be obtained. */
  function Placeholder(id: string): Details
  {
    Details(PlaceholderNamePrefix + id, ThumbnailPrefix + id + ThumbnailSuffix)
  }

  /** The placeholder is derived from the id alone and gives the id back: distinct ids never share one. */
  lemma PlaceholderDeterminesId(a: string, b: string)
    requires Placeholder(a).name == Placeholder(b).name || Placeholder(a).thumbnail == Placeholder(b).thumbnail
    ensures a == b
  {
    assert Placeholder(a).name[|PlaceholderNamePrefix|..] == a;
    assert Placeholder(b).name[|PlaceholderNamePrefix|..] == b;
    var ta, tb := Placeholder(a).thumbnail, Placeholder(b).thumbnail;
    assert ta[|ThumbnailPrefix|..|ta| - |ThumbnailSuffix|] == a;
    assert tb[|ThumbnailPrefix|..|tb| - |ThumbnailSuffix|] == b;
  }

  /** `cache.timestamp > Date.now() - 86400000`. */
  predicate IsFresh(entry: CacheEntry, now: int)
  {
    entry.timestamp > now - CacheLifetime
  }

  /** The cache step of `getChannelDetails`: the cached details when an entry for `id` is under a day old. */
  function CachedDetails(cache: map<string, CacheEntry>, id: string, now: int): (r: Option<Details>)
    ensures r.Some? <==> id in cache && now - cache[id].timestamp < CacheLifetime
    ensures r.Some? ==> r.value == Details(cache[id].name, cache[id].thumbnail)
  {
    if id in cache && IsFresh(cache[id], now) then Some(Details(cache[id].name, cache[id].thumbnail)) else None
  }

  /** `cache[id] = { ...details, timestamp: now }`: one entry set, every other entry kept. */
  function CacheWrite(cache: map<string, CacheEntry>, id: string, d: Details, now: int): (r: map<string, CacheEntry>)
    ensures r.Keys == cache.Keys + {id}
    ensures r[id] == CacheEntry(d.name, d.thumbnail, now)
    ensures forall k :: k in cache && k != id ==> r[k] == cache[k]
  {
    cache[id := CacheEntry(d.name, d.thumbnail, now)]
  }

  /** `x` is truthy as a JavaScript string: present and not empty. */
  predicate IsTruthy(x: Option<string>)
  {
    x.Some? && x.value != ""
  }

  /**
   * What fetching and scraping the channel page gave: a failed request (a rejected `fetch` or a
   * response that is not ok), or the `og:title` (already stripped of " - YouTube") and `og:image` contents.
   */
  datatype FetchOutcome = FetchFailed | Scraped(title: Option<string>, image: Option<string>)

  predicate FetchSucceeded(fetched: FetchOutcome)
  {
    fetched.Scraped? && IsTruthy(fetched.title) && IsTruthy(fetched.image)
  }

  /** The details `getChannelDetails` returns: cached, else scraped, else the placeholder. */
  function LookupDetails(cache: map<string, CacheEntry>, id: string, now: int, fetched: FetchOutcome): Details
  {
    if CachedDetails(cache, id, now).Some? then CachedDetails(cache, id, now).value
    else if FetchSucceeded(fetched) then Details(fetched.title.value, fetched.image.value)
    else Placeholder(id)
  }

  /** `getChannelDetails` writes the cache exactly when it had no fresh entry and the scrape succeeded. */
  predicate LookupWritesCache(cache: map<string, CacheEntry>, id: string, now: int, fetched: FetchOutcome)
  {
    CachedDetails(cache, id, now).None? && FetchSucceeded(fetched)
  }

  /** A fresh entry is returned as it is, whatever the network would have answered. */
  lemma FreshEntryIgnoresFetch(cache: map<string, CacheEntry>, id: string, now: int, f1: FetchOutcome, f2: FetchOutcome)
    requires id in cache && IsFresh(cache[id], now)
    ensures LookupDetails(cache, id, now, f1) == LookupDetails(cache, id, now, f2)
                                             == Details(cache[id].name, cache[id].thumbnail)
  {
  }

  /** Without a fresh entry and without a usable scrape, the lookup falls back to the placeholder. */
  lemma FailedLookupGivesPlaceholder(cache: map<string, CacheEntry>, id: string, now: int, fetched: FetchOutcome)
    requires !(id in cache && IsFresh(cache[id], now))
    requires !FetchSucceeded(fetched)
    ensures LookupDetails(cache, id, now, fetched) == Placeholder(id)
  {
  }

  /** What a lookup writes, a later lookup within a day reads back, without going to the network. */
  lemma CacheWriteReadBack(cache: map<string, CacheEntry>, id: string, d: Details, written: int, now: int, fetched: FetchOutcome)
    requires now - written < CacheLifetime
    ensures LookupDetails(CacheWrite(cache, id, d, written), id, now, fetched) == d
  {
  }

  /**
   * `getChannelDetails(id)` against the store: `now` is the clock when the cache is read, `fetched` what the
   * network and page scrape gave, `writeNow` the clock when the cache is written.
   */
  method GetChannelDetails(store: Store, id: string, now: int, fetched: FetchOutcome, writeNow: int) returns (d: Details)
    modifies store
    ensures d == LookupDetails(old(store.DetailsCache()), id, now, fetched)
    ensures store.channelDetailsCache ==
              if LookupWritesCache(old(store.DetailsCache()), id, now, fetched)
              then Some(CacheWrite(old(store.DetailsCache()), id, d, writeNow))
              else old(store.channelDetailsCache)
    ensures store.studyChannels == old(store.studyChannels) && store.studyModeEnabled == old(store.studyModeEnabled)
  {
    var cache := store.DetailsCache();
    var cached := CachedDetails(cache, id, now);
    if cached.Some? {
      return cached.value;
    }
    if !FetchSucceeded(fetched) {
      return Placeholder(id);
    }
    d := Details(fetched.title.value, fetched.image.value);
    var current := store.DetailsCache();
    store.channelDetailsCache := Some(CacheWrite(current, id, d, writeNow));
  }

  /**
   * `addChannelToStudy(id, callback)`: look the details up, then append the record unless its id is
   * already listed. `wrote` tells whether the list was written back; the callback runs either way.
   */
  method AddChannelToStudy(store: Store, id: string, now: int, fetched: FetchOutcome, writeNow: int)
    returns (channel: Channel, wrote: bool)
    modifies store
    ensures channel.id == id
    ensures Details(channel.name, channel.thumbnail) == LookupDetails(old(store.DetailsCache()), id, now, fetched)
    ensures wrote <==> !IsMember(old(store.StudyChannels()), id)
    ensures store.studyChannels == if wrote then Some(AddToList(old(store.StudyChannels()), channel))
                                   else old(store.studyChannels)
    ensures store.channelDetailsCache ==
              if LookupWritesCache(old(store.DetailsCache()), id, now, fetched)
              then Some(CacheWrite(old(store.DetailsCache()), id, Details(channel.name, channel.thumbnail), writeNow))
              else old(store.channelDetailsCache)
    ensures store.studyModeEnabled == old(store.studyModeEnabled)
  {
    var details := GetChannelDetails(store, id, now, fetched, writeNow);
    channel := Channel(id, details.name, details.thumbnail);
    var channels := store.StudyChannels();
    wrote := !IsMember(channels, id);
    if wrote {
      channels := channels + [Record(channel)];
      store.studyChannels := Some(channels);
    }
  }
}
