/**
 * `chrome.storage.local` as an in-memory record: one field per key the extension uses, `None` while
 * the key was never written. Every context (content script, popup, import page) shares one store.
 */
module Storage {
  import opened Wrappers
  import opened Records

  class Store {
    var studyModeEnabled: Option<bool>
    var studyChannels: Option<seq<Item>>
    var channelDetailsCache: Option<map<string, CacheEntry>>

    /** A freshly installed extension: no key has been written. */
    constructor ()
      ensures studyModeEnabled == None && studyChannels == None && channelDetailsCache == None
    {
      studyModeEnabled := None;
      studyChannels := None;
      channelDetailsCache := None;
    }

    /** `result.studyModeEnabled || false`: the flag is on only when `true` was stored. */
    function ModeEnabled(): (r: bool)
      reads this
      ensures r <==> studyModeEnabled == Some(true)
    {
      studyModeEnabled.GetOr(false)
    }

    /** The study list, read with the default `[]` for a missing key. */
    function StudyChannels(): (r: seq<Item>)
      reads this
      ensures studyChannels.None? ==> r == []
      ensures studyChannels.Some? ==> r == studyChannels.value
    {
      studyChannels.GetOr([])
    }

    /** The details cache, read with the default `{}` for a missing key. */
    function DetailsCache(): (r: map<string, CacheEntry>)
      reads this
      ensures channelDetailsCache.None? ==> r == map[]
      ensures channelDetailsCache.Some? ==> r == channelDetailsCache.value
    {
      channelDetailsCache.GetOr(map[])
    }
  }
}
