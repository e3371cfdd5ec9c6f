/** The values kept in the extension's storage and passed between its pages. */
module Records {

  /** A study-list entry: identity is `id`; `name` and `thumbnail` are display data. */
  datatype Channel = Channel(id: string, name: string, thumbnail: string)

  /**
   * One element of the stored `studyChannels` array: a channel record, or a bare id string left by the
   * legacy format. A string has no `id` property, so no `c.id === x` test ever matches it.
   */
  datatype Item = Record(channel: Channel) | Legacy(legacyId: string)

  /** Name and thumbnail of a channel, as returned by the details lookup. */
  datatype Details = Details(name: string, thumbnail: string)

  /** An entry of `channelDetailsCache`; `timestamp` is in epoch milliseconds. */
  datatype CacheEntry = CacheEntry(name: string, thumbnail: string, timestamp: int)

  /** The runtime message the popup sends to the content script. */
  datatype Message = Message(kind: string, enabled: bool)

  const StudyModeToggled := "STUDY_MODE_TOGGLED"

  /** `c.id === id` for an element of the stored array. */
  predicate HasId(item: Item, id: string)
  {
    item.Record? && item.channel.id == id
  }

  /** No two records of the list share an id (the study list's intended shape). */
  predicate UniqueIds(list: seq<Item>)
  {
    forall i, j :: 0 <= i < j < |list| && list[i].Record? ==> !HasId(list[j], list[i].channel.id)
  }
}
