/**
 * The popup: the study-mode toggle, the study list's remove and clear buttons, and the upgrade of a
 * legacy list of bare id strings to channel records. Rendering the list is not modelled.
 */
module Popup {
  import opened Wrappers
  import opened Text
  import opened Records
  import opened Storage
  import opened ChannelUtils

  /** The active tab as `chrome.tabs.query` reports it; `url` may be missing. */
  datatype Tab = Tab(tabId: nat, url: Option<string>)

  /** A message sent to the content script of a tab. */
  datatype Sent = Sent(tabId: nat, message: Message)

  const SiteHost := "youtube.com"

  /** `tabs[0]?.url?.includes('youtube.com')`. */
  predicate ShouldNotify(active: Option<Tab>)
  {
    active.Some? && active.value.url.Some? && Contains(active.value.url.value, SiteHost)
  }

  /** The remove button: `channels.filter(c => c.id !== id)`. */
  function Removed(list: seq<Item>, id: string): (r: seq<Item>)
    ensures |r| <= |list|
    ensures forall x :: x in r <==> x in list && !HasId(x, id)
    ensures !IsMember(r, id)
  {
    if list == [] then []
    else if HasId(list[0], id) then Removed(list[1..], id)
    else [list[0]] + Removed(list[1..], id)
  }

  /** The filter works element by element, so it keeps the order of what it keeps. */
  lemma {:induction false} RemovedDistributes(a: seq<Item>, b: seq<Item>, id: string)
    ensures Removed(a + b, id) == Removed(a, id) + Removed(b, id)
  {
    if a == [] {
      assert a + b == b;
    } else {
      assert (a + b)[0] == a[0];
      assert (a + b)[1..] == a[1..] + b;
      RemovedDistributes(a[1..], b, id);
    }
  }

  /** Removing an id that is not listed changes nothing. */
  lemma {:induction false} RemoveAbsentIsNoop(list: seq<Item>, id: string)
    requires !IsMember(list, id)
    ensures Removed(list, id) == list
  {
    if list != [] {
      assert !HasId(list[0], id);
      assert forall i :: 0 <= i < |list[1..]| ==> list[1..][i] == list[i + 1];
      RemoveAbsentIsNoop(list[1..], id);
      assert list == [list[0]] + list[1..];
    }
  }

  /** Removing keeps the membership of every other id. */
  lemma RemoveKeepsOthers(list: seq<Item>, id: string, other: string)
    requires other != id
    ensures IsMember(Removed(list, id), other) <==> IsMember(list, other)
  {
    var r := Removed(list, id);
    if IsMember(list, other) {
      var i :| 0 <= i < |list| && HasId(list[i], other);
      assert list[i] in r;
    }
    if IsMember(r, other) {
      var i :| 0 <= i < |r| && HasId(r[i], other);
      assert r[i] in list;
    }
  }

  /** Removing what was just added brings the list back to the list without that id. */
  lemma RemoveUndoesAdd(list: seq<Item>, ch: Channel)
    ensures Removed(AddToList(list, ch), ch.id) == Removed(list, ch.id)
  {
    if !IsMember(list, ch.id) {
      RemovedDistributes(list, [Record(ch)], ch.id);
      assert Removed([Record(ch)], ch.id) == [];
    }
  }

  /** One element of the `channels.map(...)` of the legacy upgrade. */
  function UpgradeItem(item: Item, lookup: string -> Details): Item
  {
    match item
    case Legacy(id) => Record(Channel(id, lookup(id).name, lookup(id).thumbnail))
    case Record(_) => item
  }

  /** The map over the whole list. */
  function UpgradeAll(list: seq<Item>, lookup: string -> Details): (r: seq<Item>)
    ensures |r| == |list|
    ensures forall i :: 0 <= i < |list| ==> r[i] == UpgradeItem(list[i], lookup)
  {
    if list == [] then [] else [UpgradeItem(list[0], lookup)] + UpgradeAll(list[1..], lookup)
  }

  /** The list is in the legacy format: its first element is a string. */
  predicate IsLegacy(list: seq<Item>)
  {
    |list| > 0 && list[0].Legacy?
  }

  /**
   * The legacy upgrade of `loadChannels`: when the first element is a string, every id string becomes
   * a record at the same position with the same id and the details `lookup` gives for it.
   */
  function Upgrade(list: seq<Item>, lookup: string -> Details): (r: seq<Item>)
    ensures !IsLegacy(list) ==> r == list
    ensures IsLegacy(list) ==> |r| == |list| && r[0].Record?
    ensures IsLegacy(list) ==> forall i :: 0 <= i < |list| && list[i].Legacy? ==>
              r[i] == Record(Channel(list[i].legacyId, lookup(list[i].legacyId).name, lookup(list[i].legacyId).thumbnail))
  {
    if IsLegacy(list) then UpgradeAll(list, lookup) else list
  }

  /** An upgraded list is no longer legacy, so a second load leaves it alone. */
  lemma UpgradeIsIdempotent(list: seq<Item>, lookup: string -> Details, later: string -> Details)
    ensures Upgrade(Upgrade(list, lookup), later) == Upgrade(list, lookup)
  {
  }

  /** The upgrade turns every legacy id into a member, so no id is lost. */
  lemma UpgradeKeepsIds(list: seq<Item>, lookup: string -> Details, k: nat)
    requires IsLegacy(list) && k < |list| && list[k].Legacy?
    ensures IsMember(Upgrade(list, lookup), list[k].legacyId)
  {
    assert HasId(Upgrade(list, lookup)[k], list[k].legacyId);
  }

  class PopupPage {
    var toggleChecked: bool
    const store: Store

    constructor (store: Store)
      ensures this.store == store && !toggleChecked
    {
      this.store := store;
      toggleChecked := false;
    }

    /** Show the stored flag on the checkbox, `false` when none is stored. */
    method LoadToggleState()
      modifies this
      ensures toggleChecked <==> store.studyModeEnabled == Some(true)
    {
      toggleChecked := store.ModeEnabled();
    }

    /**
     * `loadChannels` up to its storage write: an empty or missing list shows nothing; a legacy list is
     * upgraded and written back. `lookup` stands for `getChannelDetails`, which never fails.
     */
    method LoadChannels(lookup: string -> Details)
      modifies store
      ensures store.studyChannels ==
                if IsLegacy(old(store.StudyChannels())) then Some(Upgrade(old(store.StudyChannels()), lookup))
                else old(store.studyChannels)
      ensures store.studyModeEnabled == old(store.studyModeEnabled)
      ensures store.channelDetailsCache == old(store.channelDetailsCache)
    {
      var channels := store.StudyChannels();
      if |channels| == 0 {
        return;
      }
      if IsLegacy(channels) {
        var updatedChannels := UpgradeAll(channels, lookup);
        store.studyChannels := Some(updatedChannels);
      }
    }

    /** A remove button's handler; with no stored list the source's `filter` would throw, so nothing is written. */
    method RemoveChannel(id: string)
      modifies store
      ensures store.studyChannels ==
                if old(store.studyChannels).Some? then Some(Removed(old(store.studyChannels).value, id))
                else None
      ensures store.studyModeEnabled == old(store.studyModeEnabled)
      ensures store.channelDetailsCache == old(store.channelDetailsCache)
    {
      if store.studyChannels.Some? {
        var updatedChannels := Removed(store.studyChannels.value, id);
        store.studyChannels := Some(updatedChannels);
      }
    }

    /** The clear button, after the user answered the confirmation. */
    method ClearChannels(confirmed: bool)
      modifies store
      ensures store.studyChannels == if confirmed then Some([]) else old(store.studyChannels)
      ensures store.studyModeEnabled == old(store.studyModeEnabled)
      ensures store.channelDetailsCache == old(store.channelDetailsCache)
    {
      if confirmed {
        store.studyChannels := Some([]);
      }
    }

    /** The checkbox's `change` handler: store the new value, and tell the active tab when it is on the site. */
    method Toggle(checked: bool, active: Option<Tab>) returns (sent: Option<Sent>)
      modifies this, store
      ensures toggleChecked == checked
      ensures store.studyModeEnabled == Some(checked)
      ensures store.studyChannels == old(store.studyChannels)
      ensures store.channelDetailsCache == old(store.channelDetailsCache)
      ensures sent.Some? <==> ShouldNotify(active)
      ensures sent.Some? ==> sent.value == Sent(active.value.tabId, Message(StudyModeToggled, checked))
    {
      toggleChecked := checked;
      store.studyModeEnabled := Some(checked);
      if ShouldNotify(active) {
        sent := Some(Sent(active.value.tabId, Message(StudyModeToggled, checked)));
      } else {
        sent := None;
      }
    }
  }
}
