/**
 * The content script: the filtering pass run on every debounced page change, the page decorations it
 * applies and removes, the add-to-study button, the debounce slot and the toggle message handler.
 *
 * The page is abstract: its inputs (meta channel id, path, channel links, whether an ad plays) and the
 * style fields the script writes. Storage callbacks are asynchronous in the extension; here the one
 * a pass issues runs right after the synchronous rest of that pass.
 */
module ContentScript {
  import opened Wrappers
  import opened Text
  import opened Records
  import opened Storage
  import opened ChannelUtils

  const Blur := "blur(10px)"
  const NoPointer := "none"
  const Hidden := "none"
  const ShortsSegment := "/shorts/"

  /** `style.filter` and `style.pointerEvents` of `#movie_player`. */
  datatype Style = Style(filter: string, pointerEvents: string)

  /** What the script reads from the page. */
  datatype PageInputs = PageInputs(meta: Option<string>, pathname: string, hrefs: seq<string>, adPlaying: bool)

  /**
   * What the filtering writes: the player's style (`None` when there is no `#movie_player`), how many
   * warning overlays are attached, `body.style.display`, and the display of `#secondary` and `#related`
   * (`None` when the element is absent).
   */
  datatype Decoration = Decoration(player: Option<Style>, overlays: nat, bodyDisplay: string,
                                   secondary: Option<string>, related: Option<string>)

  /** The result of a pass: the new `currentChannelId` and the new decoration. */
  datatype PassResult = PassResult(currentChannelId: Option<string>, decoration: Decoration)

  /** The player carries the blocking style. */
  predicate IsBlurred(d: Decoration)
  {
    d.player == Some(Style(Blur, NoPointer))
  }

  /** `if (!channelId) return`: `null` and the empty string both stop the caller. */
  predicate Usable(id: Option<string>)
  {
    id.Some? && id.value != ""
  }

  /** `shouldShowButton()`: a video page or a channel page. */
  function ShouldShowButton(pathname: string): (r: bool)
    ensures r <==> "/watch" <= pathname || "/channel/" <= pathname
  {
    StartsWith(pathname, "/watch") || StartsWith(pathname, "/channel/")
  }

  /** `el.style.display = v` guarded by `if (el)`. */
  function SetDisplay(el: Option<string>, v: string): Option<string>
  {
    if el.Some? then Some(v) else None
  }

  /** `querySelector('div[style*="position: fixed"]')?.remove()`: one overlay fewer, if any. */
  function WithoutOverlay(d: Decoration): Decoration
  {
    d.(overlays := if d.overlays == 0 then 0 else d.overlays - 1)
  }

  /** `removeAllFiltering()`. */
  function Cleared(d: Decoration): Decoration
  {
    Decoration(if d.player.Some? then Some(Style("", "")) else None,
               WithoutOverlay(d).overlays, "", SetDisplay(d.secondary, ""), SetDisplay(d.related, ""))
  }

  /** `blockNonStudyContent()`: blur and lock the player, append one overlay. */
  function Blocked(d: Decoration): Decoration
  {
    d.(player := if d.player.Some? then Some(Style(Blur, NoPointer)) else None, overlays := d.overlays + 1)
  }

  /** `blockDistractingElements()`: hide the body on a Shorts path, otherwise the two side panels. */
  function HideDistractions(d: Decoration, pathname: string): Decoration
  {
    if Contains(pathname, ShortsSegment) then d.(bodyDisplay := Hidden)
    else d.(secondary := SetDisplay(d.secondary, Hidden), related := SetDisplay(d.related, Hidden))
  }

  /** The channel id the page resolves to. */
  function ResolvedId(inputs: PageInputs): Option<string>
  {
    ExtractChannelId(inputs.meta, inputs.pathname, inputs.hrefs)
  }

  /**
   * One `applyStudyModeFiltering()` with its storage callback run last: the specification the
   * imperative pass is proved against.
   */
  function Pass(enabled: bool, current: Option<string>, d: Decoration, inputs: PageInputs, list: seq<Item>): PassResult
  {
    if !enabled then PassResult(current, Cleared(d))
    else
      var d1 := WithoutOverlay(d);
      if inputs.adPlaying then PassResult(current, Cleared(d1))
      else
        var id := ResolvedId(inputs);
        if !Usable(id) then PassResult(current, d1)
        else
          var d2 := HideDistractions(d1, inputs.pathname);
          if id == current then PassResult(current, d2)
          else if IsMember(list, id.value) then PassResult(id, Cleared(d2))
          else PassResult(id, Blocked(d2))
  }

  // ---------------------------------------------------------------------------------------------
  // Properties of a pass
  // ---------------------------------------------------------------------------------------------

  /** Disabled, a pass only clears: it reads neither the page's channel nor the study list. */
  lemma DisabledPassOnlyClears(current: Option<string>, d: Decoration, in1: PageInputs, in2: PageInputs,
                               l1: seq<Item>, l2: seq<Item>)
    ensures Pass(false, current, d, in1, l1) == Pass(false, current, d, in2, l2)
    ensures Pass(false, current, d, in1, l1).currentChannelId == current
    ensures !IsBlurred(Pass(false, current, d, in1, l1).decoration)
  {
  }

  /**
   * While an ad plays, a pass clears every decoration, keeps the current channel and hides nothing,
   * whatever the page's channel and the study list are.
   */
  lemma AdPassNeverFilters(current: Option<string>, d: Decoration, inputs: PageInputs, list: seq<Item>)
    requires inputs.adPlaying
    ensures var r := Pass(true, current, d, inputs, list);
            && r.currentChannelId == current
            && !IsBlurred(r.decoration)
            && (r.decoration.player.Some? ==> r.decoration.player.value == Style("", ""))
            && (d.overlays <= 2 ==> r.decoration.overlays == 0)
            && r.decoration.bodyDisplay == ""
            && r.decoration.secondary != Some(Hidden) && r.decoration.related != Some(Hidden)
    ensures forall other: seq<Item>, m: Option<string>, p: string, h: seq<string> ::
              Pass(true, current, d, PageInputs(m, p, h, true), other) == Pass(true, current, d, inputs, list)
  {
  }

  /** Enabled, with no usable id, a pass only drops one overlay and keeps the current channel. */
  lemma NoIdKeepsState(current: Option<string>, d: Decoration, inputs: PageInputs, list: seq<Item>)
    requires !inputs.adPlaying && !Usable(ResolvedId(inputs))
    ensures Pass(true, current, d, inputs, list) == PassResult(current, WithoutOverlay(d))
  {
  }

  /**
   * The study list is consulted only when the resolved id differs from the current one, which the pass
   * then records; otherwise the outcome does not depend on the list.
   */
  lemma LookupOnlyOnChange(enabled: bool, current: Option<string>, d: Decoration, inputs: PageInputs,
                           list: seq<Item>, other: seq<Item>)
    ensures var r := Pass(enabled, current, d, inputs, list);
            r.currentChannelId != current <==>
              enabled && !inputs.adPlaying && Usable(ResolvedId(inputs)) && ResolvedId(inputs) != current
    ensures var r := Pass(enabled, current, d, inputs, list);
            r.currentChannelId != current ==> r.currentChannelId == ResolvedId(inputs)
    ensures var r := Pass(enabled, current, d, inputs, list);
            r.currentChannelId == current ==> Pass(enabled, current, d, inputs, other) == r
  {
  }

  /**
   * On a new channel, a non-member gets the blurred, locked player and one fresh overlay on top of
   * the hidden panels; a member gets every decoration reset, which shows the side panels and the body again.
   */
  lemma NewChannelDecision(current: Option<string>, d: Decoration, inputs: PageInputs, list: seq<Item>)
    requires !inputs.adPlaying && Usable(ResolvedId(inputs)) && ResolvedId(inputs) != current
    ensures var r := Pass(true, current, d, inputs, list);
            var id := ResolvedId(inputs).value;
            && (!IsMember(list, id) ==>
                  && (d.player.Some? ==> IsBlurred(r.decoration))
                  && r.decoration.overlays == WithoutOverlay(d).overlays + 1
                  && r.decoration == Blocked(HideDistractions(WithoutOverlay(d), inputs.pathname)))
            && (IsMember(list, id) ==>
                  && !IsBlurred(r.decoration)
                  && r.decoration.bodyDisplay == ""
                  && r.decoration.overlays == WithoutOverlay(WithoutOverlay(d)).overlays
                  && r.decoration.secondary == SetDisplay(d.secondary, "")
                  && r.decoration.related == SetDisplay(d.related, ""))
  {
  }

  /** The blocking style appears only for an enabled pass, no ad, a new usable id and a non-member. */
  lemma BlurOnlyForNonMember(enabled: bool, current: Option<string>, d: Decoration, inputs: PageInputs, list: seq<Item>)
    requires !IsBlurred(d)
    requires IsBlurred(Pass(enabled, current, d, inputs, list).decoration)
    ensures enabled && !inputs.adPlaying && Usable(ResolvedId(inputs)) && ResolvedId(inputs) != current
    ensures !IsMember(list, ResolvedId(inputs).value)
  {
  }

  /**
   * On an unchanged channel the pass removes the overlay and does not put it back: the player style
   * stays as it was, and only the distractions are hidden again.
   */
  lemma RepeatPassDropsOverlay(current: Option<string>, d: Decoration, inputs: PageInputs, list: seq<Item>)
    requires !inputs.adPlaying && Usable(ResolvedId(inputs)) && ResolvedId(inputs) == current
    ensures var r := Pass(true, current, d, inputs, list);
            && r.decoration.player == d.player
            && (d.overlays <= 1 ==> r.decoration.overlays == 0)
            && r.decoration == HideDistractions(WithoutOverlay(d), inputs.pathname)
  {
  }

  /** A pass never leaves more than one overlay behind. */
  lemma PassKeepsOneOverlay(enabled: bool, current: Option<string>, d: Decoration, inputs: PageInputs, list: seq<Item>)
    requires d.overlays <= 1
    ensures Pass(enabled, current, d, inputs, list).decoration.overlays <= 1
  {
  }

  /** With the page and the list unchanged, the second pass reaches a state every later pass keeps. */
  lemma PassSettlesAfterTwo(enabled: bool, current: Option<string>, d: Decoration, inputs: PageInputs, list: seq<Item>)
    requires d.overlays <= 1
    ensures var r1 := Pass(enabled, current, d, inputs, list);
            var r2 := Pass(enabled, r1.currentChannelId, r1.decoration, inputs, list);
            Pass(enabled, r2.currentChannelId, r2.decoration, inputs, list) == r2
  {
  }

  // ---------------------------------------------------------------------------------------------
  // The page
  // ---------------------------------------------------------------------------------------------

  /** The document as the content script sees it. `addButton` is the channel id of the add button, if one is attached. */
  class Page {
    var pathname: string
    var metaChannelId: Option<string>
    var channelHrefs: seq<string>
    var adPlaying: bool
    var player: Option<Style>
    var overlays: nat
    var bodyDisplay: string
    var secondary: Option<string>
    var related: Option<string>
    var addButton: Option<string>

    /** A page as loaded: none of the script's overlays and no add button yet. */
    constructor (inputs: PageInputs, player: Option<Style>, bodyDisplay: string,
                 secondary: Option<string>, related: Option<string>)
      ensures Inputs() == inputs
      ensures Decor() == Decoration(player, 0, bodyDisplay, secondary, related)
      ensures addButton == None
    {
      pathname := inputs.pathname;
      metaChannelId := inputs.meta;
      channelHrefs := inputs.hrefs;
      adPlaying := inputs.adPlaying;
      this.player := player;
      overlays := 0;
      this.bodyDisplay := bodyDisplay;
      this.secondary := secondary;
      this.related := related;
      addButton := None;
    }

    function Inputs(): PageInputs
      reads this
    {
      PageInputs(metaChannelId, pathname, channelHrefs, adPlaying)
    }

    function Decor(): Decoration
      reads this
    {
      Decoration(player, overlays, bodyDisplay, secondary, related)
    }

    /** Remove the first fixed-position overlay, if any. */
    method RemoveOverlay()
      modifies this
      ensures Decor() == WithoutOverlay(old(Decor()))
      ensures Inputs() == old(Inputs()) && addButton == old(addButton)
    {
      if overlays > 0 {
        overlays := overlays - 1;
      }
    }

    /** `removeAllFiltering()`. */
    method RemoveAllFiltering()
      modifies this
      ensures Decor() == Cleared(old(Decor()))
      ensures Inputs() == old(Inputs()) && addButton == old(addButton)
    {
      if player.Some? {
        player := Some(Style("", ""));
      }
      RemoveOverlay();
      bodyDisplay := "";
      if secondary.Some? {
        secondary := Some("");
      }
      if related.Some? {
        related := Some("");
      }
    }

    /** `blockNonStudyContent()`. */
    method BlockNonStudyContent()
      modifies this
      ensures Decor() == Blocked(old(Decor()))
      ensures Inputs() == old(Inputs()) && addButton == old(addButton)
    {
      if player.Some? {
        player := Some(Style(Blur, NoPointer));
      }
      overlays := overlays + 1;
    }

    /** `blockDistractingElements()`. */
    method BlockDistractingElements()
      modifies this
      ensures Decor() == HideDistractions(old(Decor()), pathname)
      ensures Inputs() == old(Inputs()) && addButton == old(addButton)
    {
      if Contains(pathname, ShortsSegment) {
        bodyDisplay := Hidden;
        return;
      }
      if secondary.Some? {
        secondary := Some(Hidden);
      }
      if related.Some? {
        related := Some(Hidden);
      }
    }

    /** `removeAddButton()`. */
    method RemoveAddButton()
      modifies this
      ensures addButton == None
      ensures Decor() == old(Decor()) && Inputs() == old(Inputs())
    {
      addButton := None;
    }
  }

  // ---------------------------------------------------------------------------------------------
  // The script's module-level state and its handlers
  // ---------------------------------------------------------------------------------------------

  class ContentScript {
    var studyModeEnabled: bool
    var currentChannelId: Option<string>
    /** The last id `setTimeout` returned; like the source, it is never reset after the timer fires. */
    var debounceTimer: Option<nat>
    /** The timers set and neither cleared nor fired yet. */
    var pendingTimers: set<nat>
    var nextTimerId: nat
    const page: Page
    const store: Store

    /** At most the last timer set is pending, and the script never leaves more than one overlay. */
    ghost predicate Valid()
      reads this, page
    {
      && page.overlays <= 1
      && 0 < nextTimerId
      && (debounceTimer.Some? ==> 0 < debounceTimer.value < nextTimerId)
      && pendingTimers <= (if debounceTimer.Some? then {debounceTimer.value} else {})
    }

    /** The script as loaded, before the stored flag arrives (`let` initialisers of lines 7-9). */
    constructor (page: Page, store: Store)
      requires page.overlays == 0
      ensures Valid()
      ensures this.page == page && this.store == store
      ensures !studyModeEnabled && currentChannelId == None
      ensures debounceTimer == None && pendingTimers == {}
    {
      this.page := page;
      this.store := store;
      studyModeEnabled := false;
      currentChannelId := None;
      debounceTimer := None;
      pendingTimers := {};
      nextTimerId := 1;
    }

    /** The invariant bounds the debounce slot: never two timers pending. */
    lemma AtMostOneTimerPending()
      requires Valid()
      ensures |pendingTimers| <= 1
    {
      if debounceTimer.Some? {
        var single := {debounceTimer.value};
        assert pendingTimers == {} || pendingTimers == single;
      }
    }

    /** `applyStudyModeFiltering()`, proved against `Pass`. */
    method ApplyStudyModeFiltering()
      requires Valid()
      modifies this, page
      ensures Valid()
      ensures PassResult(currentChannelId, page.Decor())
              == Pass(studyModeEnabled, old(currentChannelId), old(page.Decor()), page.Inputs(), store.StudyChannels())
      ensures studyModeEnabled == old(studyModeEnabled)
      ensures debounceTimer == old(debounceTimer) && pendingTimers == old(pendingTimers) && nextTimerId == old(nextTimerId)
      ensures page.Inputs() == old(page.Inputs()) && page.addButton == old(page.addButton)
    {
      PassKeepsOneOverlay(studyModeEnabled, currentChannelId, page.Decor(), page.Inputs(), store.StudyChannels());
      if !studyModeEnabled {
        page.RemoveAllFiltering();
        return;
      }
      page.RemoveOverlay();
      if page.adPlaying {
        page.RemoveAllFiltering();
        return;
      }
      var newChannelId := ResolvedId(page.Inputs());
      if !Usable(newChannelId) {
        return;
      }
      var lookUp := false;
      if newChannelId != currentChannelId {
        currentChannelId := newChannelId;
        lookUp := true;
      }
      page.BlockDistractingElements();
      if lookUp {
        // the isChannelInStudy callback, which runs after the synchronous part above
        var isStudyChannel := IsChannelInStudy(store, newChannelId.value);
        if !isStudyChannel {
          page.BlockNonStudyContent();
        } else {
          page.RemoveAllFiltering();
        }
      }
    }

    /** The initial `chrome.storage.local.get(['studyModeEnabled'])` callback. */
    method LoadInitialState()
      requires Valid()
      modifies this, page
      ensures Valid()
      ensures studyModeEnabled == store.ModeEnabled()
      ensures PassResult(currentChannelId, page.Decor()) ==
                if studyModeEnabled
                then Pass(true, old(currentChannelId), old(page.Decor()), page.Inputs(), store.StudyChannels())
                else PassResult(old(currentChannelId), old(page.Decor()))
      ensures debounceTimer == old(debounceTimer) && pendingTimers == old(pendingTimers) && nextTimerId == old(nextTimerId)
      ensures page.Inputs() == old(page.Inputs()) && page.addButton == old(page.addButton)
    {
      studyModeEnabled := store.ModeEnabled();
      if studyModeEnabled {
        ApplyStudyModeFiltering();
      }
    }

    /** `createAddButton()`: never a second button, none without a usable id or for a member. */
    method CreateAddButton()
      modifies page
      ensures page.addButton ==
                if old(page.addButton).None? && Usable(ResolvedId(page.Inputs())) && !IsChannelInStudy(store, ResolvedId(page.Inputs()).value)
                then ResolvedId(page.Inputs()) else old(page.addButton)
      ensures page.Decor() == old(page.Decor()) && page.Inputs() == old(page.Inputs())
    {
      if page.addButton.Some? {
        return;
      }
      var channelId := ResolvedId(page.Inputs());
      if !Usable(channelId) {
        return;
      }
      // the isChannelInStudy callback
      var isStudyChannel := IsChannelInStudy(store, channelId.value);
      if isStudyChannel {
        return;
      }
      page.addButton := channelId;
    }

    /** A click on the add button: `addChannelToStudy` for the channel the button was made for. */
    method ClickAddButton(now: int, fetched: FetchOutcome, writeNow: int) returns (channel: Channel, wrote: bool)
      requires page.addButton.Some?
      modifies store
      ensures channel.id == page.addButton.value
      ensures Details(channel.name, channel.thumbnail) == LookupDetails(old(store.DetailsCache()), channel.id, now, fetched)
      ensures wrote <==> !IsMember(old(store.StudyChannels()), channel.id)
      ensures store.studyChannels == if wrote then Some(AddToList(old(store.StudyChannels()), channel))
                                     else old(store.studyChannels)
      ensures store.channelDetailsCache ==
                if LookupWritesCache(old(store.DetailsCache()), channel.id, now, fetched)
                then Some(CacheWrite(old(store.DetailsCache()), channel.id, Details(channel.name, channel.thumbnail), writeNow))
                else old(store.channelDetailsCache)
      ensures store.studyModeEnabled == old(store.studyModeEnabled)
    {
      channel, wrote := AddChannelToStudy(store, page.addButton.value, now, fetched, writeNow);
    }

    /** `handlePageChange()`: clear the pending timer, if any, and set a new one in its place. */
    method HandlePageChange()
      requires Valid()
      modifies this
      ensures Valid()
      ensures debounceTimer == Some(old(nextTimerId)) && pendingTimers == {old(nextTimerId)}
      ensures nextTimerId == old(nextTimerId) + 1
      ensures studyModeEnabled == old(studyModeEnabled) && currentChannelId == old(currentChannelId)
    {
      if debounceTimer.Some? {
        pendingTimers := pendingTimers - {debounceTimer.value};
      }
      assert pendingTimers == {};
      var timer := nextTimerId;
      nextTimerId := nextTimerId + 1;
      pendingTimers := pendingTimers + {timer};
      debounceTimer := Some(timer);
    }

    /**
     * The debounced callback of timer `t`: drop the button, re-create it where it belongs, and run a
     * pass when study mode is on.
     */
    method FireTimer(t: nat)
      requires Valid() && t in pendingTimers
      modifies this, page
      ensures Valid()
      ensures pendingTimers == {} && debounceTimer == old(debounceTimer) && nextTimerId == old(nextTimerId)
      ensures studyModeEnabled == old(studyModeEnabled)
      ensures page.Inputs() == old(page.Inputs())
      ensures page.addButton ==
                if ShouldShowButton(page.pathname) && Usable(ResolvedId(page.Inputs()))
                   && !IsChannelInStudy(store, ResolvedId(page.Inputs()).value)
                then ResolvedId(page.Inputs()) else None
      ensures PassResult(currentChannelId, page.Decor()) ==
                if studyModeEnabled
                then Pass(true, old(currentChannelId), old(page.Decor()), page.Inputs(), store.StudyChannels())
                else PassResult(old(currentChannelId), old(page.Decor()))
    {
      pendingTimers := pendingTimers - {t};
      page.RemoveAddButton();
      if ShouldShowButton(page.pathname) {
        CreateAddButton();
      }
      if studyModeEnabled {
        ApplyStudyModeFiltering();
      }
    }

    /** The `chrome.runtime.onMessage` listener: a toggle message sets the flag and runs or clears the filtering. */
    method HandleMessage(m: Message)
      requires Valid()
      modifies this, page
      ensures Valid()
      ensures m.kind != StudyModeToggled ==>
                studyModeEnabled == old(studyModeEnabled) && currentChannelId == old(currentChannelId)
                && page.Decor() == old(page.Decor())
      ensures m.kind == StudyModeToggled ==>
                studyModeEnabled == m.enabled
                && PassResult(currentChannelId, page.Decor())
                   == Pass(m.enabled, old(currentChannelId), old(page.Decor()), page.Inputs(), store.StudyChannels())
      ensures debounceTimer == old(debounceTimer) && pendingTimers == old(pendingTimers) && nextTimerId == old(nextTimerId)
      ensures page.Inputs() == old(page.Inputs()) && page.addButton == old(page.addButton)
    {
      if m.kind == StudyModeToggled {
        studyModeEnabled := m.enabled;
        if studyModeEnabled {
          ApplyStudyModeFiltering();
        } else {
          page.RemoveAllFiltering();
        }
      }
    }
  }
}
