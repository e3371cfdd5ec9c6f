# YT_Regain study mode, modelled in Dafny

YT_Regain is a browser extension that turns YouTube into a "study mode": while the mode is on, a video
from a channel outside the user's study list is blurred, locked and covered by a warning overlay, and
the recommendation panels and Shorts are hidden. The popup toggles the mode and edits the list. The
import page merges a JSON file of channels into the list.

This project models the logic beneath the DOM layer and proves properties of it:

- `ChannelUtils` (`channel_utils.dfy`) resolves the page's channel id in three steps: the meta tag, then
  the URL, then the links. The regex `/\/channel\/([\w-]+)/` is modelled as the leftmost `/channel/`
  followed by a maximal, non-empty run of `[A-Za-z0-9_-]`. The module also holds membership by id, the
  idempotent add, the placeholder record and the 24-hour details cache.
- `ContentScript` (`content_script.dfy`) holds the filtering pass. `Pass` is a pure specification and
  `ContentScript.ApplyStudyModeFiltering` is proved against it. The page is the class `Page`, whose
  methods write the style fields step by step. The module-level `studyModeEnabled`,
  `currentChannelId` and debounce timer are fields of the class `ContentScript`, together with the
  button guard and the toggle message handler.
- `Import` (`import_page.dfy`) validates the entries of a file, reports the error outcomes and merges
  by id. The merge is a loop with an `addedCount` counter, proved against the recursive `MergeAll`.
- `Popup` (`popup.dfy`) removes by id, clears, upgrades a legacy list of id strings to records, and
  stores the toggle.
- `Storage` (`storage.dfy`) stands for `chrome.storage.local`. It is one in-memory record shared by
  every page, with the source's defaults for missing keys.
- `Records`, `Text` and `Wrappers` hold the shared types and the string searches.

Asynchrony is sequential here. A storage callback runs right after the synchronous part of the code
that issued it. So for a member channel, `removeAllFiltering` (contentScript.js:115) runs after
`blockDistractingElements` (contentScript.js:121). The model states the code's real behaviour:

- The overlay is removed on every enabled pass (contentScript.js:93-94). It is re-added only when the
  channel changed (line 107), so a second pass on the same blocked channel leaves the player blurred
  with no overlay (`RepeatPassDropsOverlay`).
- A member channel's first pass resets `#secondary`, `#related` and the body to `''`, which shows the
  panels again one step after hiding them (`NewChannelDecision`).
- `if (!channelId) return` also stops on an empty meta `content` (`Usable`).
- Inputs the code reads from outside become parameters: `isAdPlaying()` is the `Page.adPlaying` field;
  `Date.now()` is the `now` and `writeNow` parameters; the network fetch and scrape is a
  `FetchOutcome`; the details lookup in the popup is a `lookup` function; the user's answer to
  `confirm` is `confirmed`; the active tab is a `Tab` value; `JSON.parse` gives a `Parsed` value.

## Model

| member | source | states |
|---|---|---|
| Text.IdRun | utils/channelUtils.js:13 | the captured run is a prefix of the rest made only of `[\w-]`, and the next character, if any, is not one: the greedy `+` |
| ChannelUtils.FirstMatchFrom | utils/channelUtils.js:13 | returns the first index from `i` at which `/channel/` plus one id character occurs, or none when no later index has one |
| ChannelUtils.MatchChannelPath | utils/channelUtils.js:13-14 | no result iff the regex matches nowhere; otherwise the capture is the id run after the leftmost match, non-empty and made of `[A-Za-z0-9_-]` |
| ChannelUtils.FirstLinkFrom | utils/channelUtils.js:17-22 | the index of the first href in document order that the regex matches, with every earlier href not matching; none iff no href matches |
| ChannelUtils.ExtractChannelId | utils/channelUtils.js:7-23 | a meta content is returned unchanged, even empty; else a path match wins; else the links; `null` iff meta absent and nothing matches; a non-meta id is non-empty `[\w-]` |
| ChannelUtils.LinksGiveFirstMatch | utils/channelUtils.js:17-21 | with no meta and no path match, the id is the capture of the first href in document order that matches |
| ChannelUtils.MetaShadowsUrlAndLinks | utils/channelUtils.js:9-10 | with a meta element the result is its content whatever the path and links are |
| ChannelUtils.PathShadowsLinks | utils/channelUtils.js:13-14 | with no meta and a matching path, the links do not affect the result |
| ChannelUtils.IsMember | utils/channelUtils.js:44 | true iff some element is a record whose id equals the argument; id strings never match |
| ChannelUtils.IsChannelInStudy | utils/channelUtils.js:81-85 | membership in the stored list; a missing list reads as empty, so the answer is false |
| Storage.Store.StudyChannels | utils/channelUtils.js:90-94 | `getStudyChannels`: the stored list, or `[]` when the key is missing |
| ChannelUtils.AddToList | utils/channelUtils.js:41-50 | the old list is a prefix; the list grows by exactly one element, `Record(ch)` at the end, iff the id was absent; the id is a member afterwards |
| ChannelUtils.AddIsIdempotent | utils/channelUtils.js:44-46 | adding the same id twice, with any details, gives the list of adding it once |
| ChannelUtils.AddChangesOnlyItsId | utils/channelUtils.js:44-46 | after the add, an id is a member iff it was one before or it is the added id |
| ChannelUtils.AddKeepsIdsUnique | utils/channelUtils.js:43-46 | a list with distinct record ids keeps distinct ids after the add |
| ChannelUtils.AddChannelToStudy | utils/channelUtils.js:28-50 | the record has the id and the looked-up details; the list is written, as the add's result, iff the id was absent, else left as it was; the flag is unchanged |
| ChannelUtils.PlaceholderDeterminesId | utils/channelUtils.js:167-170 | the placeholder name `"Channel " + id` and the thumbnail URL each determine the id: different ids never share one |
| ChannelUtils.CachedDetails | utils/channelUtils.js:102-112 | a cache entry is used iff it exists and is less than 86400000 ms old, and then its name and thumbnail are returned |
| ChannelUtils.CacheWrite | utils/channelUtils.js:153-162 | the write sets `cache[id]` to the details with the write time as timestamp and keeps every other entry |
| ChannelUtils.FreshEntryIgnoresFetch | utils/channelUtils.js:114-120 | with a fresh entry the lookup returns it, whatever the network would answer |
| ChannelUtils.FailedLookupGivesPlaceholder | utils/channelUtils.js:129-145 | with no fresh entry and a failed fetch or missing `og:` data, the result is the placeholder |
| ChannelUtils.CacheWriteReadBack | utils/channelUtils.js:106 | what a lookup caches is what a lookup within the next day returns |
| ChannelUtils.GetChannelDetails | utils/channelUtils.js:99-172 | returns cached, scraped or placeholder details; the cache is written only after a successful scrape with no fresh entry; the other keys are untouched |
| Text.StartsWith | contentScript.js:53-54 | true iff the pattern is a prefix of the string |
| Text.ContainsFrom | contentScript.js:175 | true iff the pattern occurs at some index from `i` on |
| Text.Contains | contentScript.js:175 | `includes`: true iff the pattern occurs at some index |
| ContentScript.ShouldShowButton | contentScript.js:51-56 | true iff the path starts with `/watch` or with `/channel/` |
| ContentScript.Page.RemoveOverlay | contentScript.js:92-94 | one overlay fewer, if there was one; nothing else changes |
| ContentScript.Page.RemoveAllFiltering | contentScript.js:124-144 | player `filter` and `pointerEvents` `''` when the player exists, one overlay removed, body `''`, `#secondary` and `#related` `''` when present |
| ContentScript.Page.BlockNonStudyContent | contentScript.js:146-171 | player `filter` `blur(10px)` and `pointerEvents` `none` when present, and one overlay appended |
| ContentScript.Page.BlockDistractingElements | contentScript.js:173-191 | on a `/shorts/` path only the body is hidden; otherwise `#secondary` and `#related` are hidden when present |
| ContentScript.Page.RemoveAddButton | contentScript.js:46-49 | the button is gone and nothing else changes |
| ContentScript.ContentScript.ApplyStudyModeFiltering | contentScript.js:86-122 | the new `currentChannelId` and decoration are exactly `Pass` of the old ones; the flag, timers, page inputs and button are unchanged; at most one overlay stays |
| ContentScript.DisabledPassOnlyClears | contentScript.js:87-90 | a disabled pass depends on neither the page's channel nor the list, keeps `currentChannelId` and never blurs |
| ContentScript.AdPassNeverFilters | contentScript.js:96-100 | during an ad the pass keeps `currentChannelId`, resets the player, leaves no overlay when there was at most one (as the class invariant keeps), hides nothing, and ignores channel and list |
| ContentScript.NoIdKeepsState | contentScript.js:103-104 | with no usable id the pass only drops one overlay and keeps `currentChannelId` |
| ContentScript.LookupOnlyOnChange | contentScript.js:106-118 | `currentChannelId` changes iff enabled, no ad, and a usable id that differs from it, and then becomes that id; otherwise the list plays no part |
| ContentScript.NewChannelDecision | contentScript.js:111-117 | on a new channel a non-member gets the blurred, locked player and one new overlay; a member gets every decoration reset, panels and body shown |
| ContentScript.BlurOnlyForNonMember | contentScript.js:111-113 | the player becomes blurred only on an enabled pass with no ad, a new usable id and a non-member |
| ContentScript.RepeatPassDropsOverlay | contentScript.js:92-94 | on an unchanged channel the player style is kept, the overlay is removed and not re-added, and the distractions are hidden |
| ContentScript.PassKeepsOneOverlay | contentScript.js:154-170 | starting from at most one overlay, a pass leaves at most one |
| ContentScript.PassSettlesAfterTwo | contentScript.js:106-121 | with the page and list unchanged, every pass after the second gives the state the second gave |
| ContentScript.ContentScript.constructor | contentScript.js:7-9 | the flag starts `false`, `currentChannelId` `null`, and no timer is set |
| ContentScript.ContentScript.AtMostOneTimerPending | contentScript.js:58-65 | the invariant leaves at most one debounce timer pending |
| ContentScript.ContentScript.LoadInitialState | contentScript.js:12-17 | the flag becomes the stored one, `false` when unset, and a pass runs only when it is on |
| ContentScript.ContentScript.CreateAddButton | contentScript.js:19-44 | never a second button; a button for the page's id is added only when none exists, the id is usable and it is not a member |
| ContentScript.ContentScript.ClickAddButton | contentScript.js:32-34 | the click adds the button's channel to the study list with the add's contract |
| ContentScript.ContentScript.HandlePageChange | contentScript.js:58-74 | the earlier timer is cleared and the new one is the only pending timer |
| ContentScript.ContentScript.FireTimer | contentScript.js:65-73 | no timer stays pending; the button exists iff the path shows it, the id is usable and not a member; a pass runs iff the mode is on |
| ContentScript.ContentScript.HandleMessage | contentScript.js:239-248 | a toggle message sets the flag and equals a pass with the new flag (a disabled pass only clears); other messages change nothing |
| Import.ValidChannels | import/import.js:45 | keeps exactly the entries with truthy `id`, `name` and `thumbnail`; empty iff no entry is valid |
| Import.ValidChannelsDistributes | import/import.js:45 | the filter distributes over concatenation, so file order and duplicates are kept |
| Import.ImportDecision | import/import.js:33-50 | an error for invalid JSON, a non-array, or an array with no valid entry; otherwise the valid channels, non-empty |
| Import.MergeKeepsPrefix | import/import.js:52-53 | the existing list is a prefix of the merged list |
| Import.MergeMembership | import/import.js:55-60 | after the merge an id is listed iff it was listed before or some valid entry carries it |
| Import.MergeAppendsAreNew | import/import.js:56 | each appended record's id is absent from everything before it, so no id is added twice, duplicates in the file included |
| Import.MergeAppendsFromFile | import/import.js:57 | each appended record is one of the file's valid channels |
| Import.MergeKeepsIdsUnique | import/import.js:55-59 | a list with distinct ids still has distinct ids after the merge |
| Import.ImportIntoEmptyList | import/import.js:45-60 | imported into an empty list, exactly the ids of the valid entries are listed |
| Import.MergeChannels | import/import.js:52-60 | the loop computes `MergeAll`; the existing list is a prefix; `addedCount` is the growth; every valid id is listed; appended ids are new |
| Import.ImportPage.OnNoFile | import/import.js:8-11 | no file: button disabled and no content |
| Import.ImportPage.OnFileLoaded | import/import.js:14-18 | the content is kept, the button enabled and the message cleared |
| Import.ImportPage.OnFileError | import/import.js:19-24 | the read-error message, button disabled and no content |
| Import.ImportPage.OnImportClick | import/import.js:28-66 | no content does nothing; each error outcome reports its message and leaves storage as it was; success writes `MergeAll` of the stored list and reports the number added |
| Text.DecimalString | import/import.js:62 | the count in the success message is a non-empty run of decimal digits with no leading zero whose value is the count |
| Popup.Removed | popup/popup.js:92 | the result holds exactly the elements of the list without that id, and the id is no longer a member |
| Popup.RemovedDistributes | popup/popup.js:92 | removal works element by element over concatenation, so the kept elements stay in order |
| Popup.RemoveAbsentIsNoop | popup/popup.js:92 | removing an id that is not listed returns the list unchanged |
| Popup.RemoveKeepsOthers | popup/popup.js:92 | every other id keeps its membership |
| Popup.RemoveUndoesAdd | popup/popup.js:92 | removing an id right after adding it gives the old list without that id |
| Popup.UpgradeAll | popup/popup.js:30-46 | the map keeps the length and converts each element at its position |
| Popup.Upgrade | popup/popup.js:28-46 | only a list whose first element is a string changes; then every id string becomes a record at the same position with the same id and the looked-up details |
| Popup.UpgradeIsIdempotent | popup/popup.js:28 | an upgraded list is not legacy, so a later load leaves it alone |
| Popup.UpgradeKeepsIds | popup/popup.js:30-37 | every legacy id is a member of the upgraded list |
| Popup.PopupPage.LoadToggleState | popup/popup.js:10-12 | the checkbox shows the stored flag, `false` when missing |
| Popup.PopupPage.LoadChannels | popup/popup.js:18-49 | a missing or empty list is left alone; a legacy list is written back upgraded; otherwise nothing is written |
| Popup.PopupPage.RemoveChannel | popup/popup.js:91-93 | the stored list becomes the old list minus the records with that id |
| Popup.PopupPage.ClearChannels | popup/popup.js:118-122 | once confirmed, the stored list is empty |
| Popup.PopupPage.Toggle | popup/popup.js:103-115 | the checkbox value is stored; a message is sent iff the active tab's URL contains `youtube.com`, carrying the new value |

## Left out

- Browser APIs: `chrome.storage` becomes the `Store` record. `chrome.runtime` messages become `Message` values, and `chrome.tabs` becomes the `Tab` value and the `Sent` result. Cross-tab last-write-wins races are concurrency and are not modelled.
- The ordering of storage callbacks: each runs right after the code that issued it. A slow lookup applying a stale decision after a newer pass is not modelled.
- `fetch`, `DOMParser` and reading the `og:title`/`og:image` tags (utils/channelUtils.js:123-145) are network and HTML parsing. They become the `FetchOutcome` oracle.
- The `catch` branch of `addChannelToStudy` (utils/channelUtils.js:57-74) and of the popup's upgrade map (popup/popup.js:38-45) cannot be reached. `getChannelDetails` catches every error and returns the same placeholder.
- The play-button click in `addChannelToStudy` (utils/channelUtils.js:52-56) is player control. It has no counterpart in the page model.
- The MutationObservers, event listeners, the 500 ms delay, the unload cleanup (contentScript.js:196-257) and the button's "Added!" text, 1 s removal and page reload (contentScript.js:34-39) are not modelled. These are event wiring, timing and navigation. The debounce is the single replaceable timer slot; `FireTimer` is the timer's callback.
- `isAdPlaying`'s CSS-selector queries become the boolean `adPlaying`. The overlay selector `div[style*="position: fixed"]` is taken to match only the script's own overlays.
- CSS text, `innerHTML` rendering, hover and click-to-open handlers, export through Blob/URL, and FileReader are UI and I/O.
- `JSON.parse` is the abstract `Parsed` value. Fields that are not strings are not modelled.
- Popup.PopupPage.LoadChannels: stops at the storage write. The next line, `channels = updatedChannels` (popup/popup.js:50), assigns to a `const` and throws, so nothing after the write, rendering included, is modelled.
- Popup.Upgrade: a record element in a list whose first element is a string is kept as it is. The source would pass that object to `getChannelDetails` as an id. Each upgrade lookup's own cache write is also not modelled.
- Each `Date.now()` call is its own parameter: `now` for the freshness test, `writeNow` for the cache timestamp.
