/**
 * The import page: a parsed JSON file is validated entry by entry and merged into the stored study
 * list by id, keeping the existing order and counting the channels it adds.
 */
module Import {
  import opened Wrappers
  import opened Text
  import opened Records
  import opened Storage
  import opened ChannelUtils

  /** An array element that is an object, with its three fields when they are strings. */
  datatype ImportEntry = ImportEntry(id: Option<string>, name: Option<string>, thumbnail: Option<string>)

  /**
   * What `JSON.parse` gave: an exception, a value that is not an array, or an array whose elements
   * are objects (`Some`) or anything else (`None`: null, numbers, strings, ...).
   */
  datatype Parsed = InvalidJson | NotArray | JsonArray(entries: seq<Option<ImportEntry>>)

  /** The text and class of `#msg`. */
  datatype Notice = Notice(text: string, cls: string)

  /** What a click on the import button ended with. */
  datatype Outcome = NothingToImport | Rejected(reason: string) | Imported(addedCount: nat)

  const InvalidJsonText := "Invalid JSON file."
  const NotArrayText := "File must be an array of channels."
  const NoValidText := "No valid channels found in file."
  const ReadFailedText := "Failed to read file."

  /** The success message, with the number of channels added. */
  function SuccessText(addedCount: nat): string
  {
    "Import successful! Added " + DecimalString(addedCount) + " new channel(s)."
  }

  /** `ch && ch.id && ch.name && ch.thumbnail`. */
  predicate IsValidEntry(e: Option<ImportEntry>)
  {
    e.Some? && IsTruthy(e.value.id) && IsTruthy(e.value.name) && IsTruthy(e.value.thumbnail)
  }

  function ToChannel(e: Option<ImportEntry>): Channel
    requires IsValidEntry(e)
  {
    Channel(e.value.id.value, e.value.name.value, e.value.thumbnail.value)
  }

  /** `imported.filter(ch => ch && ch.id && ch.name && ch.thumbnail)`, order kept. */
  function ValidChannels(entries: seq<Option<ImportEntry>>): (r: seq<Channel>)
    ensures |r| <= |entries|
    ensures forall c :: c in r ==> c.id != "" && c.name != "" && c.thumbnail != ""
    ensures forall i :: 0 <= i < |entries| && IsValidEntry(entries[i]) ==> ToChannel(entries[i]) in r
    ensures forall c :: c in r ==> exists i :: 0 <= i < |entries| && IsValidEntry(entries[i]) && ToChannel(entries[i]) == c
    ensures r == [] <==> forall i :: 0 <= i < |entries| ==> !IsValidEntry(entries[i])
  {
    if entries == [] then []
    else
      var rest := ValidChannels(entries[1..]);
      assert forall i :: 1 <= i < |entries| ==> entries[i] == entries[1..][i - 1];
      if IsValidEntry(entries[0]) then [ToChannel(entries[0])] + rest else rest
  }

  /** The filter keeps file order and multiplicity: it distributes over concatenation. */
  lemma {:induction false} ValidChannelsDistributes(a: seq<Option<ImportEntry>>, b: seq<Option<ImportEntry>>)
    ensures ValidChannels(a + b) == ValidChannels(a) + ValidChannels(b)
  {
    if a == [] {
      assert a + b == b;
    } else {
      assert (a + b)[0] == a[0];
      assert (a + b)[1..] == a[1..] + b;
      ValidChannelsDistributes(a[1..], b);
    }
  }

  /** The merge loop as a specification: every valid channel offered in turn to `AddToList`. */
  function MergeAll(existing: seq<Item>, valid: seq<Channel>): seq<Item>
    decreases |valid|
  {
    if valid == [] then existing
    else AddToList(MergeAll(existing, valid[..|valid| - 1]), valid[|valid| - 1])
  }

  /** The merge keeps the existing list as a prefix. */
  lemma {:induction false} MergeKeepsPrefix(existing: seq<Item>, valid: seq<Channel>)
    ensures existing <= MergeAll(existing, valid)
    ensures |MergeAll(existing, valid)| <= |existing| + |valid|
    decreases |valid|
  {
    if valid != [] {
      MergeKeepsPrefix(existing, valid[..|valid| - 1]);
    }
  }

  /** After the merge, a channel id is listed iff it was listed before or offered by the file. */
  lemma {:induction false} MergeMembership(existing: seq<Item>, valid: seq<Channel>, id: string)
    ensures IsMember(MergeAll(existing, valid), id) <==>
              IsMember(existing, id) || exists k :: 0 <= k < |valid| && valid[k].id == id
    decreases |valid|
  {
    if valid != [] {
      var init := valid[..|valid| - 1];
      MergeMembership(existing, init, id);
      AddChangesOnlyItsId(MergeAll(existing, init), valid[|valid| - 1], id);
      if exists k :: 0 <= k < |valid| && valid[k].id == id {
        var k :| 0 <= k < |valid| && valid[k].id == id;
        if k < |valid| - 1 {
          assert init[k].id == id;
        }
      }
      if exists k :: 0 <= k < |init| && init[k].id == id {
        var k :| 0 <= k < |init| && init[k].id == id;
        assert valid[k].id == id;
      }
    }
  }

  /**
   * Every record the merge appends carries an id that no earlier item of the merged list has:
   * nothing listed is added again, and a duplicate inside the file is added once.
   */
  predicate AppendsAreNew(existing: seq<Item>, merged: seq<Item>)
  {
    && existing <= merged
    && forall j :: |existing| <= j < |merged| ==>
         merged[j].Record? && !IsMember(merged[..j], merged[j].channel.id)
  }

  lemma {:induction false} MergeAppendsAreNew(existing: seq<Item>, valid: seq<Channel>)
    ensures AppendsAreNew(existing, MergeAll(existing, valid))
    decreases |valid|
  {
    if valid != [] {
      var before := MergeAll(existing, valid[..|valid| - 1]);
      MergeAppendsAreNew(existing, valid[..|valid| - 1]);
      var after := MergeAll(existing, valid);
      assert after == AddToList(before, valid[|valid| - 1]);
      forall j | |existing| <= j < |after|
        ensures after[j].Record? && !IsMember(after[..j], after[j].channel.id)
      {
        if j < |before| {
          assert after[..j] == before[..j];
        } else {
          assert after[..j] == before;
        }
      }
    }
  }

  /** Each appended record is one of the file's valid channels. */
  lemma {:induction false} MergeAppendsFromFile(existing: seq<Item>, valid: seq<Channel>)
    ensures forall j :: |existing| <= j < |MergeAll(existing, valid)| ==>
              MergeAll(existing, valid)[j].Record? && MergeAll(existing, valid)[j].channel in valid
    decreases |valid|
  {
    if valid != [] {
      var init := valid[..|valid| - 1];
      MergeAppendsFromFile(existing, init);
      MergeKeepsPrefix(existing, init);
      var before := MergeAll(existing, init);
      var after := MergeAll(existing, valid);
      forall j | |existing| <= j < |after|
        ensures after[j].Record? && after[j].channel in valid
      {
        if j < |before| {
          assert after[j] == before[j];
          assert before[j].channel in init;
        } else {
          assert after[j] == Record(valid[|valid| - 1]);
        }
      }
    }
  }

  /** A list of distinct ids stays one after the merge. */
  lemma {:induction false} MergeKeepsIdsUnique(existing: seq<Item>, valid: seq<Channel>)
    requires UniqueIds(existing)
    ensures UniqueIds(MergeAll(existing, valid))
    decreases |valid|
  {
    if valid != [] {
      MergeKeepsIdsUnique(existing, valid[..|valid| - 1]);
      AddKeepsIdsUnique(MergeAll(existing, valid[..|valid| - 1]), valid[|valid| - 1]);
    }
  }

  /** The file offers `id` as one of its valid entries. */
  predicate OffersId(entries: seq<Option<ImportEntry>>, id: string)
  {
    exists i :: 0 <= i < |entries| && IsValidEntry(entries[i]) && entries[i].value.id == Some(id)
  }

  lemma ValidChannelOffered(entries: seq<Option<ImportEntry>>, c: Channel)
    requires c in ValidChannels(entries)
    ensures OffersId(entries, c.id)
  {
    var i :| 0 <= i < |entries| && IsValidEntry(entries[i]) && ToChannel(entries[i]) == c;
    assert entries[i].value.id == Some(c.id);
  }

  lemma OfferedIsValidChannel(entries: seq<Option<ImportEntry>>, id: string)
    requires OffersId(entries, id)
    ensures exists k :: 0 <= k < |ValidChannels(entries)| && ValidChannels(entries)[k].id == id
  {
    var i :| 0 <= i < |entries| && IsValidEntry(entries[i]) && entries[i].value.id == Some(id);
    var valid := ValidChannels(entries);
    assert ToChannel(entries[i]) in valid;
    var k :| 0 <= k < |valid| && valid[k] == ToChannel(entries[i]);
    assert valid[k].id == id;
  }

  /** Importing a file into an empty list lists exactly the ids of the file's valid entries. */
  lemma ImportIntoEmptyList(entries: seq<Option<ImportEntry>>, id: string)
    ensures IsMember(MergeAll([], ValidChannels(entries)), id) <==> OffersId(entries, id)
  {
    var valid := ValidChannels(entries);
    MergeMembership([], valid, id);
    if exists k :: 0 <= k < |valid| && valid[k].id == id {
      var k :| 0 <= k < |valid| && valid[k].id == id;
      ValidChannelOffered(entries, valid[k]);
    }
    if OffersId(entries, id) {
      OfferedIsValidChannel(entries, id);
    }
  }

  /**
   * The merge loop of the click handler: `merged` starts as a copy of `existing`, and each valid
   * channel whose id is not yet in `merged` is pushed and counted.
   */
  method MergeChannels(existing: seq<Item>, valid: seq<Channel>) returns (merged: seq<Item>, addedCount: nat)
    ensures merged == MergeAll(existing, valid)
    ensures existing <= merged
    ensures addedCount == |merged| - |existing|
    ensures forall k :: 0 <= k < |valid| ==> IsMember(merged, valid[k].id)
    ensures AppendsAreNew(existing, merged)
  {
    merged := existing;
    addedCount := 0;
    for i := 0 to |valid|
      invariant merged == MergeAll(existing, valid[..i])
      invariant existing <= merged
      invariant addedCount == |merged| - |existing|
    {
      assert valid[..i + 1][..i] == valid[..i];
      var ch := valid[i];
      if !IsMember(merged, ch.id) {
        merged := merged + [Record(ch)];
        addedCount := addedCount + 1;
      }
    }
    assert valid[..|valid|] == valid;
    forall k | 0 <= k < |valid|
      ensures IsMember(merged, valid[k].id)
    {
      MergeMembership(existing, valid, valid[k].id);
    }
    MergeAppendsAreNew(existing, valid);
  }

  /** The click handler's verdict on a parsed file: an error message, or the valid channels to merge. */
  datatype Decision = Refused(message: string) | Accepted(valid: seq<Channel>)

  /** The validation steps of the click handler on a loaded, parsed file. */
  function ImportDecision(parsed: Parsed): (r: Decision)
    ensures r.Refused? <==> !parsed.JsonArray? || ValidChannels(parsed.entries) == []
    ensures r.Accepted? ==> r.valid == ValidChannels(parsed.entries) && r.valid != []
  {
    match parsed
    case InvalidJson => Refused(InvalidJsonText)
    case NotArray => Refused(NotArrayText)
    case JsonArray(entries) =>
      var valid := ValidChannels(entries);
      if valid == [] then Refused(NoValidText) else Accepted(valid)
  }

  class ImportPage {
    /** The file text as read: `None` while no file is loaded or when the text is empty (both falsy). */
    var fileContent: Option<Parsed>
    var importDisabled: bool
    var notice: Notice
    const store: Store

    constructor (store: Store)
      ensures this.store == store && fileContent == None && notice == Notice("", "")
    {
      this.store := store;
      fileContent := None;
      importDisabled := true;
      notice := Notice("", "");
    }

    /** The `change` handler when no file was chosen. */
    method OnNoFile()
      modifies this
      ensures importDisabled && fileContent == None && notice == old(notice)
    {
      importDisabled := true;
      fileContent := None;
    }

    /** `reader.onload`: `content` is `None` when the file's text is empty. */
    method OnFileLoaded(content: Option<Parsed>)
      modifies this
      ensures fileContent == content && !importDisabled && notice.text == "" && notice.cls == old(notice.cls)
    {
      fileContent := content;
      importDisabled := false;
      notice := notice.(text := "");
    }

    /** `reader.onerror`. */
    method OnFileError()
      modifies this
      ensures fileContent == None && importDisabled && notice == Notice(ReadFailedText, "error")
    {
      notice := Notice(ReadFailedText, "error");
      importDisabled := true;
      fileContent := None;
    }

    /**
     * The import button's click handler. An error leaves the store untouched; a success writes the
     * merged list and reports how many channels were added.
     */
    method OnImportClick() returns (outcome: Outcome)
      modifies this, store
      ensures fileContent == old(fileContent)
      ensures store.studyModeEnabled == old(store.studyModeEnabled)
      ensures store.channelDetailsCache == old(store.channelDetailsCache)
      ensures old(fileContent).None? ==>
                outcome == NothingToImport && notice == Notice("", "")
                && store.studyChannels == old(store.studyChannels) && importDisabled == old(importDisabled)
      ensures old(fileContent).Some? && ImportDecision(old(fileContent).value).Refused? ==>
                outcome == Rejected(ImportDecision(old(fileContent).value).message)
                && notice == Notice(outcome.reason, "error")
                && store.studyChannels == old(store.studyChannels) && importDisabled == old(importDisabled)
      ensures old(fileContent).Some? && ImportDecision(old(fileContent).value).Accepted? ==>
                var merged := MergeAll(old(store.StudyChannels()), ImportDecision(old(fileContent).value).valid);
                && store.studyChannels == Some(merged)
                && outcome.Imported? && |merged| == |old(store.StudyChannels())| + outcome.addedCount
                && notice == Notice(SuccessText(outcome.addedCount), "success") && importDisabled
    {
      notice := Notice("", "");
      if fileContent.None? {
        return NothingToImport;
      }
      var decision := ImportDecision(fileContent.value);
      if decision.Refused? {
        notice := Notice(decision.message, "error");
        return Rejected(decision.message);
      }
      var existing := store.StudyChannels();
      var merged, addedCount := MergeChannels(existing, decision.valid);
      store.studyChannels := Some(merged);
      notice := Notice(SuccessText(addedCount), "success");
      importDisabled := true;
      outcome := Imported(addedCount);
    }
  }
}
