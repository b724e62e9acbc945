/**
 * The client's transcript history (meeting-recorder-pwa-v2/app.js,
 * loadHistory, saveHistory and saveToHistory): one stored text under a
 * fixed key holding the whole list, newest first, read in full and
 * rewritten in full.
 */
module History {
  import opened Wrappers
  import opened HistoryJson

  /** The history a stored item denotes: [] when it is absent, empty or unreadable. */
  function LoadFrom(item: Option<string>): seq<Entry> {
    if item.None? || item.value == "" then []
    else
      match Parse(item.value)
      case None => []
      case Some(history) => history
  }

  /** What saveHistory stores, loadHistory reads back. */
  lemma LoadAfterSave(history: seq<Entry>)
    ensures LoadFrom(Some(Stringify(history))) == history
  {
    ParseStringify(history);
  }

  /**
   * Two saves in a row keep the history newest first: the second entry
   * precedes the first, and both precede what was there before.
   */
  lemma NewestFirst(item: Option<string>, first: Entry, second: Entry)
    ensures var afterFirst := Some(Stringify([first] + LoadFrom(item)));
            var afterSecond := Some(Stringify([second] + LoadFrom(afterFirst)));
            LoadFrom(afterSecond) == [second, first] + LoadFrom(item)
  {
    LoadAfterSave([first] + LoadFrom(item));
    LoadAfterSave([second] + ([first] + LoadFrom(item)));
    assert [second] + ([first] + LoadFrom(item)) == [second, first] + LoadFrom(item);
  }

  /** The browser's localStorage entry for the history key. */
  class HistoryStore {
    /** localStorage.getItem("meetingHistory"): None while the key has never been set. */
    var item: Option<string>

    constructor (item: Option<string>)
      ensures this.item == item
    {
      this.item := item;
    }

    /** The history as loadHistory would return it now. */
    function Records(): seq<Entry>
      reads this
    {
      LoadFrom(item)
    }

    /** loadHistory: the stored list, or [] when nothing usable is stored. */
    method LoadHistory() returns (history: seq<Entry>)
      ensures item.None? || item.value == "" ==> history == []
      ensures item.Some? && Parse(item.value).None? ==> history == []
      ensures item.Some? && item.value != "" && Parse(item.value).Some? ==> history == Parse(item.value).value
      ensures history == Records()
    {
      var raw := item;
      if raw.None? || raw.value == "" {
        return [];
      }
      var parsed := Parse(raw.value);
      if parsed.None? {
        return [];
      }
      history := parsed.value;
    }

    /** saveHistory: the whole list is serialised and stored, replacing what was there. */
    method SaveHistory(history: seq<Entry>)
      modifies this
      ensures item == Some(Stringify(history))
      ensures Records() == history
    {
      item := Some(Stringify(history));
      LoadAfterSave(history);
    }

    /** saveToHistory: the new entry goes in front of everything stored before. */
    method SaveToHistory(id: nat, createdAt: string, transcript: string)
      modifies this
      ensures Records() == [Entry(id, createdAt, transcript)] + old(Records())
      ensures |Records()| == |old(Records())| + 1
      ensures forall i :: 0 <= i < |old(Records())| ==> Records()[i + 1] == old(Records())[i]
      ensures item == Some(Stringify(Records()))
    {
      var history := LoadHistory();
      var entry := Entry(id, createdAt, transcript);
      history := [entry] + history;
      SaveHistory(history);
    }
  }
}
