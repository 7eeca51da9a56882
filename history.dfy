/**
 * The history page: it loads the list persisted under the `voice-history`
 * key, keeps only well-formed entries, and lets the user delete one entry
 * or clear everything. The storage slot is a field of the page object; its
 * JSON text is abstracted to the four shapes the loader distinguishes.
 */
module History {
  import opened Wrappers
  import opened Json

  const LoadErrorMessage := "Failed to load history data"

  /** One element of the stored array: an object with its three fields, or anything that is not an object. */
  datatype Entry = Record(command: Value, response: Value, time: Value) | NotRecord

  /** What `localStorage.getItem("voice-history")` holds, as the loader sees it after `JSON.parse`. */
  datatype Stored = Absent | Unparseable | NotArray | Array(items: seq<Entry>)

  /** The loader's filter test: an object whose `command`, `response` and `time` are strings. */
  predicate IsValidEntry(e: Entry) {
    e.Record? && e.command.Str? && e.response.Str? && e.time.Str?
  }

  predicate AllValid(s: seq<Entry>) {
    forall i :: 0 <= i < |s| ==> IsValidEntry(s[i])
  }

  /** `parsedHistory.filter(...)`: the valid entries, in their stored order. */
  function ValidEntries(items: seq<Entry>): (r: seq<Entry>)
    ensures |r| <= |items| && AllValid(r)
    ensures forall e :: e in r <==> e in items && IsValidEntry(e)
  {
    if items == [] then []
    else (if IsValidEntry(items[0]) then [items[0]] else []) + ValidEntries(items[1..])
  }

  /** The filter works element by element, so it keeps the relative order of what it keeps. */
  lemma {:induction false} ValidEntriesAppend(a: seq<Entry>, b: seq<Entry>)
    ensures ValidEntries(a + b) == ValidEntries(a) + ValidEntries(b)
  {
    if a == [] {
      assert a + b == b;
    } else {
      assert (a + b)[1..] == a[1..] + b;
      ValidEntriesAppend(a[1..], b);
    }
  }

  /** A list of valid entries survives the filter unchanged, and only such a list does. */
  lemma {:induction false} ValidEntriesFixedPoint(items: seq<Entry>)
    ensures ValidEntries(items) == items <==> AllValid(items)
  {
    if items != [] {
      ValidEntriesFixedPoint(items[1..]);
      if !IsValidEntry(items[0]) {
        assert |ValidEntries(items)| < |items|;
      }
    }
  }

  /** `history.filter((_, i) => i !== index)`, walking the list with the running index `k`. */
  function WithoutIndexFrom(s: seq<Entry>, index: int, k: int): (r: seq<Entry>)
  {
    if s == [] then []
    else (if k != index then [s[0]] else []) + WithoutIndexFrom(s[1..], index, k + 1)
  }

  function WithoutIndex(s: seq<Entry>, index: int): seq<Entry> {
    WithoutIndexFrom(s, index, 0)
  }

  /** The index filter started at offset `k` removes exactly position `index - k`, if there is one. */
  lemma {:induction false} WithoutIndexFromRemoves(s: seq<Entry>, index: int, k: int)
    ensures WithoutIndexFrom(s, index, k)
              == if k <= index < k + |s| then s[..index - k] + s[index - k + 1..] else s
  {
    if s != [] {
      var tail := s[1..];
      WithoutIndexFromRemoves(tail, index, k + 1);
      var w := WithoutIndexFrom(tail, index, k + 1);
      if index == k {
        assert WithoutIndexFrom(s, index, k) == w == tail;
        assert s[..0] + s[1..] == tail;
      } else if k < index < k + |s| {
        var d := index - k;
        assert WithoutIndexFrom(s, index, k) == [s[0]] + w;
        assert w == s[1..d] + s[d + 1..] by {
          assert tail[..d - 1] == s[1..d];
          assert tail[d..] == s[d + 1..];
        }
        calc {
          [s[0]] + (s[1..d] + s[d + 1..]);
          ([s[0]] + s[1..d]) + s[d + 1..];
          { assert [s[0]] + s[1..d] == s[..d]; }
          s[..d] + s[d + 1..];
        }
      } else {
        assert WithoutIndexFrom(s, index, k) == [s[0]] + w;
        assert w == tail;
        assert [s[0]] + tail == s;
      }
    }
  }

  /** Deleting position `index` keeps every other entry, in order; an index outside the list changes nothing. */
  lemma DeleteKeepsOthers(s: seq<Entry>, index: int)
    ensures 0 <= index < |s| ==> WithoutIndex(s, index) == s[..index] + s[index + 1..]
    ensures !(0 <= index < |s|) ==> WithoutIndex(s, index) == s
    ensures 0 <= index < |s| ==> |WithoutIndex(s, index)| == |s| - 1
  {
    WithoutIndexFromRemoves(s, index, 0);
  }

  class HistoryPage {
    var history: seq<Entry>
    var stored: Stored
    var isLoading: bool
    var error: Option<string>

    /** Every entry on display passed the loader's test. */
    ghost predicate Valid()
      reads this
    {
      AllValid(history)
    }

    /** The page as first rendered, over whatever storage holds. */
    constructor (slot: Stored)
      ensures Valid()
      ensures history == [] && stored == slot && isLoading && error == None
    {
      history := [];
      stored := slot;
      isLoading := true;
      error := None;
    }

    /** The mount effect. */
    method Load()
      requires Valid()
      modifies this
      ensures Valid() && !isLoading
      ensures old(stored).Absent? ==> history == old(history) && stored == Absent && error == old(error)
      ensures old(stored).Array? ==>
                history == ValidEntries(old(stored).items) && stored == old(stored) && error == old(error)
      ensures old(stored).NotArray? ==> history == old(history) && stored == Absent && error == old(error)
      ensures old(stored).Unparseable? ==>
                history == old(history) && stored == Absent && error == Some(LoadErrorMessage)
    {
      match stored {
        case Absent =>
        case Array(items) =>
          history := ValidEntries(items);
        case NotArray =>
          stored := Absent;
        case Unparseable =>
          error := Some(LoadErrorMessage);
          stored := Absent;
      }
      isLoading := false;
    }

    /** The "Clear All" button; `confirmed` is the user's answer to `window.confirm`. */
    method ClearHistory(confirmed: bool)
      requires Valid()
      modifies this
      ensures Valid()
      ensures confirmed ==> history == [] && stored == Absent
      ensures !confirmed ==> history == old(history) && stored == old(stored)
      ensures isLoading == old(isLoading) && error == old(error)
    {
      if confirmed {
        history := [];
        stored := Absent;
      }
    }

    /** The "Delete" button of entry `index`: the shortened list is shown and written back. */
    method DeleteEntry(index: int)
      requires Valid()
      modifies this
      ensures Valid()
      ensures history == WithoutIndex(old(history), index)
      ensures stored == Array(history)
      ensures isLoading == old(isLoading) && error == old(error)
    {
      DeleteKeepsOthers(history, index);
      history := WithoutIndex(history, index);
      stored := Array(history);
    }
  }

  /** What `DeleteEntry` writes is read back by the loader as exactly the list that was shown. */
  lemma ReloadAfterDelete(shown: seq<Entry>, index: int)
    requires AllValid(shown)
    ensures AllValid(WithoutIndex(shown, index))
    ensures ValidEntries(WithoutIndex(shown, index)) == WithoutIndex(shown, index)
  {
    DeleteKeepsOthers(shown, index);
    var r := WithoutIndex(shown, index);
    assert AllValid(r) by {
      forall i | 0 <= i < |r| ensures IsValidEntry(r[i]) {
        if 0 <= index < |shown| {
          if i < index { assert r[i] == shown[i]; } else { assert r[i] == shown[i + 1]; }
        }
      }
    }
    ValidEntriesFixedPoint(r);
  }
}
