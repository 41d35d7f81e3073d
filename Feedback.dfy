/**
 * The feedback ledger (agents/feedback.py, and the copy of `save_feedback`
 * and `append_feedback` in tools/feedback_review.py): a JSON file holding the
 * list of review decisions, to which entries are only ever appended by
 * loading the list, appending one entry and writing the list back.
 *
 * The file is modelled by the JSON value it holds; writing a value and
 * reading it back gives the same value.
 */
module Feedback {
  import opened JsonValues

  /** The ledger file: missing, not valid JSON, or holding a JSON value. */
  datatype FileState = Absent | Unparsable | Stored(content: Json)

  /** `load_feedback()`: the stored value; [] when the file is missing or unparsable. */
  function LoadOf(f: FileState): Json {
    if f.Stored? then f.content else JArr([])
  }

  /**
   * The file after `append_feedback(entry)`: the loaded list with the entry
   * last. When the file holds a JSON value that is not a list, `append`
   * raises and the file is left as it was.
   */
  function AppendedFile(f: FileState, entry: Json): FileState {
    var entries := LoadOf(f);
    if entries.JArr? then Stored(JArr(entries.items + [entry])) else f
  }

  /** The file after appending the entries one by one, in order. */
  function AppendedAll(f: FileState, entries: seq<Json>): FileState
    decreases |entries|
  {
    if entries == [] then f
    else AppendedFile(AppendedAll(f, entries[..|entries| - 1]), entries[|entries| - 1])
  }

  class Ledger {
    var file: FileState

    constructor (f: FileState)
      ensures file == f
    {
      file := f;
    }

    function Load(): Json
      reads this
    {
      LoadOf(file)
    }

    /** The ledger holds a list of entries (or nothing yet), so an append can succeed. */
    predicate Valid()
      reads this
    {
      Load().JArr?
    }

    function Entries(): seq<Json>
      reads this
      requires Valid()
    {
      Load().items
    }

    /** `save_feedback(entries)`: the file now holds exactly this list. */
    method Save(entries: seq<Json>)
      modifies this
      ensures file == Stored(JArr(entries))
      ensures Valid() && Entries() == entries
    {
      file := Stored(JArr(entries));
    }

    /**
     * `append_feedback(entry)`: the entry goes last and the earlier entries
     * are kept in order. When the file holds a JSON value that is not a list,
     * `entries.append` raises and nothing is written: `ok` is false then.
     */
    method Append(entry: Json) returns (ok: bool)
      modifies this
      ensures ok <==> old(Valid())
      ensures ok ==> Valid() && Entries() == old(Entries()) + [entry]
      ensures ok ==> |Entries()| == |old(Entries())| + 1
      ensures !ok ==> file == old(file)
      ensures file == AppendedFile(old(file), entry)
    {
      var entries := Load();
      if !entries.JArr? {
        return false;
      }
      Save(entries.items + [entry]);
      ok := true;
    }
  }

  /**
   * A missing or unreadable ledger is read as empty, so the first append
   * overwrites it with a list holding only the new entry: whatever the
   * unreadable file held is lost.
   */
  lemma UnreadableOverwritten(f: FileState, entry: Json)
    requires !f.Stored?
    ensures AppendedFile(f, entry) == Stored(JArr([entry]))
    ensures LoadOf(AppendedFile(f, entry)) == JArr([entry])
  {
    assert LoadOf(f).items + [entry] == [entry];
  }

  /**
   * Appending entries one by one to a ledger that loads as a list gives that
   * list followed by exactly those entries, in order; from a missing or
   * unreadable file, exactly the appended entries.
   */
  lemma {:induction false} AppendsInOrder(f: FileState, entries: seq<Json>)
    requires LoadOf(f).JArr?
    ensures entries != [] ==> AppendedAll(f, entries) == Stored(JArr(LoadOf(f).items + entries))
    ensures LoadOf(AppendedAll(f, entries)) == JArr(LoadOf(f).items + entries)
    ensures !f.Stored? ==> LoadOf(AppendedAll(f, entries)) == JArr(entries)
    decreases |entries|
  {
    if entries == [] {
      assert LoadOf(f).items + entries == LoadOf(f).items;
    } else {
      var init := entries[..|entries| - 1];
      AppendsInOrder(f, init);
      assert LoadOf(f).items + init + [entries[|entries| - 1]] == LoadOf(f).items + entries;
    }
  }

  /** A ledger holding a JSON value that is not a list refuses every append and never changes. */
  lemma {:induction false} NonListBlocks(f: FileState, entries: seq<Json>)
    requires f.Stored? && !f.content.JArr?
    ensures AppendedAll(f, entries) == f
    decreases |entries|
  {
    if entries != [] {
      NonListBlocks(f, entries[..|entries| - 1]);
    }
  }
}
