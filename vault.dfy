/** The prompt vault: a file holding a JSON list of saved prompts, newest
    first. Loading degrades to the empty list; saving reads the list, puts
    the new entry in front and writes the whole list back. */
module Vault {

  /** One saved prompt: when it was saved, its text, the domain label it was
      built for, and a score. */
  datatype Entry = Entry(timestamp: string, prompt: string, tags: string, score: string)

  /** The vault file as the loader finds it: not there, not a readable JSON
      list, or a list of entries. */
  datatype Store = Absent | Unparsable | Saved(entries: seq<Entry>)

  /** The score an entry gets when the caller gives none. */
  const DefaultScore := "N/A"

  /** The list the loader returns: the stored entries, or the empty list for
      a missing or unreadable file. */
  function LoadVault(store: Store): (r: seq<Entry>)
    ensures store.Saved? ==> r == store.entries
    ensures store.Absent? || store.Unparsable? ==> r == []
  {
    match store
    case Saved(entries) => entries
    case _ => []
  }

  /** The file after saving `entry`: the loaded list with `entry` in front. */
  function AfterSave(store: Store, entry: Entry): (r: Store)
    ensures r.Saved? && |r.entries| == |LoadVault(store)| + 1
    ensures r.entries[0] == entry && r.entries[1..] == LoadVault(store)
  {
    Saved([entry] + LoadVault(store))
  }

  /** The file after saving `entries` one after another, first to last. */
  function AfterSaves(store: Store, entries: seq<Entry>): Store
    decreases |entries|
  {
    if entries == [] then store else AfterSaves(AfterSave(store, entries[0]), entries[1..])
  }

  /** `s` from last to first. */
  function Reversed(s: seq<Entry>): (r: seq<Entry>)
    ensures |r| == |s|
  {
    if s == [] then [] else Reversed(s[1..]) + [s[0]]
  }

  /** Saving is most-recent-first: after a run of saves the file lists them
      newest first, followed by what it listed before. */
  lemma {:induction false} SavesNewestFirst(store: Store, entries: seq<Entry>)
    ensures LoadVault(AfterSaves(store, entries)) == Reversed(entries) + LoadVault(store)
    decreases |entries|
  {
    if entries != [] {
      var next := AfterSave(store, entries[0]);
      SavesNewestFirst(next, entries[1..]);
      calc {
        LoadVault(AfterSaves(store, entries));
        LoadVault(AfterSaves(next, entries[1..]));
        Reversed(entries[1..]) + LoadVault(next);
        Reversed(entries[1..]) + ([entries[0]] + LoadVault(store));
        (Reversed(entries[1..]) + [entries[0]]) + LoadVault(store);
        Reversed(entries) + LoadVault(store);
      }
    }
  }

  /** Saving E1 and then E2 lists E2 before E1. */
  lemma SaveTwice(store: Store, e1: Entry, e2: Entry)
    ensures LoadVault(AfterSaves(store, [e1, e2])) == [e2, e1] + LoadVault(store)
  {
    SavesNewestFirst(store, [e1, e2]);
    assert [e1, e2][1..] == [e2];
    assert Reversed([e1, e2]) == [e2, e1] by {
      assert Reversed([e2]) == [e2];
    }
  }

  /** The vault file. */
  class VaultFile {
    var store: Store

    constructor (initial: Store)
      ensures store == initial
    {
      store := initial;
    }

    /** Reads the file: its list, or the empty list when it is missing or
        unreadable. */
    method Load() returns (vault: seq<Entry>)
      ensures vault == LoadVault(store)
    {
      match store {
        case Saved(entries) => vault := entries;
        case Absent => vault := [];
        case Unparsable => vault := [];
      }
    }

    /** Saves a prompt with its timestamp and tags: loads the list, inserts
        the new entry at index 0 and writes the list back; returns the new
        list. */
    method Save(prompt: string, tags: string, timestamp: string, score: string := DefaultScore)
      returns (vault: seq<Entry>)
      modifies this
      ensures vault == [Entry(timestamp, prompt, tags, score)] + LoadVault(old(store))
      ensures store == AfterSave(old(store), Entry(timestamp, prompt, tags, score))
      ensures LoadVault(store) == vault
    {
      var entry := Entry(timestamp, prompt, tags, score);
      vault := Load();
      vault := [entry] + vault;
      store := Saved(vault);
    }
  }
}
