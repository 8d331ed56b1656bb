// The string table: `store` on the worker interns a string and returns its
// id; `Strings.get` on the main thread maps the id back. Both sides hold the
// same append-only list of strings, so a table is modelled by that list.
module Strings {
  import opened Wire

  /** The table after `store(s)`: unchanged if `s` is known, else `s` appended. */
  function Intern(table: seq<string>, s: string): (t: seq<string>)
    ensures table <= t && s in t
    ensures s in table ==> t == table
    ensures s !in table ==> |t| == |table| + 1
  {
    if s in table then table else table + [s]
  }

  /** The id of `s`: a position of the table that holds it (its only one, in a table without repeats). */
  function IndexOf(table: seq<string>, s: string): (id: nat)
    requires s in table
    ensures id < |table| && table[id] == s
  {
    if table[0] == s then 0 else 1 + IndexOf(table[1..], s)
  }

  /** In a table without repeats, the id of the string stored at `i` is `i`. */
  lemma {:induction false} IndexOfDistinct(table: seq<string>, i: nat)
    requires Distinct(table) && i < |table|
    ensures IndexOf(table, table[i]) == i
  {
    if i > 0 {
      assert table[0] != table[i];
      assert table[1..][i - 1] == table[i];
      IndexOfDistinct(table[1..], i - 1);
    }
  }

  /** `Strings.get`: a string exactly for the ids handed out so far, and then the one stored under `id`. */
  function Lookup(table: seq<string>, id: int): (r: Option<string>)
    ensures r.Some? <==> 0 <= id < |table|
    ensures r.Some? ==> r.value == table[id]
  {
    if 0 <= id < |table| then Some(table[id]) else None
  }

  /** Ids never change meaning: a table that grew by appending gives every old string its old id. */
  lemma {:induction false} IndexOfStable(table: seq<string>, longer: seq<string>, s: string)
    requires table <= longer && s in table
    ensures IndexOf(longer, s) == IndexOf(table, s)
  {
    if table[0] != s {
      assert longer[0] == table[0];
      IndexOfStable(table[1..], longer[1..], s);
    }
  }

  /** Storing then looking up yields the stored string, also on any later, longer copy of the table. */
  lemma {:induction false} StoreThenLookup(table: seq<string>, s: string, later: seq<string>)
    requires Intern(table, s) <= later
    ensures Lookup(later, IndexOf(Intern(table, s), s)) == Some(s)
    ensures IndexOf(later, s) == IndexOf(Intern(table, s), s)
  {
    IndexOfStable(Intern(table, s), later, s);
  }

  /** Storing a string twice changes nothing the second time and gives the same id. */
  lemma {:induction false} StoreIdempotent(table: seq<string>, s: string)
    ensures Intern(Intern(table, s), s) == Intern(table, s)
    ensures IndexOf(Intern(Intern(table, s), s), s) == IndexOf(Intern(table, s), s)
  {
  }

  predicate Distinct(table: seq<string>) {
    forall i, j :: 0 <= i < j < |table| ==> table[i] != table[j]
  }

  /** The worker's interning table: `ids` answers `store` for known strings, `entries` is what the main thread sees. */
  class StringTable {
    var entries: seq<string>
    var ids: map<string, nat>

    ghost predicate Valid()
      reads this
    {
      && (forall s :: s in ids ==> ids[s] < |entries| && entries[ids[s]] == s)
      && (forall i :: 0 <= i < |entries| ==> entries[i] in ids && ids[entries[i]] == i)
    }

    constructor ()
      ensures Valid() && entries == []
    {
      entries := [];
      ids := map[];
    }

    lemma {:induction false} ValidDistinct()
      requires Valid()
      ensures Distinct(entries)
    {
    }

    /** `store(value)`: the existing id, or the next unused one. */
    method Store(value: string) returns (id: nat)
      requires Valid()
      modifies this
      ensures Valid()
      ensures entries == Intern(old(entries), value)
      ensures id == IndexOf(entries, value)
    {
      if value in ids {
        id := ids[value];
      } else {
        id := |entries|;
        entries := entries + [value];
        ids := ids[value := id];
      }
      ValidDistinct();
      IndexOfDistinct(entries, id);
    }
  }
}
