/**
 * Key/value entry sequences and the maps built from them.
 *
 * A TOML table is an ordered sequence of entries (the iteration order of the
 * toml crate's map); a Liquid object and a rendering context are maps filled
 * one entry at a time, where inserting a key that is already bound replaces
 * its value.
 */
module Tables {

  /** The set of keys that an entry sequence binds. */
  function KeysOf<V>(entries: seq<(string, V)>): set<string>
  {
    set i | 0 <= i < |entries| :: entries[i].0
  }

  /** No key occurs twice (a table's own invariant). */
  predicate DistinctKeys<V>(entries: seq<(string, V)>)
  {
    forall i, j :: 0 <= i < j < |entries| ==> entries[i].0 != entries[j].0
  }

  /** Entry `i` is the last one in `entries` that binds its key. */
  predicate LastFor<V>(entries: seq<(string, V)>, i: int)
    requires 0 <= i < |entries|
  {
    forall j :: i < j < |entries| ==> entries[j].0 != entries[i].0
  }

  /**
   * The map obtained by inserting the entries in order into an empty map,
   * as `collect()` into a hash map and repeated `set_val` calls do: it binds
   * exactly the keys of the entries.
   */
  function Collect<V>(entries: seq<(string, V)>): (m: map<string, V>)
    ensures m.Keys == KeysOf(entries)
    decreases |entries|
  {
    if entries == [] then map[]
    else
      var n := |entries| - 1;
      assert KeysOf(entries) == KeysOf(entries[..n]) + {entries[n].0} by {
        assert entries == entries[..n] + [entries[n]];
      }
      Collect(entries[..n])[entries[n].0 := entries[n].1]
  }

  /** The entries with `f` applied to every value, keys and order kept. */
  function MapValues<V, W>(entries: seq<(string, V)>, f: V -> W): seq<(string, W)>
  {
    seq(|entries|, i requires 0 <= i < |entries| => (entries[i].0, f(entries[i].1)))
  }

  /** Inserting one more entry into what a prefix collected. */
  lemma CollectSnoc<V>(entries: seq<(string, V)>, i: nat)
    requires i < |entries|
    ensures Collect(entries[..i + 1]) == Collect(entries[..i])[entries[i].0 := entries[i].1]
  {
    assert entries[..i + 1][..i] == entries[..i];
  }

  /** Last write wins: the key of the last entry that binds it maps to that entry's value. */
  lemma {:induction false} CollectLastWins<V>(entries: seq<(string, V)>, i: int)
    requires 0 <= i < |entries| && LastFor(entries, i)
    ensures entries[i].0 in Collect(entries)
    ensures Collect(entries)[entries[i].0] == entries[i].1
  {
    var n := |entries| - 1;
    if i < n {
      var prefix := entries[..n];
      assert LastFor(prefix, i) by {
        forall j | i < j < |prefix| ensures prefix[j].0 != prefix[i].0 {
          assert prefix[j] == entries[j];
        }
      }
      CollectLastWins(prefix, i);
      assert entries[n].0 != entries[i].0;
    }
  }

  /** With distinct keys every entry is found in the collected map. */
  lemma CollectDistinct<V>(entries: seq<(string, V)>)
    requires DistinctKeys(entries)
    ensures forall i :: 0 <= i < |entries| ==> entries[i].0 in Collect(entries) && Collect(entries)[entries[i].0] == entries[i].1
  {
    forall i | 0 <= i < |entries|
      ensures entries[i].0 in Collect(entries) && Collect(entries)[entries[i].0] == entries[i].1
    {
      CollectLastWins(entries, i);
    }
  }

  /** Mapping the values first and collecting afterwards is collecting and then mapping the bound values. */
  lemma {:induction false} CollectMapValues<V, W>(entries: seq<(string, V)>, f: V -> W)
    ensures Collect(MapValues(entries, f)) == map k | k in Collect(entries) :: f(Collect(entries)[k])
    decreases |entries|
  {
    if entries != [] {
      var n := |entries| - 1;
      assert MapValues(entries, f)[..n] == MapValues(entries[..n], f);
      CollectMapValues(entries[..n], f);
    }
  }

  /**
   * One step of a path into a nested value: an array position or a table key,
   * as in the Liquid expression `servers[0].name`.
   */
  datatype Selector = Index(index: nat) | Key(key: string)
}
