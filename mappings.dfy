/**
 * The persisted read and write mapping tables (src/conf/Mappings.cpp):
 * loading them into the event router, and the de-duplicating append and the
 * remove-first-match that keep them in step with the router.
 */
module Mappings {
  import opened ConfigurationTypedef
  import opened ConfigurationStore
  import opened SeqLemmas

  predicate HasRawName(ms: seq<ConfigurationMapping>, rawName: string)
  {
    exists i :: 0 <= i < |ms| && ms[i].rawName == rawName
  }

  predicate UniqueRawNames(ms: seq<ConfigurationMapping>)
  {
    forall i, j :: 0 <= i < j < |ms| ==> ms[i].rawName != ms[j].rawName
  }

  /** A persisted entry is loaded only when both of its names are set. */
  predicate Loadable(m: ConfigurationMapping)
  {
    m.rawName != "" && m.simName != ""
  }

  function LoadReadCalls(m: ConfigurationMapping): seq<Call>
  {
    if Loadable(m) then [RegisterRead(m.rawName, m.simName, m.dataType)] else []
  }

  function LoadWriteCalls(m: ConfigurationMapping): seq<Call>
  {
    if Loadable(m) then [RegisterWrite(m.rawName, m.simName, m.parameter)] else []
  }

  function LoadAllReads(ms: seq<ConfigurationMapping>): seq<Call>
    decreases |ms|
  {
    if ms == [] then [] else LoadAllReads(ms[..|ms| - 1]) + LoadReadCalls(ms[|ms| - 1])
  }

  function LoadAllWrites(ms: seq<ConfigurationMapping>): seq<Call>
    decreases |ms|
  {
    if ms == [] then [] else LoadAllWrites(ms[..|ms| - 1]) + LoadWriteCalls(ms[|ms| - 1])
  }

  lemma LoadAllReadsStep(ms: seq<ConfigurationMapping>, i: nat)
    requires i < |ms|
    ensures LoadAllReads(ms[..i + 1]) == LoadAllReads(ms[..i]) + LoadReadCalls(ms[i])
  {
    assert ms[..i + 1][..i] == ms[..i];
  }

  lemma LoadAllWritesStep(ms: seq<ConfigurationMapping>, i: nat)
    requires i < |ms|
    ensures LoadAllWrites(ms[..i + 1]) == LoadAllWrites(ms[..i]) + LoadWriteCalls(ms[i])
  {
    assert ms[..i + 1][..i] == ms[..i];
  }

  /** The table after a de-duplicating append: unchanged when the raw name is taken. */
  function WithMapping(ms: seq<ConfigurationMapping>, entry: ConfigurationMapping): seq<ConfigurationMapping>
  {
    if HasRawName(ms, entry.rawName) then ms else ms + [entry]
  }

  /** The table without its first entry of that raw name. */
  function RemoveFirst(ms: seq<ConfigurationMapping>, rawName: string): seq<ConfigurationMapping>
    decreases |ms|
  {
    if ms == [] then []
    else if ms[0].rawName == rawName then ms[1..]
    else [ms[0]] + RemoveFirst(ms[1..], rawName)
  }

  /** A table of fully named entries is loaded one registration per entry, in table order. */
  lemma {:induction false} LoadAllReadsLoadable(ms: seq<ConfigurationMapping>)
    requires forall i :: 0 <= i < |ms| ==> Loadable(ms[i])
    ensures LoadAllReads(ms) == seq(|ms|, i requires 0 <= i < |ms| => RegisterRead(ms[i].rawName, ms[i].simName, ms[i].dataType))
    decreases |ms|
  {
    if ms != [] {
      LoadAllReadsLoadable(ms[..|ms| - 1]);
    }
  }

  lemma {:induction false} LoadAllWritesLoadable(ms: seq<ConfigurationMapping>)
    requires forall i :: 0 <= i < |ms| ==> Loadable(ms[i])
    ensures LoadAllWrites(ms) == seq(|ms|, i requires 0 <= i < |ms| => RegisterWrite(ms[i].rawName, ms[i].simName, ms[i].parameter))
    decreases |ms|
  {
    if ms != [] {
      LoadAllWritesLoadable(ms[..|ms| - 1]);
    }
  }

  /** Removal takes out exactly the first match and keeps everything else in order. */
  lemma {:induction false} RemoveFirstAt(ms: seq<ConfigurationMapping>, rawName: string, q: nat)
    requires q < |ms| && ms[q].rawName == rawName
    requires forall j :: 0 <= j < q ==> ms[j].rawName != rawName
    ensures RemoveFirst(ms, rawName) == ms[..q] + ms[q + 1..]
    decreases q
  {
    if q > 0 {
      RemoveFirstAt(ms[1..], rawName, q - 1);
      assert ms[1..][..q - 1] == ms[1..q];
      assert ms[1..][q..] == ms[q + 1..];
      assert [ms[0]] + ms[1..q] == ms[..q];
    }
  }

  /** Without a match, removal changes nothing. */
  lemma {:induction false} RemoveFirstNoMatch(ms: seq<ConfigurationMapping>, rawName: string)
    requires !HasRawName(ms, rawName)
    ensures RemoveFirst(ms, rawName) == ms
    decreases |ms|
  {
    if ms != [] {
      assert ms[0].rawName != rawName;
      assert forall i :: 0 <= i < |ms[1..]| ==> ms[1..][i] == ms[i + 1];
      RemoveFirstNoMatch(ms[1..], rawName);
      assert [ms[0]] + ms[1..] == ms;
    }
  }

  /** A second append of the same raw name changes nothing. */
  lemma WithMappingIdempotent(ms: seq<ConfigurationMapping>, entry: ConfigurationMapping, again: ConfigurationMapping)
    requires again.rawName == entry.rawName
    ensures WithMapping(WithMapping(ms, entry), again) == WithMapping(ms, entry)
  {
    if !HasRawName(ms, entry.rawName) {
      var added := ms + [entry];
      assert added[|ms|].rawName == entry.rawName;
    }
  }

  /** Appends keep raw names unique. */
  lemma WithMappingUnique(ms: seq<ConfigurationMapping>, entry: ConfigurationMapping)
    requires UniqueRawNames(ms)
    ensures UniqueRawNames(WithMapping(ms, entry))
    ensures HasRawName(WithMapping(ms, entry), entry.rawName)
  {
    if !HasRawName(ms, entry.rawName) {
      var added := ms + [entry];
      assert added[|ms|].rawName == entry.rawName;
      forall i, j | 0 <= i < j < |added|
        ensures added[i].rawName != added[j].rawName
      {
        if j == |ms| {
          assert added[i] == ms[i];
        }
      }
    }
  }

  /** Removing a freshly appended entry restores the table. */
  lemma RemoveUndoesAppend(ms: seq<ConfigurationMapping>, entry: ConfigurationMapping)
    requires !HasRawName(ms, entry.rawName)
    ensures RemoveFirst(WithMapping(ms, entry), entry.rawName) == ms
  {
    var added := ms + [entry];
    RemoveFirstAt(added, entry.rawName, |ms|);
    assert added[..|ms|] == ms;
  }

  /** In a table with unique raw names, one removal leaves no entry of that name. */
  lemma {:induction false} RemoveFirstUnique(ms: seq<ConfigurationMapping>, rawName: string)
    requires UniqueRawNames(ms)
    ensures !HasRawName(RemoveFirst(ms, rawName), rawName)
    ensures UniqueRawNames(RemoveFirst(ms, rawName))
    decreases |ms|
  {
    if ms != [] {
      var tail := ms[1..];
      assert UniqueRawNames(tail) by {
        forall i, j | 0 <= i < j < |tail| ensures tail[i].rawName != tail[j].rawName {
          assert tail[i] == ms[i + 1] && tail[j] == ms[j + 1];
        }
      }
      if ms[0].rawName == rawName {
        forall i | 0 <= i < |tail| ensures tail[i].rawName != rawName {
          assert tail[i] == ms[i + 1];
        }
      } else {
        RemoveFirstUnique(tail, rawName);
        var rest := RemoveFirst(tail, rawName);
        var r := [ms[0]] + rest;
        forall i | 0 <= i < |r| ensures r[i].rawName != rawName {
          if i > 0 {
            assert r[i] == rest[i - 1];
          }
        }
        forall i, j | 0 <= i < j < |r| ensures r[i].rawName != r[j].rawName {
          if i == 0 {
            assert r[j] in rest;
            RemoveFirstSubset(tail, rawName, r[j]);
            var k :| 0 <= k < |tail| && tail[k] == r[j];
            assert ms[k + 1] == r[j];
          } else {
            assert r[i] == rest[i - 1] && r[j] == rest[j - 1];
          }
        }
      }
    }
  }

  lemma {:induction false} RemoveFirstSubset(ms: seq<ConfigurationMapping>, rawName: string, m: ConfigurationMapping)
    requires m in RemoveFirst(ms, rawName)
    ensures exists k :: 0 <= k < |ms| && ms[k] == m
    decreases |ms|
  {
    if ms[0].rawName == rawName {
      var k :| 0 <= k < |ms[1..]| && ms[1..][k] == m;
      assert ms[k + 1] == m;
    } else if m != ms[0] {
      assert m in RemoveFirst(ms[1..], rawName);
      RemoveFirstSubset(ms[1..], rawName, m);
      var k :| 0 <= k < |ms[1..]| && ms[1..][k] == m;
      assert ms[k + 1] == m;
    } else {
      assert ms[0] == m;
    }
  }

  /** Register one persisted read mapping with the event router, if both its names are set. */
  method LoadReadMapping(store: Store, m: ConfigurationMapping)
    modifies store`trace
    ensures store.trace == old(store.trace) + LoadReadCalls(m)
  {
    if m.rawName == "" {
      return;
    }
    if m.simName == "" {
      return;
    }
    store.trace := store.trace + [RegisterRead(m.rawName, m.simName, m.dataType)];
  }

  method LoadWriteMapping(store: Store, m: ConfigurationMapping)
    modifies store`trace
    ensures store.trace == old(store.trace) + LoadWriteCalls(m)
  {
    if m.rawName == "" {
      return;
    }
    if m.simName == "" {
      return;
    }
    store.trace := store.trace + [RegisterWrite(m.rawName, m.simName, m.parameter)];
  }

  /** Load every read mapping in table order, then every write mapping. */
  method LoadMappings(store: Store)
    modifies store`trace
    ensures store.trace == old(store.trace) + LoadAllReads(store.current.mappings.read) + LoadAllWrites(store.current.mappings.write)
  {
    var read := store.current.mappings.read;
    var write := store.current.mappings.write;
    if read == [] && write == [] {
      return;
    }
    ghost var start := store.trace;
    var i := 0;
    while i < |read|
      invariant 0 <= i <= |read|
      invariant store.trace == start + LoadAllReads(read[..i])
    {
      LoadAllReadsStep(read, i);
      AppendAssoc(start, LoadAllReads(read[..i]), LoadReadCalls(read[i]));
      LoadReadMapping(store, read[i]);
      i := i + 1;
    }
    assert read[..i] == read;
    ghost var afterReads := store.trace;
    i := 0;
    while i < |write|
      invariant 0 <= i <= |write|
      invariant store.trace == afterReads + LoadAllWrites(write[..i])
    {
      LoadAllWritesStep(write, i);
      AppendAssoc(afterReads, LoadAllWrites(write[..i]), LoadWriteCalls(write[i]));
      LoadWriteMapping(store, write[i]);
      i := i + 1;
    }
    assert write[..i] == write;
  }

  /** Append a read mapping (names only) unless its raw name is already persisted; save when appended. */
  method SaveNewReadMapping(store: Store, rawName: string, simName: string)
    modifies store
    ensures store.current == old(store.current).(mappings := old(store.current).mappings.(
      read := WithMapping(old(store.current).mappings.read, ConfigurationMapping(rawName, simName, "", ""))))
    ensures store.trace == old(store.trace) +
      (if HasRawName(old(store.current).mappings.read, rawName) then [] else [SaveFile(ConfigurationToJson(store.current))])
  {
    var read := store.current.mappings.read;
    var i := 0;
    while i < |read|
      invariant 0 <= i <= |read|
      invariant forall j :: 0 <= j < i ==> read[j].rawName != rawName
    {
      if read[i].rawName == rawName {
        return;
      }
      i := i + 1;
    }
    var m := ConfigurationMapping(rawName, simName, "", "");
    store.current := store.current.(mappings := store.current.mappings.(read := read + [m]));
    store.SaveConfiguration();
  }

  /** Append a write mapping with its parameter unless its raw name is already persisted; save when appended. */
  method SaveNewWriteMapping(store: Store, rawName: string, simName: string, parameter: string)
    modifies store
    ensures store.current == old(store.current).(mappings := old(store.current).mappings.(
      write := WithMapping(old(store.current).mappings.write, ConfigurationMapping(rawName, simName, parameter, ""))))
    ensures store.trace == old(store.trace) +
      (if HasRawName(old(store.current).mappings.write, rawName) then [] else [SaveFile(ConfigurationToJson(store.current))])
  {
    var write := store.current.mappings.write;
    var i := 0;
    while i < |write|
      invariant 0 <= i <= |write|
      invariant forall j :: 0 <= j < i ==> write[j].rawName != rawName
    {
      if write[i].rawName == rawName {
        return;
      }
      i := i + 1;
    }
    var m := ConfigurationMapping(rawName, simName, parameter, "");
    store.current := store.current.(mappings := store.current.mappings.(write := write + [m]));
    store.SaveConfiguration();
  }

  /** Erase the first read mapping of that raw name and save; with no match nothing changes. */
  method RemoveReadMapping(store: Store, rawName: string)
    modifies store
    ensures store.current == old(store.current).(mappings := old(store.current).mappings.(
      read := RemoveFirst(old(store.current).mappings.read, rawName)))
    ensures store.trace == old(store.trace) +
      (if HasRawName(old(store.current).mappings.read, rawName) then [SaveFile(ConfigurationToJson(store.current))] else [])
  {
    var read := store.current.mappings.read;
    var i := 0;
    while i < |read|
      invariant 0 <= i <= |read|
      invariant forall j :: 0 <= j < i ==> read[j].rawName != rawName
    {
      if read[i].rawName == rawName {
        RemoveFirstAt(read, rawName, i);
        store.current := store.current.(mappings := store.current.mappings.(read := read[..i] + read[i + 1..]));
        store.SaveConfiguration();
        return;
      }
      i := i + 1;
    }
    RemoveFirstNoMatch(read, rawName);
  }

  /** Erase the first write mapping of that raw name and save; with no match nothing changes. */
  method RemoveWriteMapping(store: Store, rawName: string)
    modifies store
    ensures store.current == old(store.current).(mappings := old(store.current).mappings.(
      write := RemoveFirst(old(store.current).mappings.write, rawName)))
    ensures store.trace == old(store.trace) +
      (if HasRawName(old(store.current).mappings.write, rawName) then [SaveFile(ConfigurationToJson(store.current))] else [])
  {
    var write := store.current.mappings.write;
    var i := 0;
    while i < |write|
      invariant 0 <= i <= |write|
      invariant forall j :: 0 <= j < i ==> write[j].rawName != rawName
    {
      if write[i].rawName == rawName {
        RemoveFirstAt(write, rawName, i);
        store.current := store.current.(mappings := store.current.mappings.(write := write[..i] + write[i + 1..]));
        store.SaveConfiguration();
        return;
      }
      i := i + 1;
    }
    RemoveFirstNoMatch(write, rawName);
  }
}
