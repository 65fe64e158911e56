/**
 * What `load_all_programs` (bot.py:27-58) keeps from the data directory: the
 * directory listing is a sequence of file names, each with the outcome of
 * `json.load` on that file (`None` when it raised).
 */
module Loader {
  import opened Wrappers
  import opened PyStrings
  import opened PyJson

  const JsonSuffix: string := ".json"

  type Listing = seq<(string, Option<Json>)>

  /** `filename[:-5]` for a name that ends in ".json": the name without its extension. */
  function JsonKey(name: string): (k: string)
    requires EndsWith(name, JsonSuffix)
    ensures k + JsonSuffix == name
  {
    name[..|name| - 5]
  }

  lemma KeyRoundTrip(k: string)
    ensures EndsWith(k + JsonSuffix, JsonSuffix) && JsonKey(k + JsonSuffix) == k
  {
    assert (k + JsonSuffix)[|k|..] == JsonSuffix;
  }

  /** A listed file that contributes a program: a ".json" name whose content parsed. */
  predicate Loads(entry: (string, Option<Json>)) {
    EndsWith(entry.0, JsonSuffix) && entry.1.Some?
  }

  /** `PROGRAM_DATA` after the loop over `entries`. */
  function Loaded(entries: Listing): map<string, Json>
    decreases |entries|
  {
    if entries == [] then map[]
    else
      var last := entries[|entries| - 1];
      var before := Loaded(entries[..|entries| - 1]);
      if Loads(last) then before[JsonKey(last.0) := last.1.value] else before
  }

  /** `loaded_files` after the loop over `entries`. */
  function LoadedCount(entries: Listing): (n: nat)
    ensures n <= |entries|
    decreases |entries|
  {
    if entries == [] then 0
    else LoadedCount(entries[..|entries| - 1]) + (if Loads(entries[|entries| - 1]) then 1 else 0)
  }

  /** A key is present exactly when some ".json" file of that name parsed. */
  lemma {:induction false} LoadedKeys(entries: Listing, k: string)
    ensures k in Loaded(entries) <==>
              exists i :: 0 <= i < |entries| && Loads(entries[i]) && JsonKey(entries[i].0) == k
    decreases |entries|
  {
    if entries != [] {
      var n := |entries| - 1;
      LoadedKeys(entries[..n], k);
      assert forall i :: 0 <= i < n ==> entries[..n][i] == entries[i];
      if k in Loaded(entries[..n]) {
        var i :| 0 <= i < n && Loads(entries[..n][i]) && JsonKey(entries[..n][i].0) == k;
        assert Loads(entries[i]) && JsonKey(entries[i].0) == k;
      }
    }
  }

  /** File names in a directory are distinct. */
  predicate DistinctNames(entries: Listing) {
    forall i, j :: 0 <= i < j < |entries| ==> entries[i].0 != entries[j].0
  }

  /** With distinct names, each loaded file keeps its own content under its key. */
  lemma {:induction false} LoadedValue(entries: Listing, i: nat)
    requires DistinctNames(entries) && i < |entries| && Loads(entries[i])
    ensures JsonKey(entries[i].0) in Loaded(entries)
    ensures Loaded(entries)[JsonKey(entries[i].0)] == entries[i].1.value
    decreases |entries|
  {
    var n := |entries| - 1;
    if i < n {
      assert entries[..n][i] == entries[i];
      LoadedValue(entries[..n], i);
    }
  }

  /** With distinct names, the count of successful loads is the number of programs kept. */
  lemma {:induction false} CountIsSize(entries: Listing)
    requires DistinctNames(entries)
    ensures |Loaded(entries)| == LoadedCount(entries)
    decreases |entries|
  {
    if entries != [] {
      var n := |entries| - 1;
      var last := entries[n];
      assert DistinctNames(entries[..n]);
      CountIsSize(entries[..n]);
      if Loads(last) {
        var k := JsonKey(last.0);
        LoadedKeys(entries[..n], k);
      }
    }
  }

  /** A corrupt ".json" file and a file of another kind add nothing. */
  lemma {:induction false} SkippedFiles(good: Json)
    ensures var entries := [("itmo_ai_parsed.json", Some(good)), ("notes.txt", Some(good)), ("broken.json", None)];
            Loaded(entries) == map["itmo_ai_parsed" := good] && LoadedCount(entries) == 1
  {
    var entries := [("itmo_ai_parsed.json", Some(good)), ("notes.txt", Some(good)), ("broken.json", None)];
    KeyRoundTrip("itmo_ai_parsed");
    assert "itmo_ai_parsed" + JsonSuffix == "itmo_ai_parsed.json";
    assert !EndsWith("notes.txt", JsonSuffix) by {
      assert "notes.txt"[|"notes.txt"| - 5..] != JsonSuffix by {
        assert "notes.txt"[4] != JsonSuffix[0];
      }
    }
    assert entries[..1][..0] == [];
    assert Loaded(entries[..1]) == map["itmo_ai_parsed" := good];
    assert LoadedCount(entries[..1]) == 1;
    assert entries[..2][..1] == entries[..1];
    assert Loaded(entries[..2]) == Loaded(entries[..1]) && LoadedCount(entries[..2]) == 1;
    assert entries[..2] == entries[..|entries| - 1];
  }
}
