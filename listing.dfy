/**
 * `list_configs`: the `.json` files of the profiles directory as
 * (stem, path) records, sorted by stem.
 */
module Listing {
  import opened Text
  import opened Paths

  /** A listed profile: its file stem and its full path. */
  datatype ConfigFile = ConfigFile(name: string, path: string)

  function EntryFor(dir: string, fileName: string): ConfigFile {
    ConfigFile(FileStem(fileName), JoinPath(dir, fileName))
  }

  /**
   * The records of the `.json` names, in listing order: no more records than
   * names, and every kept record is the record of a `.json` name of the listing.
   */
  function JsonConfigs(dir: string, names: seq<string>): (r: seq<ConfigFile>)
    ensures |r| <= |names|
    ensures forall c :: c in r ==> exists k :: 0 <= k < |names| && IsJsonFile(names[k]) && c == EntryFor(dir, names[k])
  {
    if names == [] then []
    else
      var init, last := names[..|names| - 1], names[|names| - 1];
      var kept := JsonConfigs(dir, init);
      assert forall k :: 0 <= k < |init| ==> names[k] == init[k];
      kept + (if IsJsonFile(last) then [EntryFor(dir, last)] else [])
  }

  /** The positions of the listing that hold `.json` names. */
  ghost function JsonPositions(names: seq<string>): set<int> {
    set k | 0 <= k < |names| && IsJsonFile(names[k])
  }

  /** Adding a name to the end of the listing adds its position exactly when it is a `.json` name. */
  lemma JsonPositionsStep(names: seq<string>)
    requires names != []
    ensures var init, n := names[..|names| - 1], |names| - 1;
      |JsonPositions(names)| == |JsonPositions(init)| + (if IsJsonFile(names[n]) then 1 else 0)
  {
    var init, n := names[..|names| - 1], |names| - 1;
    var before, added := JsonPositions(init), if IsJsonFile(names[n]) then {n} else {};
    forall k
      ensures k in JsonPositions(names) <==> k in before + added
    {
      if 0 <= k < n {
        assert names[k] == init[k];
      }
    }
    assert JsonPositions(names) == before + added;
    assert before !! added;
  }

  /** Exactly one record per `.json` name: as many records as `.json` positions. */
  lemma {:induction false} JsonConfigsCount(dir: string, names: seq<string>)
    ensures |JsonConfigs(dir, names)| == |JsonPositions(names)|
  {
    if names == [] {
      assert JsonPositions(names) == {};
    } else {
      JsonConfigsCount(dir, names[..|names| - 1]);
      JsonPositionsStep(names);
    }
  }

  /** Every `.json` name of the listing gives a kept record. */
  lemma {:induction false} JsonConfigsComplete(dir: string, names: seq<string>, k: nat)
    requires k < |names| && IsJsonFile(names[k])
    ensures EntryFor(dir, names[k]) in JsonConfigs(dir, names)
  {
    var init := names[..|names| - 1];
    if k < |init| {
      assert init[k] == names[k];
      JsonConfigsComplete(dir, init, k);
    }
  }

  /**
   * Two `.json` files of one directory with the same stem are the same file,
   * so records that sort equal are equal and the order of the result does not
   * depend on the stability of the sort.
   */
  lemma SameStemSameEntry(dir: string, n1: string, n2: string)
    requires IsJsonFile(n1) && IsJsonFile(n2) && FileStem(n1) == FileStem(n2)
    ensures EntryFor(dir, n1) == EntryFor(dir, n2)
  {
    JsonFileIff(n1);
    JsonFileIff(n2);
    assert n1 == n1[..|n1| - 5] + ".json";
    assert n2 == n2[..|n2| - 5] + ".json";
  }

  predicate NameLe(a: ConfigFile, b: ConfigFile) {
    LexLe(a.name, b.name)
  }

  predicate SortedByName(s: seq<ConfigFile>) {
    forall i, j :: 0 <= i < j < |s| ==> NameLe(s[i], s[j])
  }

  /** Sorting the listed profiles by name: an insertion sort in place. */
  method SortByName(a: array<ConfigFile>)
    modifies a
    ensures SortedByName(a[..])
    ensures multiset(a[..]) == multiset(old(a[..]))
  {
    var i := 0;
    while i < a.Length
      invariant 0 <= i <= a.Length
      invariant SortedByName(a[..i])
      invariant multiset(a[..]) == multiset(old(a[..]))
    {
      InsertLast(a, i);
      i := i + 1;
    }
  }

  /**
   * Halfway through inserting the element at `j` into `s[..i+1]`: apart from
   * position j the prefix is sorted, and `s[j]` is not above anything after it.
   */
  ghost predicate Inserting(s: seq<ConfigFile>, i: nat, j: nat) {
    && j <= i < |s|
    && (forall k, l :: 0 <= k < l <= i && k != j && l != j ==> NameLe(s[k], s[l]))
    && (forall l :: j < l <= i ==> NameLe(s[j], s[l]))
  }

  /** Swapping a strictly greater left neighbour past the inserted element keeps `Inserting`. */
  lemma InsertingStep(s: seq<ConfigFile>, i: nat, j: nat)
    requires Inserting(s, i, j) && 0 < j && !NameLe(s[j - 1], s[j])
    ensures Inserting(s[j - 1 := s[j]][j := s[j - 1]], i, j - 1)
  {
    LexLeTotal(s[j].name, s[j - 1].name);
  }

  /** Once the left neighbour is not greater (or there is none), the prefix is sorted. */
  lemma InsertingDone(s: seq<ConfigFile>, i: nat, j: nat)
    requires Inserting(s, i, j) && (j == 0 || NameLe(s[j - 1], s[j]))
    ensures SortedByName(s[..i + 1])
  {
    forall k, l | 0 <= k < l <= i
      ensures NameLe(s[k], s[l])
    {
      if l == j && k < j - 1 {
        LexLeTransitive(s[k].name, s[j - 1].name, s[j].name);
      }
    }
  }

  /** Moves `a[i]` left past every strictly greater name, so that `a[..i+1]` is sorted. */
  method InsertLast(a: array<ConfigFile>, i: nat)
    requires i < a.Length && SortedByName(a[..i])
    modifies a
    ensures SortedByName(a[..i + 1])
    ensures multiset(a[..]) == multiset(old(a[..]))
  {
    var j: nat := i;
    while j > 0 && !NameLe(a[j - 1], a[j])
      invariant Inserting(a[..], i, j)
      invariant multiset(a[..]) == multiset(old(a[..]))
    {
      InsertingStep(a[..], i, j);
      a[j - 1], a[j] := a[j], a[j - 1];
      j := j - 1;
    }
    InsertingDone(a[..], i, j);
  }

  /**
   * `list_configs()` over the names the profiles directory lists, in
   * enumeration order: the `.json` files, sorted by stem.
   */
  method ListConfigs(dir: string, names: seq<string>) returns (configs: seq<ConfigFile>)
    ensures SortedByName(configs)
    ensures multiset(configs) == multiset(JsonConfigs(dir, names))
  {
    var found: seq<ConfigFile> := [];
    var i := 0;
    while i < |names|
      invariant 0 <= i <= |names|
      invariant found == JsonConfigs(dir, names[..i])
    {
      assert names[..i + 1][..i] == names[..i];
      if IsJsonFile(names[i]) {
        found := found + [EntryFor(dir, names[i])];
      }
      i := i + 1;
    }
    assert names[..|names|] == names;
    var a := new ConfigFile[|found|](k requires 0 <= k < |found| => found[k]);
    assert a[..] == found;
    SortByName(a);
    configs := a[..];
  }
}
