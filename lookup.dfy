/**
 * Reverse lookup, `get_current_config`: which profile file produced the live
 * `customModels`? There is no stored link; every `.json` file of the profiles
 * directory is converted again and compared with the live list, and the first
 * one (in directory order) that is equal wins.
 */
module Lookup {
  import opened Wrappers
  import opened Json
  import opened Paths
  import opened Normalize
  import opened Activation

  /** One directory entry: its file name and its parsed content (None: unreadable or not JSON). */
  datatype Candidate = Candidate(name: string, doc: Option<Json>)

  /** The parsed document of a profile file, if it reads and parses. */
  function DocOf(stored: Option<Stored>): Option<Json> {
    match stored
    case Some(Parsed(doc)) => Some(doc)
    case _ => None
  }

  /**
   * The profiles directory of a home, listed as `names` in enumeration order,
   * as the lookup sees it: each name with what reading and parsing that file
   * of the same file map yields.
   */
  function Candidates(home: string, files: map<string, Stored>, names: seq<string>): (r: seq<Candidate>)
    ensures |r| == |names|
    ensures forall i :: 0 <= i < |names| ==> r[i].name == names[i]
    ensures forall i :: 0 <= i < |names| ==>
      (r[i].doc.Some? <==> Read(files, JoinPath(ConfigsDir(home), names[i])).Some?
                           && Read(files, JoinPath(ConfigsDir(home), names[i])).value.Parsed?)
    ensures forall i :: 0 <= i < |names| && r[i].doc.Some? ==>
      Read(files, JoinPath(ConfigsDir(home), names[i])) == Some(Parsed(r[i].doc.value))
  {
    seq(|names|, i requires 0 <= i < |names| => Candidate(names[i], DocOf(Read(files, JoinPath(ConfigsDir(home), names[i])))))
  }

  /**
   * Writing a live file leaves the lookup's view of the profiles directory as
   * it was: directory entry names hold no '/', so no profile is the live file.
   */
  lemma WritingLiveFileKeepsCandidates(home: string, files: map<string, Stored>, names: seq<string>, f: LiveFile, doc: Json)
    requires forall i :: 0 <= i < |names| ==> |names[i]| > 0 && '/' !in names[i]
    ensures Candidates(home, files[LivePath(home, f) := Parsed(doc)], names) == Candidates(home, files, names)
  {
    var before, after := Candidates(home, files, names), Candidates(home, files[LivePath(home, f) := Parsed(doc)], names);
    forall i | 0 <= i < |names|
      ensures after[i] == before[i]
    {
      LiveFileIsNotAProfile(home, names[i], f);
    }
  }

  /** The live `customModels` list, if the live document parsed and holds an array there. */
  function LiveModels(live: Option<Json>): Option<seq<Json>> {
    if live.Some? && Get(live.value, "customModels").Some? && Get(live.value, "customModels").value.JArr?
    then Some(Get(live.value, "customModels").value.items)
    else None
  }

  /** A `.json` entry that reads, parses and converts to exactly the live list. */
  predicate Matches(c: Candidate, models: seq<Json>) {
    IsJsonFile(c.name) && c.doc.Some? && ConvertModels(c.doc.value) == JArr(models)
  }

  /** The position of the first `true` at or after `from`. */
  function FirstTrue(flags: seq<bool>, from: nat): (r: Option<nat>)
    requires from <= |flags|
    ensures r.Some? ==> from <= r.value < |flags| && flags[r.value]
    ensures r.Some? ==> forall j :: from <= j < r.value ==> !flags[j]
    ensures r.None? ==> forall j :: from <= j < |flags| ==> !flags[j]
    decreases |flags| - from
  {
    if from == |flags| then None
    else if flags[from] then Some(from)
    else FirstTrue(flags, from + 1)
  }

  /** The position of the first matching entry. */
  function FirstMatch(entries: seq<Candidate>, models: seq<Json>): (r: Option<nat>)
    ensures r.Some? ==> r.value < |entries| && Matches(entries[r.value], models)
    ensures r.Some? ==> forall j :: 0 <= j < r.value ==> !Matches(entries[j], models)
    ensures r.None? ==> forall j :: 0 <= j < |entries| ==> !Matches(entries[j], models)
  {
    var flags := seq(|entries|, j requires 0 <= j < |entries| => Matches(entries[j], models));
    assert forall j :: 0 <= j < |entries| ==> flags[j] == Matches(entries[j], models);
    FirstTrue(flags, 0)
  }

  /** The first match is at `i` when `i` matches and nothing before it does. */
  lemma FirstMatchAt(entries: seq<Candidate>, models: seq<Json>, i: nat)
    requires i < |entries| && Matches(entries[i], models)
    requires forall j :: 0 <= j < i ==> !Matches(entries[j], models)
    ensures FirstMatch(entries, models) == Some(i)
  {
  }

  /** The path `get_current_config` reports for a live document and a directory listing. */
  function Identify(live: Option<Json>, dir: string, entries: seq<Candidate>): Option<string> {
    var models := LiveModels(live);
    if models.None? then None
    else
      var k := FirstMatch(entries, models.value);
      if k.Some? then Some(JoinPath(dir, entries[k.value].name)) else None
  }

  /**
   * `get_current_config()` over the parsed live document and the profiles
   * directory listed in enumeration order; entries that are not `.json`, do not
   * read or do not parse are skipped.
   */
  method GetCurrentConfig(live: Option<Json>, dir: string, entries: seq<Candidate>) returns (r: Option<string>)
    ensures r == Identify(live, dir, entries)
  {
    if live.None? {
      return None;
    }
    var current := Get(live.value, "customModels");
    if current.None? || AsArray(current.value).None? {
      return None;
    }
    var currentModels := AsArray(current.value).value;
    var i := 0;
    while i < |entries|
      invariant 0 <= i <= |entries|
      invariant forall j :: 0 <= j < i ==> !Matches(entries[j], currentModels)
    {
      var entry := entries[i];
      if IsJsonFile(entry.name) {
        if entry.doc.Some? {
          var converted := ConvertModels(entry.doc.value);
          if AsArray(converted).Some? {
            if AsArray(converted).value == currentModels {
              assert Matches(entries[i], currentModels);
              FirstMatchAt(entries, currentModels, i);
              return Some(JoinPath(dir, entry.name));
            }
          }
        }
      }
      i := i + 1;
    }
    return None;
  }

  /**
   * What the lookup answers: nothing without a live `customModels` array;
   * otherwise the path of a matching entry with no matching entry before it,
   * and nothing exactly when no entry matches.
   */
  lemma IdentifyFirstMatch(live: Option<Json>, dir: string, entries: seq<Candidate>)
    ensures LiveModels(live).None? ==> Identify(live, dir, entries).None?
    ensures LiveModels(live).Some? ==>
      (Identify(live, dir, entries).None? <==> forall j :: 0 <= j < |entries| ==> !Matches(entries[j], LiveModels(live).value))
    ensures Identify(live, dir, entries).Some? ==>
      exists k :: 0 <= k < |entries| && Matches(entries[k], LiveModels(live).value)
                  && Identify(live, dir, entries) == Some(JoinPath(dir, entries[k].name))
                  && forall j :: 0 <= j < k ==> !Matches(entries[j], LiveModels(live).value)
  {
  }

  /**
   * Round trip: after a profile is activated, looking up the live document
   * over any listing that holds that profile finds it, or an entry before it
   * that converts to the same list; with no such earlier entry it finds the
   * profile itself.
   */
  lemma ActivateThenIdentify(config: Json, live: Option<Stored>, newLive: Json, dir: string,
                             entries: seq<Candidate>, k: nat)
    requires Activate(Some(Parsed(config)), live) == Ok(newLive)
    requires k < |entries| && IsJsonFile(entries[k].name) && entries[k].doc == Some(config)
    ensures exists j :: 0 <= j <= k && entries[j].doc.Some?
                        && ConvertModels(entries[j].doc.value) == ConvertModels(config)
                        && Identify(Some(newLive), dir, entries) == Some(JoinPath(dir, entries[j].name))
    ensures (forall j :: 0 <= j < k ==> !Matches(entries[j], ConvertModels(config).items))
            ==> Identify(Some(newLive), dir, entries) == Some(JoinPath(dir, entries[k].name))
  {
    var models := ConvertModels(config).items;
    assert newLive.JObj? && newLive.fields["customModels"] == JArr(models);
    assert LiveModels(Some(newLive)) == Some(models);
    assert Matches(entries[k], models);
    var first := FirstMatch(entries, models);
    assert first.Some? && first.value <= k;
    var j := first.value;
    assert Identify(Some(newLive), dir, entries) == Some(JoinPath(dir, entries[j].name));
    assert entries[j].doc.Some? && ConvertModels(entries[j].doc.value) == ConvertModels(config);
    if forall i :: 0 <= i < k ==> !Matches(entries[i], models) {
      FirstMatchAt(entries, models, k);
    }
  }
}
