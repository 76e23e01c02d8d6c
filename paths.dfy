/**
 * The pieces of Rust's `std::path` on Unix that the engine uses:
 * `Path::extension` and `Path::file_stem` of a file name, and
 * `Path::join`.
 */
module Paths {
  import opened Wrappers
  import opened Text

  /**
   * A file name split at its last dot into (file_stem, extension).
   * A name without a dot, a name whose only dot is its first character
   * and the name ".." have no extension.
   */
  function SplitExtension(name: string): (string, Option<string>) {
    if name == ".." then (name, None)
    else match LastIndexOf(name, '.')
      case None => (name, None)
      case Some(i) => if i == 0 then (name, None) else (name[..i], Some(name[i + 1..]))
  }

  function Extension(name: string): Option<string> {
    SplitExtension(name).1
  }

  function FileStem(name: string): string {
    SplitExtension(name).0
  }

  /** The name's extension is exactly "json". */
  predicate IsJsonFile(name: string) {
    Extension(name) == Some("json")
  }

  /**
   * A file name has the extension "json" exactly when it ends in ".json"
   * with at least one character in front, and its stem is that front part.
   */
  lemma JsonFileIff(name: string)
    ensures IsJsonFile(name) <==> |name| >= 6 && name[|name| - 5..] == ".json"
    ensures IsJsonFile(name) ==> FileStem(name) == name[..|name| - 5]
  {
    var n := |name|;
    if n >= 6 && name[n - 5..] == ".json" {
      assert name[n - 5] == '.';
      assert forall k :: n - 5 < k < n ==> name[k] != '.' by {
        forall k | n - 5 < k < n ensures name[k] != '.' {
          assert name[k] == name[n - 5..][k - (n - 5)];
        }
      }
      var last := LastIndexOf(name, '.');
      assert last == Some(n - 5);
      assert name[n - 4..] == name[n - 5..][1..] == "json";
    }
    if IsJsonFile(name) {
      var i := LastIndexOf(name, '.').value;
      assert name[i + 1..] == "json";
      assert i == n - 5 && i != 0;
      assert name[n - 5..] == [name[i]] + name[i + 1..];
      assert name[n - 5..] == ".json";
    }
  }

  /** Joining a name onto a directory, as `Path::join` does on Unix: an absolute name replaces the directory. */
  function JoinPath(dir: string, name: string): string {
    if |name| > 0 && name[0] == '/' then name
    else if dir == [] || dir[|dir| - 1] == '/' then dir + name
    else dir + "/" + name
  }

  /** Joining `sub + "/" + name` is joining `sub`, then `name`, for relative `sub` and `name` without slashes at their ends. */
  lemma JoinNested(dir: string, sub: string, name: string)
    requires |sub| > 0 && sub[0] != '/' && sub[|sub| - 1] != '/'
    ensures JoinPath(dir, sub + "/" + name) == JoinPath(JoinPath(dir, sub), name) || (|name| > 0 && name[0] == '/')
  {
    var prefix := if dir == [] || dir[|dir| - 1] == '/' then dir else dir + "/";
    assert JoinPath(dir, sub) == prefix + sub;
    assert (sub + "/" + name)[0] == sub[0];
    assert JoinPath(dir, sub + "/" + name) == prefix + (sub + "/" + name);
    var inner := prefix + sub;
    assert inner[|inner| - 1] == sub[|sub| - 1];
  }
}
