/**
 * `_resolve_input_paths`: the list of documents a run will parse. A missing
 * path is invalid input; a directory contributes the entries whose detected
 * suffix is a supported pdf or image suffix, and must contribute at least one;
 * any other existing path is a single document.
 */
module InputPaths {
  import opened Wrappers

  /**
   * One directory entry as `glob("*")` lists it, with the suffix that content
   * sniffing (`guess_suffix_by_path`) reports for it.
   */
  datatype Entry = Entry(path: string, suffix: string)

  /** What the resolved input path is on disk. */
  datatype InputNode =
    | Missing(path: string)
    | File(path: string)
    | Directory(path: string, entries: seq<Entry>)

  /** The paths of the entries whose suffix is supported, in listing order. */
  function SupportedPaths(entries: seq<Entry>, supported: seq<string>): (r: seq<string>)
    ensures |r| <= |entries|
  {
    if entries == [] then []
    else
      var head := if entries[0].suffix in supported then [entries[0].path] else [];
      head + SupportedPaths(entries[1..], supported)
  }

  /** A path is kept exactly when some entry with a supported suffix carries it. */
  lemma {:induction false} SupportedPathsMembers(entries: seq<Entry>, supported: seq<string>, p: string)
    ensures p in SupportedPaths(entries, supported) <==>
      exists i :: 0 <= i < |entries| && entries[i].path == p && entries[i].suffix in supported
  {
    if entries != [] {
      SupportedPathsMembers(entries[1..], supported, p);
      if p in SupportedPaths(entries[1..], supported) {
        var i :| 0 <= i < |entries[1..]| && entries[1..][i].path == p && entries[1..][i].suffix in supported;
        assert entries[i + 1] == entries[1..][i];
      }
      if exists i :: 0 <= i < |entries| && entries[i].path == p && entries[i].suffix in supported {
        var i :| 0 <= i < |entries| && entries[i].path == p && entries[i].suffix in supported;
        if i > 0 { assert entries[1..][i - 1] == entries[i]; }
      }
    }
  }

  /** Filtering a listing extended by one entry extends the filtered list by at most that entry. */
  lemma {:induction false} SupportedPathsSnoc(entries: seq<Entry>, e: Entry, supported: seq<string>)
    ensures SupportedPaths(entries + [e], supported)
      == SupportedPaths(entries, supported) + (if e.suffix in supported then [e.path] else [])
    decreases |entries|
  {
    if entries == [] {
      assert [e][1..] == [];
    } else {
      assert (entries + [e])[1..] == entries[1..] + [e];
      SupportedPathsSnoc(entries[1..], e, supported);
    }
  }

  /** The result `_resolve_input_paths` gives, or the message of the InvalidInputError it raises. */
  function ResolveInput(input: InputNode, supported: seq<string>): (r: Result<seq<string>, string>)
    ensures r.Failure? <==> input.Missing? || (input.Directory? && SupportedPaths(input.entries, supported) == [])
    ensures input.File? ==> r == Success([input.path])
    ensures input.Directory? && r.Success? ==>
      r.value == SupportedPaths(input.entries, supported) && |r.value| > 0
  {
    match input
    case Missing(path) => Failure("Input does not exist: " + path)
    case File(path) => Success([path])
    case Directory(path, entries) =>
      var kept := SupportedPaths(entries, supported);
      if kept == [] then Failure("No supported files found under: " + path) else Success(kept)
  }

  /** The loop of `_resolve_input_paths`, appending each supported entry in listing order. */
  method ResolveInputPaths(input: InputNode, pdfSuffixes: seq<string>, imageSuffixes: seq<string>)
    returns (r: Result<seq<string>, string>)
    ensures r == ResolveInput(input, pdfSuffixes + imageSuffixes)
    ensures r.Success? ==> forall p :: p in r.value ==>
      input.File? || exists e :: e in input.entries && e.path == p && e.suffix in pdfSuffixes + imageSuffixes
  {
    var supported := pdfSuffixes + imageSuffixes;
    if input.Missing? {
      return Failure("Input does not exist: " + input.path);
    }
    if input.Directory? {
      var result: seq<string> := [];
      for i := 0 to |input.entries|
        invariant result == SupportedPaths(input.entries[..i], supported)
      {
        var entry := input.entries[i];
        if entry.suffix in supported {
          result := result + [entry.path];
        }
        assert input.entries[..i + 1] == input.entries[..i] + [entry];
        SupportedPathsSnoc(input.entries[..i], entry, supported);
      }
      assert input.entries[..|input.entries|] == input.entries;
      if result == [] {
        return Failure("No supported files found under: " + input.path);
      }
      forall p | p in result
        ensures exists e :: e in input.entries && e.path == p && e.suffix in supported
      {
        SupportedPathsMembers(input.entries, supported, p);
      }
      return Success(result);
    }
    return Success([input.path]);
  }
}
