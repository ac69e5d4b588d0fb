/**
 * `_collect_artifacts`: the produced files under the output directory, by
 * category, each list sorted. A missing output directory yields four empty lists.
 */
module Artifacts {
  import opened Wrappers
  import opened PathOrder

  /** The four artifact categories, each with its key in the manifest and the file-name pattern `*<suffix>` that selects it. */
  datatype Category = Markdown | ContentList | MiddleJson | ModelJson {
    function Key(): string {
      match this
      case Markdown => "markdown"
      case ContentList => "contentList"
      case MiddleJson => "middleJson"
      case ModelJson => "modelJson"
    }

    function Suffix(): string {
      match this
      case Markdown => ".md"
      case ContentList => "_content_list.json"
      case MiddleJson => "_middle.json"
      case ModelJson => "_model.json"
    }
  }

  const AllCategories: set<Category> := {Markdown, ContentList, MiddleJson, ModelJson}

  /** The artifact map of a run that collected nothing. */
  const EmptyArtifacts: map<Category, seq<string>> :=
    map[Markdown := [], ContentList := [], MiddleJson := [], ModelJson := []]

  predicate EndsWith(s: string, suffix: string) {
    |suffix| <= |s| && s[|s| - |suffix|..] == suffix
  }

  /**
   * The paths that `rglob("*<suffix>")` selects from a recursive listing. The
   * suffixes contain no path separator, so matching the file name and matching
   * the whole path agree.
   */
  function Matching(paths: seq<string>, suffix: string): (r: seq<string>)
    ensures forall p :: p in r <==> p in paths && EndsWith(p, suffix)
  {
    if paths == [] then []
    else
      var head := if EndsWith(paths[0], suffix) then [paths[0]] else [];
      head + Matching(paths[1..], suffix)
  }

  /**
   * What `_collect_artifacts` promises: the four category keys and nothing else,
   * each list a sorted permutation of the paths its pattern selects; `tree` is
   * the recursive listing of the output directory, `None` when it is missing or
   * not a directory.
   */
  ghost predicate CollectedFrom(tree: Option<seq<string>>, artifacts: map<Category, seq<string>>) {
    artifacts.Keys == AllCategories &&
    forall c :: c in artifacts ==> SortedSelection(artifacts[c], tree.GetOr([]), c)
  }

  /** `paths` lists, in order, exactly the files of `listing` that category `c` selects. */
  ghost predicate SortedSelection(paths: seq<string>, listing: seq<string>, c: Category) {
    Sorted(paths) && multiset(paths) == multiset(Matching(listing, c.Suffix()))
  }

  /** Four sorted permutations of the four selections, written into the empty map, satisfy `CollectedFrom`. */
  lemma FilledMapCollected(listing: seq<string>, markdown: seq<string>, contentList: seq<string>,
                           middleJson: seq<string>, modelJson: seq<string>)
    requires SortedSelection(markdown, listing, Markdown)
    requires SortedSelection(contentList, listing, ContentList)
    requires SortedSelection(middleJson, listing, MiddleJson)
    requires SortedSelection(modelJson, listing, ModelJson)
    ensures CollectedFrom(Some(listing), EmptyArtifacts[Markdown := markdown][ContentList := contentList]
                                          [MiddleJson := middleJson][ModelJson := modelJson])
  {
    var artifacts := EmptyArtifacts[Markdown := markdown][ContentList := contentList]
                       [MiddleJson := middleJson][ModelJson := modelJson];
    assert artifacts.Keys == AllCategories;
    forall c | c in artifacts
      ensures SortedSelection(artifacts[c], listing, c)
    {
      match c
      case Markdown => assert artifacts[c] == markdown;
      case ContentList => assert artifacts[c] == contentList;
      case MiddleJson => assert artifacts[c] == middleJson;
      case ModelJson => assert artifacts[c] == modelJson;
    }
  }

  /** Fills the artifact map category by category. */
  method CollectArtifacts(tree: Option<seq<string>>) returns (artifacts: map<Category, seq<string>>)
    ensures CollectedFrom(tree, artifacts)
    ensures tree.None? ==> artifacts == EmptyArtifacts
  {
    artifacts := EmptyArtifacts;
    if tree.None? {
      return;
    }
    var listing := tree.value;
    var markdown := SortPaths(Matching(listing, Markdown.Suffix()));
    artifacts := artifacts[Markdown := markdown];
    var contentList := SortPaths(Matching(listing, ContentList.Suffix()));
    artifacts := artifacts[ContentList := contentList];
    var middleJson := SortPaths(Matching(listing, MiddleJson.Suffix()));
    artifacts := artifacts[MiddleJson := middleJson];
    var modelJson := SortPaths(Matching(listing, ModelJson.Suffix()));
    artifacts := artifacts[ModelJson := modelJson];
    FilledMapCollected(listing, markdown, contentList, middleJson, modelJson);
  }

  /** The collected lists are determined by the listing alone: sorting leaves no choice. */
  lemma CollectedFromUnique(tree: Option<seq<string>>, a1: map<Category, seq<string>>, a2: map<Category, seq<string>>)
    requires CollectedFrom(tree, a1) && CollectedFrom(tree, a2)
    ensures a1 == a2
  {
    forall c | c in a1.Keys ensures a1[c] == a2[c] {
      SortedPermutationUnique(a1[c], a2[c]);
    }
  }
}
