/**
 * The build manifest (`build.yaml`) after the YAML loader has read it, and
 * its translation into the ordered list of build targets
 * (`zmkBuilder._parse_build_list`).
 */
module Manifest {
  import opened Wrappers

  /** One mapping of the `include` list: the keys it holds and their values. */
  type Entry = map<string, string>

  /**
   * The loaded document: `Null` when the file is empty (the loader returns
   * None), otherwise a mapping whose `include` key is present or not.
   */
  datatype Document = Null | Mapping(includeList: Option<seq<Entry>>)

  /** One `(board, shield, snippet, cmake_args)` tuple of the build list. */
  datatype Target = Target(board: string, shield: string, snippet: string, cmakeArgs: string)

  /** The three configuration errors the parser raises. */
  datatype ParseError =
    | EmptyManifest           // "build.yaml is empty"
    | MissingInclude          // "'include' node is required in build.yaml"
    | MissingBoardOrShield    // "both 'board' and 'shield' node is required ..."

  /** The entry names both fields a build cannot do without. */
  predicate Complete(e: Entry)
  {
    "board" in e && "shield" in e
  }

  /** The value of an optional field, `""` when the entry leaves it out. */
  function Optional(e: Entry, key: string): string
  {
    if key in e then e[key] else ""
  }

  function TargetOf(e: Entry): Target
    requires Complete(e)
  {
    Target(e["board"], e["shield"], Optional(e, "snippet"), Optional(e, "cmake-args"))
  }

  /**
   * What the manifest means: an error for an empty document, a missing
   * `include`, or any entry without `board` or `shield`; otherwise one target
   * per entry, in entry order.
   */
  function BuildList(doc: Document): Result<seq<Target>, ParseError>
  {
    match doc
    case Null => Err(EmptyManifest)
    case Mapping(None) => Err(MissingInclude)
    case Mapping(Some(es)) =>
      if exists i :: 0 <= i < |es| && !Complete(es[i]) then Err(MissingBoardOrShield)
      else Ok(TargetsOf(es))
  }

  /** One target per entry, in entry order. */
  function TargetsOf(es: seq<Entry>): seq<Target>
    requires forall i :: 0 <= i < |es| ==> Complete(es[i])
  {
    seq(|es|, i requires 0 <= i < |es| => TargetOf(es[i]))
  }

  /**
   * `_parse_build_list`: walks the `include` list, appending one tuple per
   * entry and raising at the first incomplete entry, so no partial list is
   * ever returned.
   */
  method ParseBuildList(doc: Document) returns (r: Result<seq<Target>, ParseError>)
    ensures r == BuildList(doc)
  {
    if doc.Null? {
      return Err(EmptyManifest);
    }
    if doc.includeList.None? {
      return Err(MissingInclude);
    }
    var es := doc.includeList.value;
    var ret: seq<Target> := [];
    var i := 0;
    while i < |es|
      invariant 0 <= i <= |es|
      invariant forall j :: 0 <= j < i ==> Complete(es[j])
      invariant |ret| == i
      invariant forall j :: 0 <= j < i ==> ret[j] == TargetOf(es[j])
    {
      var c := es[i];
      if !("board" in c && "shield" in c) {
        return Err(MissingBoardOrShield);
      }
      var board := c["board"];
      var shield := c["shield"];
      var snippet := if "snippet" in c then c["snippet"] else "";
      var cmakeArgs := if "cmake-args" in c then c["cmake-args"] else "";
      ret := ret + [Target(board, shield, snippet, cmakeArgs)];
      i := i + 1;
    }
    assert ret == TargetsOf(es);
    r := Ok(ret);
  }

  /** The entry a manifest author writes for `t`, leaving out empty optional fields. */
  function EntryFor(t: Target): Entry
  {
    var required := map["board" := t.board, "shield" := t.shield];
    var withSnippet := if t.snippet == "" then required else required["snippet" := t.snippet];
    if t.cmakeArgs == "" then withSnippet else withSnippet["cmake-args" := t.cmakeArgs]
  }

  /** A manifest listing `ts` in order. */
  function ManifestFor(ts: seq<Target>): Document
  {
    Mapping(Some(seq(|ts|, i requires 0 <= i < |ts| => EntryFor(ts[i]))))
  }

  lemma EntryForRoundTrip(t: Target)
    ensures Complete(EntryFor(t)) && TargetOf(EntryFor(t)) == t
  {
    assert "snippet" != "board" && "snippet" != "shield";
    assert "cmake-args" != "board" && "cmake-args" != "shield" && "cmake-args" != "snippet";
  }

  /**
   * Parsing is a left inverse of writing a manifest: every list of targets,
   * duplicates and empty optional fields included, is read back unchanged
   * and in the same order.
   */
  lemma ParseManifestFor(ts: seq<Target>)
    ensures BuildList(ManifestFor(ts)) == Ok(ts)
  {
    var es := ManifestFor(ts).includeList.value;
    forall i | 0 <= i < |ts|
      ensures Complete(es[i]) && TargetOf(es[i]) == ts[i]
    {
      EntryForRoundTrip(ts[i]);
    }
    var r := BuildList(ManifestFor(ts));
    assert r.Ok?;
    assert r.value == ts;
  }

  /**
   * A successful parse keeps every entry: one target per entry, board and
   * shield copied, absent optional fields read as `""`; and parsing fails
   * exactly on the three configuration errors.
   */
  lemma BuildListMeaning(doc: Document)
    ensures BuildList(doc).Err? <==>
      doc.Null? || doc.includeList.None? ||
      exists i :: 0 <= i < |doc.includeList.value| && !Complete(doc.includeList.value[i])
    ensures BuildList(doc).Ok? ==>
      var es, ts := doc.includeList.value, BuildList(doc).value;
      |ts| == |es| &&
      forall i :: 0 <= i < |es| ==>
        && ts[i].board == es[i]["board"] && ts[i].shield == es[i]["shield"]
        && ts[i].snippet == (if "snippet" in es[i] then es[i]["snippet"] else "")
        && ts[i].cmakeArgs == (if "cmake-args" in es[i] then es[i]["cmake-args"] else "")
  {
  }
}
