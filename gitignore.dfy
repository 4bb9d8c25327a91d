/**
 * `zmkBuilder._add_gitignore`: make sure the project's `.gitignore` names
 * the generated workspace directory `zmk_work`. The file is given by its
 * content, `None` when it does not exist; the result is the content the
 * file has afterwards.
 */
module Gitignore {
  import opened Wrappers
  import opened Text

  /** The name of the generated workspace directory (`workdir_top.name`). */
  const WorkdirName := "zmk_work"

  /** Some line of `text`, as `readlines` cuts it, starts with the workspace name. */
  predicate Listed(text: string)
  {
    exists i :: 0 <= i < |Lines(text)| && StartsWith(Lines(text)[i], WorkdirName)
  }

  /** What the file holds before the call; a missing file reads as empty. */
  function Prior(file: Option<string>): string
  {
    if file.Some? then file.value else ""
  }

  /** The file after `_add_gitignore` as written: the bare name appended, no line break added. */
  function Appended(file: Option<string>): string
  {
    if file.Some? && Listed(file.value) then file.value else Prior(file) + WorkdirName
  }

  /**
   * The file after the corrected update: the name is appended on a line of
   * its own, a line break being added first when the last line lacks one.
   */
  function AppendedOnOwnLine(file: Option<string>): string
  {
    if file.Some? && Listed(file.value) then file.value
    else if Terminated(Prior(file)) then Prior(file) + WorkdirName
    else Prior(file) + "\n" + WorkdirName
  }

  /** The loop over `f.readlines()` that returns early at the first matching line. */
  method HasEntry(text: string) returns (found: bool)
    ensures found == Listed(text)
  {
    var lines := Lines(text);
    var i := 0;
    while i < |lines|
      invariant 0 <= i <= |lines|
      invariant forall j :: 0 <= j < i ==> !StartsWith(lines[j], WorkdirName)
    {
      if StartsWith(lines[i], WorkdirName) {
        return true;
      }
      i := i + 1;
    }
    return false;
  }

  /** `_add_gitignore` as written: `f.write(name)` in append mode. */
  method AddGitignore(file: Option<string>) returns (content: string)
    ensures content == Appended(file)
  {
    if file.Some? {
      var found := HasEntry(file.value);
      if found {
        return file.value;
      }
    }
    content := Prior(file) + WorkdirName;
  }

  /** The corrected update, which the builder uses. */
  method AddGitignoreOnOwnLine(file: Option<string>) returns (content: string)
    ensures content == AppendedOnOwnLine(file)
  {
    if file.Some? {
      var found := HasEntry(file.value);
      if found {
        return file.value;
      }
    }
    var prior := Prior(file);
    if prior == "" || prior[|prior| - 1] == '\n' {
      content := prior + WorkdirName;
    } else {
      content := prior + "\n" + WorkdirName;
    }
  }

  lemma WorkdirNameIsOneLine()
    ensures Lines(WorkdirName) == [WorkdirName]
  {
    assert forall i :: 0 <= i < |WorkdirName| ==> WorkdirName[i] != '\n';
    LinesOfOneLine(WorkdirName);
  }

  /** The name written after a line break becomes the file's last line. */
  lemma NameAfterLineBreak(head: string)
    requires Terminated(head)
    ensures var ls := Lines(head + WorkdirName);
      |ls| > 0 && ls[|ls| - 1] == WorkdirName
    ensures Listed(head + WorkdirName)
  {
    LinesAppend(head, WorkdirName);
    WorkdirNameIsOneLine();
    var ls := Lines(head + WorkdirName);
    assert ls[|ls| - 1] == WorkdirName;
    assert StartsWith(ls[|ls| - 1], WorkdirName);
  }

  /**
   * The corrected update keeps everything the file held, line for line, and
   * afterwards the workspace directory is listed: its last line is the name
   * itself unless the name was listed already.
   */
  lemma {:induction false} OwnLineListsName(file: Option<string>)
    ensures Listed(AppendedOnOwnLine(file))
    ensures StartsWith(AppendedOnOwnLine(file), Prior(file))
    ensures !(file.Some? && Listed(file.value)) ==>
      var ls := Lines(AppendedOnOwnLine(file));
      |ls| > 0 && ls[|ls| - 1] == WorkdirName
  {
    var prior := Prior(file);
    var result := AppendedOnOwnLine(file);
    if file.Some? && Listed(file.value) {
      assert result == prior;
      assert prior[..|prior|] == prior;
    } else {
      var head := if Terminated(prior) then prior else prior + "\n";
      assert result == head + WorkdirName;
      assert Terminated(head) && head[..|prior|] == prior;
      NameAfterLineBreak(head);
      PrefixOfAppend(head, WorkdirName, prior);
    }
  }

  lemma PrefixOfAppend(head: string, tail: string, prior: string)
    requires |prior| <= |head| && head[..|prior|] == prior
    ensures StartsWith(head + tail, prior)
  {
    assert (head + tail)[..|prior|] == head[..|prior|];
  }

  /** With the correction, running the builder again leaves the file alone. */
  lemma OwnLineIdempotent(file: Option<string>)
    ensures AppendedOnOwnLine(Some(AppendedOnOwnLine(file))) == AppendedOnOwnLine(file)
  {
    OwnLineListsName(file);
  }

  /** The two versions differ only when the file's last line has no line break. */
  lemma AppendedAgreesWhenTerminated(file: Option<string>)
    ensures Appended(file) == AppendedOnOwnLine(file) <==> Terminated(Prior(file)) || (file.Some? && Listed(file.value))
  {
    if !(Terminated(Prior(file)) || (file.Some? && Listed(file.value))) {
      var p := Prior(file);
      assert |p + WorkdirName| < |p + "\n" + WorkdirName|;
    }
  }

  /**
   * The as-written update on a `.gitignore` holding `build` with no final
   * line break: the name is glued to that line, so the directory is still
   * not ignored, and the next run appends the name once more.
   */
  lemma GluedEntryCounterexample()
    ensures Appended(Some("build")) == "build" + WorkdirName
    ensures !Listed("build" + WorkdirName)
    ensures Appended(Some(Appended(Some("build")))) == "build" + WorkdirName + WorkdirName
  {
    var once := "build" + WorkdirName;
    assert forall i :: 0 <= i < |"build"| ==> "build"[i] != '\n';
    LinesOfOneLine("build");
    assert !StartsWith("build", WorkdirName);
    assert !Listed("build");
    assert forall i :: 0 <= i < |once| ==> once[i] != '\n';
    LinesOfOneLine(once);
    assert once[..|WorkdirName|][0] == 'b';
    assert !StartsWith(once, WorkdirName);
  }
}
