/**
 * The `west build` command line built by `zmkBuilder._build`: a fixed list
 * of fourteen tokens joined with single spaces. A flag that is off is an
 * empty token, which leaves two spaces in a row in the command text.
 */
module Command {
  import opened Text

  /** `-p` asks west for a pristine (clean) build. */
  function PristineFlag(prinstine: bool): string
  {
    if prinstine then "-p" else ""
  }

  function SnippetFlag(snippet: string): string
  {
    if snippet == "" then "" else "-S " + snippet
  }

  /** A snippet is passed as `-S` followed by the snippet's own words. */
  lemma SnippetFlagWords(snippet: string)
    ensures Words(SnippetFlag(snippet)) == if snippet == "" then [] else ["-S"] + Words(snippet)
  {
    if snippet != "" {
      assert SnippetFlag(snippet) == "-S" + " " + snippet;
      WordsAroundSpace("-S", snippet);
      WordsOfPlain("-S");
    }
  }

  /** A `-D<NAME>=<value>` definition with a single-word value is one argument. */
  lemma DefineWords(define: string, value: string)
    requires define == "-DSHIELD=" || define == "-DZMK_CONFIG="
    requires ' ' !in value
    ensures Words(define + value) == [define + value]
  {
    assert forall i :: 0 <= i < |define| ==> define[i] != ' ';
    WordsOfPlain(define + value);
  }

  /** The token list, in the order the source writes it. */
  function BuildTokens(board: string, shield: string, builddir: string, prinstine: bool,
                       snippet: string, cmakeArgs: string, appdir: string, confdir: string): seq<string>
  {
    [ "west", "build",
      PristineFlag(prinstine),
      "-s", appdir,
      "-b", board,
      "-d", builddir,
      SnippetFlag(snippet),
      "--",
      "-DSHIELD=" + shield,
      "-DZMK_CONFIG=" + confdir,
      cmakeArgs ]
  }

  /** The command string handed to the container. */
  function BuildCommand(board: string, shield: string, builddir: string, prinstine: bool,
                        snippet: string, cmakeArgs: string, appdir: string, confdir: string): string
  {
    Join(BuildTokens(board, shield, builddir, prinstine, snippet, cmakeArgs, appdir, confdir))
  }

  /**
   * The command text: all fourteen positions, each separated from the next
   * by exactly one space, so a flag that is off leaves two spaces in a row.
   */
  lemma BuildCommandText(board: string, shield: string, builddir: string, prinstine: bool,
                         snippet: string, cmakeArgs: string, appdir: string, confdir: string)
    ensures BuildCommand(board, shield, builddir, prinstine, snippet, cmakeArgs, appdir, confdir)
         == "west" + " " + "build" + " " + PristineFlag(prinstine) + " " + "-s" + " " + appdir
            + " " + "-b" + " " + board + " " + "-d" + " " + builddir + " " + SnippetFlag(snippet)
            + " " + "--" + " " + ("-DSHIELD=" + shield) + " " + ("-DZMK_CONFIG=" + confdir)
            + " " + cmakeArgs
  {
    JoinOfFourteen(BuildTokens(board, shield, builddir, prinstine, snippet, cmakeArgs, appdir, confdir));
  }

  /** Whatever the target, the command is a `west build`. */
  lemma BuildCommandIsWestBuild(board: string, shield: string, builddir: string, prinstine: bool,
                                snippet: string, cmakeArgs: string, appdir: string, confdir: string)
    ensures StartsWith(BuildCommand(board, shield, builddir, prinstine, snippet, cmakeArgs, appdir, confdir),
                       "west build")
  {
    var ts := BuildTokens(board, shield, builddir, prinstine, snippet, cmakeArgs, appdir, confdir);
    var rest := Join(ts[2..]);
    assert Join(ts[1..]) == "build" + " " + rest by {
      assert ts[1..][1..] == ts[2..];
    }
    assert Join(ts) == "west" + " " + ("build" + " " + rest);
    assert (("west" + " ") + ("build" + " " + rest))[..10] == "west build";
  }

  lemma JoinOfPrefix(ts: seq<string>, k: nat)
    requires 1 <= k < |ts|
    ensures Join(ts[..k + 1]) == Join(ts[..k]) + " " + ts[k]
  {
    assert ts[..k + 1] == ts[..k] + [ts[k]];
    JoinSnoc(ts[..k], ts[k]);
  }

  /** Fourteen joined tokens, written out. */
  lemma JoinOfFourteen(ts: seq<string>)
    requires |ts| == 14
    ensures Join(ts) == ts[0] + " " + ts[1] + " " + ts[2] + " " + ts[3] + " " + ts[4] + " " + ts[5] + " " + ts[6]
      + " " + ts[7] + " " + ts[8] + " " + ts[9] + " " + ts[10] + " " + ts[11] + " " + ts[12] + " " + ts[13]
  {
    assert ts[..1] == [ts[0]];
    JoinOfPrefix(ts, 1);
    JoinOfPrefix(ts, 2);
    JoinOfPrefix(ts, 3);
    JoinOfPrefix(ts, 4);
    JoinOfPrefix(ts, 5);
    JoinOfPrefix(ts, 6);
    JoinOfPrefix(ts, 7);
    JoinOfPrefix(ts, 8);
    JoinOfPrefix(ts, 9);
    JoinOfPrefix(ts, 10);
    JoinOfPrefix(ts, 11);
    JoinOfPrefix(ts, 12);
    JoinOfPrefix(ts, 13);
    assert ts[..14] == ts;
  }

  lemma WordsOfPrefix(ts: seq<string>, k: nat)
    requires 1 <= k < |ts|
    ensures Words(Join(ts[..k + 1])) == Words(Join(ts[..k])) + Words(ts[k])
  {
    assert ts[..k + 1] == ts[..k] + [ts[k]];
    WordsOfJoinSnoc(ts[..k], ts[k]);
  }

  /** The words of fourteen joined tokens are the words of each token in turn. */
  lemma WordsOfFourteen(ts: seq<string>)
    requires |ts| == 14
    ensures Words(Join(ts)) == Words(ts[0]) + Words(ts[1]) + Words(ts[2]) + Words(ts[3]) + Words(ts[4]) + Words(ts[5]) + Words(ts[6]) + Words(ts[7]) + Words(ts[8]) + Words(ts[9]) + Words(ts[10]) + Words(ts[11]) + Words(ts[12]) + Words(ts[13])
  {
    assert ts[..1] == [ts[0]];
    WordsOfPrefix(ts, 1);
    WordsOfPrefix(ts, 2);
    WordsOfPrefix(ts, 3);
    WordsOfPrefix(ts, 4);
    WordsOfPrefix(ts, 5);
    WordsOfPrefix(ts, 6);
    WordsOfPrefix(ts, 7);
    WordsOfPrefix(ts, 8);
    WordsOfPrefix(ts, 9);
    WordsOfPrefix(ts, 10);
    WordsOfPrefix(ts, 11);
    WordsOfPrefix(ts, 12);
    WordsOfPrefix(ts, 13);
    assert ts[..14] == ts;
  }

  /**
   * The arguments `west` receives once the command text is cut at spaces,
   * for every input: a flag that is off contributes nothing, the snippet
   * follows `-S`, and every other token contributes its own words. A path,
   * board or shield holding a space therefore arrives as several arguments,
   * and an empty board as none.
   */
  lemma BuildCommandArguments(board: string, shield: string, builddir: string, prinstine: bool,
                              snippet: string, cmakeArgs: string, appdir: string, confdir: string)
    ensures Words(BuildCommand(board, shield, builddir, prinstine, snippet, cmakeArgs, appdir, confdir))
         == ["west"] + ["build"] + (if prinstine then ["-p"] else [])
            + ["-s"] + Words(appdir) + ["-b"] + Words(board) + ["-d"] + Words(builddir)
            + (if snippet == "" then [] else ["-S"] + Words(snippet))
            + ["--"] + Words("-DSHIELD=" + shield) + Words("-DZMK_CONFIG=" + confdir)
            + Words(cmakeArgs)
  {
    var ts := BuildTokens(board, shield, builddir, prinstine, snippet, cmakeArgs, appdir, confdir);
    WordsOfFourteen(ts);
    FixedTokenWords();
    assert Words("") == [];
    SnippetFlagWords(snippet);
  }

  /** The fixed tokens of the command are one argument each. */
  lemma FixedTokenWords()
    ensures Words("west") == ["west"] && Words("build") == ["build"] && Words("-p") == ["-p"]
    ensures Words("-s") == ["-s"] && Words("-b") == ["-b"] && Words("-d") == ["-d"] && Words("--") == ["--"]
  {
    WordsOfPlain("west");
    WordsOfPlain("build");
    WordsOfPlain("-p");
    WordsOfPlain("-s");
    WordsOfPlain("-b");
    WordsOfPlain("-d");
    WordsOfPlain("--");
  }

  /**
   * With single-word paths, board and shield, each of them is exactly one
   * argument, right after the flag that introduces it.
   */
  lemma BuildCommandSingleWords(board: string, shield: string, builddir: string, prinstine: bool,
                                snippet: string, cmakeArgs: string, appdir: string, confdir: string)
    requires board != "" && ' ' !in board && ' ' !in shield
    requires appdir != "" && ' ' !in appdir && builddir != "" && ' ' !in builddir
    requires ' ' !in confdir
    ensures Words(BuildCommand(board, shield, builddir, prinstine, snippet, cmakeArgs, appdir, confdir))
         == ["west"] + ["build"] + (if prinstine then ["-p"] else [])
            + ["-s"] + [appdir] + ["-b"] + [board] + ["-d"] + [builddir]
            + (if snippet == "" then [] else ["-S"] + Words(snippet))
            + ["--"] + ["-DSHIELD=" + shield] + ["-DZMK_CONFIG=" + confdir]
            + Words(cmakeArgs)
  {
    BuildCommandArguments(board, shield, builddir, prinstine, snippet, cmakeArgs, appdir, confdir);
    WordsOfPlain(appdir);
    WordsOfPlain(board);
    WordsOfPlain(builddir);
    DefineWords("-DSHIELD=", shield);
    DefineWords("-DZMK_CONFIG=", confdir);
  }

  /** An empty board is no argument at all: `-b` is directly followed by `-d`. */
  lemma EmptyBoardShiftsArguments(shield: string, builddir: string, snippet: string, cmakeArgs: string,
                                  appdir: string, confdir: string)
    requires appdir != "" && ' ' !in appdir
    ensures var ws := Words(BuildCommand("", shield, builddir, false, snippet, cmakeArgs, appdir, confdir));
      |ws| > 5 && ws[4] == "-b" && ws[5] == "-d"
  {
    BuildCommandArguments("", shield, builddir, false, snippet, cmakeArgs, appdir, confdir);
    WordsOfPlain(appdir);
    WordsOfPlain("");
  }
}
