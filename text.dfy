/**
 * Text operations the build script relies on from Python's standard library:
 * `" ".join(tokens)`, the split at spaces that turns a command string into
 * the argument vector of the program it starts, `file.readlines()` and
 * `str.startswith`.
 */
module Text {

  /** `" ".join(ts)`: the tokens separated by single spaces, empty tokens included. */
  function Join(ts: seq<string>): string
  {
    if |ts| == 0 then ""
    else if |ts| == 1 then ts[0]
    else ts[0] + " " + Join(ts[1..])
  }

  /** Length of the run of non-space characters at the front of `s`. */
  function WordLen(s: string): (n: nat)
    ensures n <= |s|
    ensures forall i :: 0 <= i < n ==> s[i] != ' '
    ensures n < |s| ==> s[n] == ' '
  {
    if s == "" || s[0] == ' ' then 0 else 1 + WordLen(s[1..])
  }

  /**
   * The maximal runs of non-space characters of `s`, in order: how a command
   * line is cut into arguments when no quoting is involved. Runs of several
   * spaces, and spaces at either end, produce no empty argument.
   */
  function Words(s: string): seq<string>
    decreases |s|
  {
    if s == "" then []
    else if s[0] == ' ' then Words(s[1..])
    else
      var n := WordLen(s);
      [s[..n]] + Words(s[n..])
  }

  /** Every word is non-empty and holds no space. */
  lemma {:induction false} WordsAreWords(s: string)
    ensures forall i :: 0 <= i < |Words(s)| ==> Words(s)[i] != "" && ' ' !in Words(s)[i]
    decreases |s|
  {
    if s != "" {
      if s[0] == ' ' {
        WordsAreWords(s[1..]);
      } else {
        var n := WordLen(s);
        WordsAreWords(s[n..]);
        assert ' ' !in s[..n];
      }
    }
  }

  /** Text with a non-space character in it holds at least one word. */
  lemma {:induction false} WordsNonEmpty(s: string, i: nat)
    requires i < |s| && s[i] != ' '
    ensures Words(s) != []
    decreases |s|
  {
    if s[0] == ' ' {
      WordsNonEmpty(s[1..], i - 1);
    }
  }

  lemma {:induction false} WordLenAppend(a: string, c: string)
    ensures WordLen(a + c) == if WordLen(a) < |a| then WordLen(a) else |a| + WordLen(c)
    decreases |a|
  {
    if a == "" {
      assert a + c == c;
    } else if a[0] != ' ' {
      assert (a + c)[1..] == a[1..] + c;
      WordLenAppend(a[1..], c);
    }
  }

  /** A token with no space in it is one word, or none when it is empty. */
  lemma WordsOfPlain(t: string)
    requires ' ' !in t
    ensures Words(t) == if t == "" then [] else [t]
  {
    if t != "" {
      var n := WordLen(t);
      assert n == |t|;
      assert t[..n] == t && t[n..] == "";
    }
  }

  /** The first word of `a + " " + b` is the first word of `a` when `a` starts with one. */
  lemma FirstWordBeforeSpace(a: string, b: string)
    requires a != "" && a[0] != ' '
    ensures var k := WordLen(a);
      && WordLen(a + " " + b) == k
      && (a + " " + b)[..k] == a[..k]
      && (a + " " + b)[k..] == a[k..] + " " + b
  {
    assert a + " " + b == a + (" " + b);
    WordLenAppend(a, " " + b);
    assert WordLen(" " + b) == 0;
  }

  /** Joining with a space never glues two words together nor creates an empty one. */
  lemma {:induction false} WordsAroundSpace(a: string, b: string)
    ensures Words(a + " " + b) == Words(a) + Words(b)
    decreases |a|
  {
    var s := a + " " + b;
    if a == "" {
      assert s[1..] == b;
    } else if a[0] == ' ' {
      assert s[1..] == a[1..] + " " + b;
      WordsAroundSpace(a[1..], b);
    } else {
      var k := WordLen(a);
      FirstWordBeforeSpace(a, b);
      WordsAroundSpace(a[k..], b);
      assert Words(s) == [a[..k]] + Words(a[k..] + " " + b);
      assert Words(a) == [a[..k]] + Words(a[k..]);
    }
  }

  /** Joining one more token adds one space and the token, even when the token is empty. */
  lemma {:induction false} JoinSnoc(ts: seq<string>, t: string)
    requires ts != []
    ensures Join(ts + [t]) == Join(ts) + " " + t
  {
    if |ts| == 1 {
      assert ts + [t] == [ts[0], t];
    } else {
      assert (ts + [t])[1..] == ts[1..] + [t];
      JoinSnoc(ts[1..], t);
    }
  }

  /**
   * Cutting a space-joined token list at spaces yields the words of each
   * token in turn: an empty token yields nothing, and a token holding spaces
   * yields several arguments.
   */
  lemma WordsOfJoinSnoc(ts: seq<string>, t: string)
    requires ts != []
    ensures Words(Join(ts + [t])) == Words(Join(ts)) + Words(t)
  {
    JoinSnoc(ts, t);
    WordsAroundSpace(Join(ts), t);
  }

  /** `line.startswith(prefix)`. */
  predicate StartsWith(line: string, prefix: string)
  {
    |prefix| <= |line| && line[..|prefix|] == prefix
  }

  /** All strings of `ls`, one after another. */
  function Concat(ls: seq<string>): string
  {
    if ls == [] then "" else ls[0] + Concat(ls[1..])
  }

  /** Length of the first line of `s`, its line break included when it has one. */
  function LineLen(s: string): (n: nat)
    ensures s != "" ==> 1 <= n
    ensures n <= |s|
    ensures forall i :: 0 <= i < n - 1 ==> s[i] != '\n'
    ensures n < |s| ==> s[n - 1] == '\n'
  {
    if s == "" then 0
    else if s[0] == '\n' then 1
    else 1 + LineLen(s[1..])
  }

  /** True when `s` is empty or ends with a line break. */
  predicate Terminated(s: string)
  {
    s == "" || s[|s| - 1] == '\n'
  }

  /** No line feed in `l` except possibly as its last character. */
  predicate NoInnerBreak(l: string)
  {
    forall j :: 0 <= j < |l| - 1 ==> l[j] != '\n'
  }

  /**
   * `f.readlines()` on a file holding `s`: the text cut after every line
   * feed, each line keeping its line feed; only the last may lack one.
   */
  function Lines(s: string): (ls: seq<string>)
    ensures Concat(ls) == s
    ensures forall i :: 0 <= i < |ls| ==> ls[i] != ""
    ensures forall i :: 0 <= i < |ls| ==> NoInnerBreak(ls[i])
    ensures forall i :: 0 <= i < |ls| - 1 ==> ls[i][|ls[i]| - 1] == '\n'
    decreases |s|
  {
    if s == "" then []
    else
      var n := LineLen(s);
      assert s[..n] + s[n..] == s;
      [s[..n]] + Lines(s[n..])
  }

  lemma {:induction false} LineLenAppend(s: string, t: string)
    requires s != "" && Terminated(s)
    ensures LineLen(s + t) == LineLen(s)
    decreases |s|
  {
    if s[0] != '\n' {
      assert (s + t)[1..] == s[1..] + t;
      LineLenAppend(s[1..], t);
    }
  }

  /** Text after a line break leaves the first line alone. */
  lemma FirstLineOfAppend(s: string, t: string)
    requires s != "" && Terminated(s)
    ensures var n := LineLen(s);
      && LineLen(s + t) == n
      && (s + t)[..n] == s[..n]
      && (s + t)[n..] == s[n..] + t
  {
    LineLenAppend(s, t);
    var n := LineLen(s);
    assert (s + t)[..n] == s[..n];
  }

  /** The first line of non-empty text, then the lines of the rest. */
  lemma LinesFirst(s: string)
    requires s != ""
    ensures Lines(s) == [s[..LineLen(s)]] + Lines(s[LineLen(s)..])
  {
  }

  /** One step of `LinesAppend`: the first line of `s` is also the first line of `s + t`. */
  lemma LinesAppendStep(s: string, t: string)
    requires s != "" && Terminated(s)
    requires var n := LineLen(s); Lines(s[n..] + t) == Lines(s[n..]) + Lines(t)
    ensures Lines(s + t) == Lines(s) + Lines(t)
  {
    var n := LineLen(s);
    FirstLineOfAppend(s, t);
    LinesFirst(s + t);
    LinesFirst(s);
    ConsAppend(s[..n], Lines(s[n..]), Lines(t));
  }

  lemma ConsAppend<T>(x: T, b: seq<T>, c: seq<T>)
    ensures [x] + (b + c) == ([x] + b) + c
  {
  }

  /** Text appended after a line break starts new lines and leaves the earlier ones alone. */
  lemma {:induction false} LinesAppend(s: string, t: string)
    requires Terminated(s)
    ensures Lines(s + t) == Lines(s) + Lines(t)
    decreases |s|
  {
    if s == "" {
      assert s + t == t;
    } else {
      var n := LineLen(s);
      assert Terminated(s[n..]);
      LinesAppend(s[n..], t);
      LinesAppendStep(s, t);
    }
  }

  /** Text without a line break is a single line. */
  lemma LinesOfOneLine(s: string)
    requires s != "" && '\n' !in s
    ensures Lines(s) == [s]
  {
    var n := LineLen(s);
    assert n == |s|;
    assert s[..n] == s && s[n..] == "";
  }
}
