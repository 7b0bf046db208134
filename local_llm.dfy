/**
 * The browser's planner client (src/lib/localLlm.ts, `makePlan`): it asks
 * the relay's `/chat` for a plan and turns the free-text answer into at
 * most six steps, or gives a fixed plan when anything goes wrong.
 */
module LocalLlm {
  import opened Js
  import opened Text
  import opened Http

  datatype ChatMessage = ChatMessage(role: string, content: string)

  datatype Plan = Plan(steps: seq<string>, estTime: string, risks: seq<string>)

  /** The request body `{ model, temperature, messages }`. */
  datatype PlanRequest = PlanRequest(model: string, temperature: real, messages: seq<ChatMessage>)

  /** `Config.llamaModel` (src/lib/config.ts). */
  const Model := "gpt-4.1-mini"

  const SystemPrompt := "You are a senior engineer that produces short, actionable implementation plans for code edits."

  const DefaultReplyText := "1) " + "Analyze files" + "\n" + "2) " + "Implement change" + "\n" + "3) " + "Run tests"

  const MaxSteps := 6

  const FallbackPlan := Plan(["Open target file", "Implement change", "Run unit tests", "Review diff"], "~45s", ["possible type errors"])

  /** The user message, `Task: <task>` and `Context files: <files joined by ", ">` on two lines. */
  function UserContent(task: string, context: seq<string>): (r: string)
    ensures StartsWith(r, "Task: " + task + "\n")
    ensures r[|"Task: " + task + "\n"|..] == "Context files: " + Join(context, ", ")
  {
    var head := "Task: " + task + "\n";
    var r := head + "Context files: " + Join(context, ", ");
    assert r[..|head|] == head;
    r
  }

  /** The request `makePlan` sends: the configured model at temperature 0.2, a system then a user message. */
  function Request(task: string, context: seq<string>): (r: PlanRequest)
    ensures r.model == Model && r.temperature == 0.2
    ensures |r.messages| == 2 && r.messages[0] == ChatMessage("system", SystemPrompt)
    ensures r.messages[1].role == "user" && r.messages[1].content == UserContent(task, context)
  {
    PlanRequest(Model, 0.2, [ChatMessage("system", SystemPrompt), ChatMessage("user", UserContent(task, context))])
  }

  /** The index just past the run of newlines that starts at `i`. */
  function SkipNewlines(s: string, i: nat): (j: nat)
    requires i <= |s|
    ensures i <= j <= |s|
    ensures forall k :: i <= k < j ==> s[k] == '\n'
    ensures j < |s| ==> s[j] != '\n'
    decreases |s| - i
  {
    if i < |s| && s[i] == '\n' then SkipNewlines(s, i + 1) else i
  }

  /**
   * `s.split(/\n+/)`: the pieces between maximal runs of newlines. No piece
   * holds a newline, and only the first and the last piece can be empty.
   */
  function SplitRuns(s: string): (r: seq<string>)
    ensures |r| > 0
    ensures forall i :: 0 <= i < |r| ==> '\n' !in r[i]
    ensures forall i :: 0 < i < |r| - 1 ==> r[i] != ""
    ensures s != [] ==> (r[0] == "" <==> s[0] == '\n')
    decreases |s|
  {
    if s == [] then [""]
    else if s[0] == '\n' then
      var j := SkipNewlines(s, 0);
      [""] + SplitRuns(s[j..])
    else
      var rest := SplitRuns(s[1..]);
      [[s[0]] + rest[0]] + rest[1..]
  }

  /** `s.replace(/^\d+\)\s*\/, '')`: a leading `N)` and the whitespace after it go. */
  function StripParen(s: string): string
  {
    var j := SkipDigits(s, 0);
    if 0 < j < |s| && s[j] == ')' then s[SkipSpaces(s, j + 1)..] else s
  }

  /**
   * What the replacement leaves: a suffix of the line; the line itself when
   * it does not start with a digit; otherwise, when something went, the
   * line started with digits and then ")".
   */
  lemma StripParenShape(s: string)
    ensures var r := StripParen(s);
            && |r| <= |s| && r == s[|s| - |r|..]
            && (s == [] || !IsDigit(s[0]) ==> r == s)
            && (r != s ==> exists j :: 0 < j < |s| && s[j] == ')' && (forall k :: 0 <= k < j ==> IsDigit(s[k])))
  {
  }

  /** One line as a step: numbering stripped, then trimmed. */
  function Tidy(line: string): string
  {
    Trim(StripParen(line))
  }

  /** `.map(f)`. */
  function MapAll(f: string -> string, lines: seq<string>): (r: seq<string>)
    ensures |r| == |lines| && forall i :: 0 <= i < |lines| ==> r[i] == f(lines[i])
  {
    seq(|lines|, i requires 0 <= i < |lines| => f(lines[i]))
  }

  /** `.map(Tidy)`. */
  function TidyAll(lines: seq<string>): seq<string>
  {
    MapAll(Tidy, lines)
  }

  /** `.filter(Boolean)`: the non-empty strings, in order. */
  function NonEmpty(xs: seq<string>): (r: seq<string>)
    ensures |r| <= |xs|
    ensures forall i :: 0 <= i < |r| ==> r[i] != "" && r[i] in xs
    decreases |xs|
  {
    if xs == [] then []
    else if xs[0] != "" then [xs[0]] + NonEmpty(xs[1..])
    else NonEmpty(xs[1..])
  }

  /** The lines as steps: tidied, blanks dropped. */
  function CleanSteps(lines: seq<string>): seq<string>
  {
    NonEmpty(TidyAll(lines))
  }

  lemma TidyAllAppend(a: seq<string>, b: seq<string>)
    ensures TidyAll(a + b) == TidyAll(a) + TidyAll(b)
  {
    MapAllAppend(Tidy, a, b);
  }

  /** Mapping works element by element, so it distributes over concatenation. */
  lemma MapAllAppend(f: string -> string, a: seq<string>, b: seq<string>)
    ensures MapAll(f, a + b) == MapAll(f, a) + MapAll(f, b)
  {
    forall i | 0 <= i < |a + b|
      ensures MapAll(f, a + b)[i] == (MapAll(f, a) + MapAll(f, b))[i]
    {
      if i < |a| {
        assert (a + b)[i] == a[i];
      } else {
        assert (a + b)[i] == b[i - |a|];
      }
    }
  }

  lemma {:induction false} NonEmptyAppend(a: seq<string>, b: seq<string>)
    ensures NonEmpty(a + b) == NonEmpty(a) + NonEmpty(b)
    decreases |a|
  {
    if a == [] {
      assert a + b == b;
    } else {
      assert (a + b)[0] == a[0] && (a + b)[1..] == a[1..] + b;
      NonEmptyAppend(a[1..], b);
    }
  }

  /** Every step is non-empty and has no whitespace at either end. */
  lemma StepsAreTrimmed(lines: seq<string>)
    ensures forall i :: 0 <= i < |CleanSteps(lines)| ==>
              var t := CleanSteps(lines)[i];
              t != "" && !IsSpace(t[0]) && !IsSpace(t[|t| - 1])
  {
    KeptAreTrimmed(Tidy, lines);
  }

  /** When `f` always yields trimmed text, so does every element kept after mapping with `f`. */
  lemma KeptAreTrimmed(f: string -> string, lines: seq<string>)
    requires forall x :: f(x) != "" ==> !IsSpace(f(x)[0]) && !IsSpace(f(x)[|f(x)| - 1])
    ensures forall i :: 0 <= i < |NonEmpty(MapAll(f, lines))| ==>
              var t := NonEmpty(MapAll(f, lines))[i];
              t != "" && !IsSpace(t[0]) && !IsSpace(t[|t| - 1])
  {
    var ts := MapAll(f, lines);
    forall i | 0 <= i < |NonEmpty(ts)|
      ensures var t := NonEmpty(ts)[i]; t != "" && !IsSpace(t[0]) && !IsSpace(t[|t| - 1])
    {
      var t := NonEmpty(ts)[i];
      assert t in ts;
      var k :| 0 <= k < |ts| && ts[k] == t;
      assert t == f(lines[k]);
    }
  }

  /** One line gives its tidied form, unless that is blank. */
  lemma CleanOne(line: string)
    ensures CleanSteps([line]) == if Tidy(line) != "" then [Tidy(line)] else []
  {
    assert [line][1..] == [];
    assert TidyAll([line]) == [Tidy(line)];
  }

  /** The split-map-filter chain works piece by piece: it distributes over concatenation, which keeps the order. */
  lemma CleanStepsAppend(a: seq<string>, b: seq<string>)
    ensures CleanSteps(a + b) == CleanSteps(a) + CleanSteps(b)
  {
    TidyAllAppend(a, b);
    NonEmptyAppend(TidyAll(a), TidyAll(b));
  }

  /** `steps.slice(0, n)`. */
  function Take(xs: seq<string>, n: nat): (r: seq<string>)
    ensures |r| <= n && |r| <= |xs|
    ensures r == xs[..|r|]
    ensures |xs| <= n ==> r == xs
    ensures |xs| > n ==> |r| == n
  {
    if |xs| <= n then xs else xs[..n]
  }

  /** The steps of a reply text. */
  function StepsOf(text: string): (r: seq<string>)
    ensures |r| <= MaxSteps && |r| <= |CleanSteps(SplitRuns(text))|
    ensures r == CleanSteps(SplitRuns(text))[..|r|]
    ensures |CleanSteps(SplitRuns(text))| <= MaxSteps ==> r == CleanSteps(SplitRuns(text))
    ensures |CleanSteps(SplitRuns(text))| > MaxSteps ==> |r| == MaxSteps
  {
    Take(CleanSteps(SplitRuns(text)), MaxSteps)
  }

  /** `data?.text || DefaultReplyText`. */
  function ReplyText(data: Json): (r: Json)
    ensures Truthy(Get(Some(data), "text")) ==> Some(r) == Get(Some(data), "text")
    ensures !Truthy(Get(Some(data), "text")) ==> r == JStr(DefaultReplyText)
  {
    Or(Get(Some(data), "text"), Some(JStr(DefaultReplyText))).value
  }

  /**
   * `makePlan` given what `/chat` answered (None when the `fetch` rejected).
   * A non-ok status, a body that is not JSON and a text that is not a
   * string (it has no `split`) all throw and give the fallback plan.
   */
  function MakePlan(reply: Option<Fetched>): (p: Plan)
    ensures reply.None? || !IsOk(reply.value) || reply.value.json.None? ==> p == FallbackPlan
    ensures reply.Some? && IsOk(reply.value) && reply.value.json.Some? ==>
              var text := ReplyText(reply.value.json.value);
              && (text.JStr? ==> p == Plan(StepsOf(text.s), "~1m", ["validate test coverage"]))
              && (!text.JStr? ==> p == FallbackPlan)
    ensures |p.steps| <= MaxSteps
  {
    if reply.None? || !IsOk(reply.value) || reply.value.json.None? then FallbackPlan
    else
      var text := ReplyText(reply.value.json.value);
      if text.JStr? then Plan(StepsOf(text.s), "~1m", ["validate test coverage"]) else FallbackPlan
  }

  // ---- properties ----

  /** Numbering stripped from a single line with no trailing blank. */
  lemma TidyNumbered(n: string, rest: string)
    requires n != "" && forall k :: 0 <= k < |n| ==> IsDigit(n[k])
    requires rest != [] ==> !IsSpace(rest[0]) && !IsSpace(rest[|rest| - 1])
    ensures Tidy(n + ") " + rest) == rest
  {
    var s := n + ") " + rest;
    assert s[|n|] == ')';
    assert s[|n| + 1] == ' ';
    assert SkipDigits(s, 0) == |n| by {
      assert forall k :: 0 <= k < |n| ==> s[k] == n[k];
      SkipDigitsRun(s, 0, |n|);
    }
    assert s[|n| + 2..] == rest;
    assert rest != [] ==> s[|n| + 2] == rest[0];
    assert SkipSpaces(s, |n| + 1) == |n| + 2;
    TrimmedIsFixed(rest);
  }

  lemma {:induction false} SkipDigitsRun(s: string, i: nat, j: nat)
    requires i <= j < |s| && !IsDigit(s[j])
    requires forall k :: i <= k < j ==> IsDigit(s[k])
    ensures SkipDigits(s, i) == j
    decreases j - i
  {
    if i < j {
      SkipDigitsRun(s, i + 1, j);
    }
  }

  /** A blank line contributes no step. */
  lemma BlankLineDropped(rest: seq<string>)
    ensures CleanSteps([""] + rest) == CleanSteps(rest)
  {
    assert Tidy("") == "" by {
      assert StripParen("") == "";
      AllSpacesTrimEmpty("");
    }
    assert TidyAll([""]) == [""];
    TidyAllAppend([""], rest);
    var xs := [""] + TidyAll(rest);
    assert xs[1..] == TidyAll(rest);
  }

  /** Splitting on single newlines: each further newline adds one blank piece. */
  lemma {:induction false} NewlinesAddEmptyPieces(s: string, i: nat, j: nat)
    requires i <= j <= |s| && forall k :: i <= k < j ==> s[k] == '\n'
    ensures CleanSteps(Split(s[i..], '\n')) == CleanSteps(Split(s[j..], '\n'))
    decreases j - i
  {
    if i < j {
      assert s[i..][0] == '\n' && s[i..][1..] == s[i + 1..];
      assert Split(s[i..], '\n') == [""] + Split(s[i + 1..], '\n');
      BlankLineDropped(Split(s[i + 1..], '\n'));
      NewlinesAddEmptyPieces(s, i + 1, j);
    }
  }

  /**
   * Splitting on runs of newlines and splitting on each newline agree on
   * the first piece, and give the same steps from the rest: the extra
   * pieces single splitting makes are all empty, and empty lines are
   * dropped.
   */
  lemma {:induction false} SplitRunsMatchesSplit(s: string)
    ensures SplitRuns(s)[0] == Split(s, '\n')[0]
    ensures CleanSteps(SplitRuns(s)[1..]) == CleanSteps(Split(s, '\n')[1..])
    decreases |s|
  {
    if s != [] {
      if s[0] == '\n' {
        var j := SkipNewlines(s, 0);
        SplitRunsMatchesSplit(s[j..]);
        var r := SplitRuns(s[j..]);
        var q := Split(s[j..], '\n');
        assert SplitRuns(s)[1..] == r;
        assert Split(s, '\n')[1..] == Split(s[1..], '\n');
        assert CleanSteps(r) == CleanSteps(q) by {
          assert r == [r[0]] + r[1..] && q == [q[0]] + q[1..];
          CleanStepsAppend([r[0]], r[1..]);
          CleanStepsAppend([q[0]], q[1..]);
        }
        NewlinesAddEmptyPieces(s, 1, j);
      } else {
        SplitRunsMatchesSplit(s[1..]);
      }
    }
  }

  /** Hence the steps are those of the lines of the text. */
  lemma StepsOfLines(s: string)
    ensures CleanSteps(SplitRuns(s)) == CleanSteps(Split(s, '\n'))
  {
    SplitRunsMatchesSplit(s);
    var r := SplitRuns(s);
    var q := Split(s, '\n');
    assert r == [r[0]] + r[1..] && q == [q[0]] + q[1..];
    CleanStepsAppend([r[0]], r[1..]);
    CleanStepsAppend([q[0]], q[1..]);
  }

  /** Three lines without newlines in them, joined by single newlines. */
  lemma ThreeLines(a: string, b: string, c: string)
    requires '\n' !in a && '\n' !in b && '\n' !in c
    ensures Split(a + ['\n'] + (b + ['\n'] + c), '\n') == [a, b, c]
  {
    SplitNoSeparator(a, '\n');
    SplitNoSeparator(b, '\n');
    SplitNoSeparator(c, '\n');
    SplitAppend(b, c, '\n');
    SplitAppend(a, b + ['\n'] + c, '\n');
  }

  /** Three lines that tidy to non-blank steps give those steps, in order. */
  lemma ThreeSteps(a: string, b: string, c: string)
    requires Tidy(a) != "" && Tidy(b) != "" && Tidy(c) != ""
    ensures CleanSteps([a, b, c]) == [Tidy(a), Tidy(b), Tidy(c)]
  {
    MapThree(Tidy, a, b, c);
  }

  /** Mapping three lines then dropping blanks keeps all three when none maps to "". */
  lemma MapThree(f: string -> string, a: string, b: string, c: string)
    requires f(a) != "" && f(b) != "" && f(c) != ""
    ensures NonEmpty(MapAll(f, [a, b, c])) == [f(a), f(b), f(c)]
  {
    var t := [f(a), f(b), f(c)];
    assert MapAll(f, [a, b, c]) == t;
    NonEmptyKeepsAll(t);
  }

  /** Filtering a list with no empty string in it keeps it whole. */
  lemma {:induction false} NonEmptyKeepsAll(xs: seq<string>)
    requires forall i :: 0 <= i < |xs| ==> xs[i] != ""
    ensures NonEmpty(xs) == xs
    decreases |xs|
  {
    if xs != [] {
      NonEmptyKeepsAll(xs[1..]);
    }
  }

  /** A numbered line tidies to its text. */
  lemma TidyLine(line: string, n: string, text: string)
    requires n != "" && forall k :: 0 <= k < |n| ==> IsDigit(n[k])
    requires text != "" && !IsSpace(text[0]) && !IsSpace(text[|text| - 1])
    requires line == n + ") " + text
    ensures Tidy(line) == text
  {
    TidyNumbered(n, text);
  }

  /** Three numbered lines give their texts as steps. */
  lemma NumberedLines(la: string, lb: string, lc: string, a: string, b: string, c: string)
    requires a != "" && !IsSpace(a[0]) && !IsSpace(a[|a| - 1]) && la == "1" + ") " + a
    requires b != "" && !IsSpace(b[0]) && !IsSpace(b[|b| - 1]) && lb == "2" + ") " + b
    requires c != "" && !IsSpace(c[0]) && !IsSpace(c[|c| - 1]) && lc == "3" + ") " + c
    ensures CleanSteps([la, lb, lc]) == [a, b, c]
  {
    TidyLine(la, "1", a);
    TidyLine(lb, "2", b);
    TidyLine(lc, "3", c);
    ThreeSteps(la, lb, lc);
  }

  /** Three numbered lines joined by newlines give their three texts as steps. */
  lemma NumberedSteps(t: string, a: string, b: string, c: string)
    requires a != "" && '\n' !in a && !IsSpace(a[0]) && !IsSpace(a[|a| - 1])
    requires b != "" && '\n' !in b && !IsSpace(b[0]) && !IsSpace(b[|b| - 1])
    requires c != "" && '\n' !in c && !IsSpace(c[0]) && !IsSpace(c[|c| - 1])
    requires t == "1) " + a + "\n" + "2) " + b + "\n" + "3) " + c
    ensures StepsOf(t) == [a, b, c]
  {
    NumberedText(t, a, b, c);
    StepsOfLines(t);
  }

  /** The same for the lines of the text. */
  lemma NumberedText(t: string, a: string, b: string, c: string)
    requires a != "" && '\n' !in a && !IsSpace(a[0]) && !IsSpace(a[|a| - 1])
    requires b != "" && '\n' !in b && !IsSpace(b[0]) && !IsSpace(b[|b| - 1])
    requires c != "" && '\n' !in c && !IsSpace(c[0]) && !IsSpace(c[|c| - 1])
    requires t == "1) " + a + "\n" + "2) " + b + "\n" + "3) " + c
    ensures CleanSteps(Split(t, '\n')) == [a, b, c]
  {
    var la, lb, lc := "1) " + a, "2) " + b, "3) " + c;
    assert t == la + ['\n'] + (lb + ['\n'] + lc);
    assert '\n' !in la && '\n' !in lb && '\n' !in lc;
    ThreeLines(la, lb, lc);
    NumberedLines(la, lb, lc, a, b, c);
  }

  /** The built-in reply gives the three default steps. */
  lemma DefaultReplySteps()
    ensures StepsOf(DefaultReplyText) == ["Analyze files", "Implement change", "Run tests"]
  {
    var a, b, c := "Analyze files", "Implement change", "Run tests";
    NumberedSteps(DefaultReplyText, a, b, c);
  }

  /** A truthy text with no words in it gives a plan with no steps, not the fallback. */
  lemma BlankReplyGivesNoSteps()
    ensures MakePlan(Some(Fetched(200, "", Some(Obj1("text", JStr("\n")))))) == Plan([], "~1m", ["validate test coverage"])
  {
    var d := Obj1("text", JStr("\n"));
    assert Get(Some(d), "text") == Some(JStr("\n"));
    assert SplitRuns("\n") == ["", ""];
    BlankLineDropped([""]);
    BlankLineDropped([]);
  }
}
