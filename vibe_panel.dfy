/**
 * The browser panel (src/components/VibeCodingPlus.tsx): the choice of a
 * recording format, the handling of the relay's transcription reply, the
 * planner's parsing of a model reply into steps, and the state the panel
 * keeps as its buttons are used (plan, draft patches, status lines and
 * the intent chips).
 */
module VibePanel {
  import opened Js
  import opened Text
  import opened Http
  import LocalLlm

  // ---- recording format ----

  const MimeCandidates: seq<string> := ["audio/webm;codecs=opus", "audio/webm", "audio/mp4", "audio/ogg"]

  /**
   * The candidate loop of `captureAndTranscribe`: the first candidate the
   * browser supports, else "". `supported` is `isTypeSupported`, read as
   * false where the API is missing or throws.
   */
  method PickMimeType(candidates: seq<string>, supported: string -> bool) returns (mime: string)
    ensures (exists i :: 0 <= i < |candidates| && mime == candidates[i] && supported(candidates[i])
                         && forall j :: 0 <= j < i ==> !supported(candidates[j]))
            || (mime == "" && forall j :: 0 <= j < |candidates| ==> !supported(candidates[j]))
  {
    mime := "";
    var i := 0;
    while i < |candidates|
      invariant 0 <= i <= |candidates|
      invariant mime == ""
      invariant forall j :: 0 <= j < i ==> !supported(candidates[j])
    {
      if supported(candidates[i]) {
        mime := candidates[i];
        break;
      }
      i := i + 1;
    }
  }

  /** `mimeType ? { mimeType } : undefined`. */
  function RecorderOptions(mime: string): (r: Option<string>)
    ensures r.Some? <==> mime != ""
    ensures r.Some? ==> r.value == mime
  {
    if mime != "" then Some(mime) else None
  }

  // ---- transcription reply ----

  /** What reaches the callbacks: `onFinal(text)` or `onError(message)`. */
  datatype Transcription = Final(text: Json) | Failed(message: string)

  /** `data?.text || ''`. */
  function TextOrEmpty(data: Json): (r: Json)
    ensures Truthy(Get(Some(data), "text")) ==> Some(r) == Get(Some(data), "text")
    ensures !Truthy(Get(Some(data), "text")) ==> r == JStr("")
  {
    Or(Get(Some(data), "text"), Some(JStr(""))).value
  }

  /**
   * The `/asr` reply as the recorder's stop handler reads it, with the
   * non-JSON fallback as intended: the raw body becomes the text.
   */
  function ClientTranscript(reply: Option<Fetched>, thrown: string): (r: Transcription)
    ensures reply.None? ==> r == Failed(ErrorText(thrown, "transcription failed"))
    ensures reply.Some? && !IsOk(reply.value) ==> r == Failed("ASR upstream " + IntToString(reply.value.status))
    ensures reply.Some? && IsOk(reply.value) && reply.value.json.Some? ==> r == Final(TextOrEmpty(reply.value.json.value))
    ensures reply.Some? && IsOk(reply.value) && reply.value.json.None? ==> r == Final(JStr(reply.value.text))
  {
    if reply.None? then Failed(ErrorText(thrown, "transcription failed"))
    else if !IsOk(reply.value) then Failed("ASR upstream " + IntToString(reply.value.status))
    else if reply.value.json.Some? then Final(TextOrEmpty(reply.value.json.value))
    else Final(JStr(reply.value.text))
  }

  /**
   * As written: the fallback `r.text()` runs after `r.json()` consumed the
   * body, so it rejects and a non-JSON reply reaches `onError`.
   */
  function ClientTranscriptAsWritten(reply: Option<Fetched>, thrown: string): (r: Transcription)
    ensures reply.Some? && IsOk(reply.value) && reply.value.json.None? ==>
              r == Failed(ErrorText(thrown, "transcription failed"))
    ensures !(reply.Some? && IsOk(reply.value) && reply.value.json.None?) ==> r == ClientTranscript(reply, thrown)
  {
    if reply.Some? && IsOk(reply.value) && reply.value.json.None? then Failed(ErrorText(thrown, "transcription failed"))
    else ClientTranscript(reply, thrown)
  }

  /** A plain-text reply "hello": intended, it is the transcript; as written, an error. */
  lemma PlainTextTranscript()
    ensures ClientTranscript(Some(Fetched(200, "hello", None)), "Body is unusable") == Final(JStr("hello"))
    ensures ClientTranscriptAsWritten(Some(Fetched(200, "hello", None)), "Body is unusable").Failed?
  {
  }

  // ---- planner ----

  const DefaultSteps: seq<string> := ["Locate component", "Introduce debounce", "Add loading indicator", "Update tests"]

  const PlannerPrompt := "You are a senior engineer. Return a short, numbered plan. Do NOT include <think> text."

  /** The planner request: the configured model at temperature 0.2, a system then a user message. */
  function PlannerRequest(task: string, files: seq<string>): (r: LocalLlm.PlanRequest)
    ensures r.model == LocalLlm.Model && r.temperature == 0.2
    ensures |r.messages| == 2 && r.messages[0] == LocalLlm.ChatMessage("system", PlannerPrompt)
    ensures r.messages[1] == LocalLlm.ChatMessage("user", "Task: " + task + "\nFiles: " + Join(files, ", "))
  {
    LocalLlm.PlanRequest(LocalLlm.Model, 0.2,
      [LocalLlm.ChatMessage("system", PlannerPrompt),
       LocalLlm.ChatMessage("user", "Task: " + task + "\nFiles: " + Join(files, ", "))])
  }

  /** Where `\s*\d+` followed by `c` matches from `p`: the index of `c`. */
  function NumberThen(s: string, p: nat, c: char): Option<nat>
    requires p <= |s|
  {
    var q := SkipSpaces(s, p);
    var d := SkipDigits(s, q);
    if q < d < |s| && s[d] == c then Some(d) else None
  }

  /** The end of a match of `^\s*\d+\)\s*`, when the line starts with one. */
  function ParenAtStart(s: string): Option<nat>
  {
    match NumberThen(s, 0, ')')
    case None => None
    case Some(d) => Some(SkipSpaces(s, d + 1))
  }

  /** The end of a match of `\s*\d+\.\s*` starting at `p`, when there is one. */
  function DotAt(s: string, p: nat): Option<nat>
    requires p <= |s|
  {
    match NumberThen(s, p, '.')
    case None => None
    case Some(d) => Some(SkipSpaces(s, d + 1))
  }

  /** The leftmost start at or after `p` where `\s*\d+\.\s*` matches, with the end of that match. */
  function FirstDot(s: string, p: nat): (r: Option<(nat, nat)>)
    requires p <= |s|
    ensures r.Some? ==> p <= r.value.0 <= |s| && DotAt(s, r.value.0) == Some(r.value.1)
    ensures r.Some? ==> forall q :: p <= q < r.value.0 ==> DotAt(s, q).None?
    ensures r.None? ==> forall q :: p <= q <= |s| ==> DotAt(s, q).None?
    decreases |s| - p
  {
    var here := DotAt(s, p);
    if here.Some? then Some((p, here.value))
    else if p == |s| then None
    else FirstDot(s, p + 1)
  }

  /**
   * `s.replace(/^\s*\d+\)\s*|\s*\d+\.\s*\/, '')` as written: one match goes,
   * a leading `N)` or else the leftmost `N.` anywhere in the line, because
   * `^` anchors only the first alternative.
   */
  function StripNumberingAsWritten(s: string): string
  {
    if ParenAtStart(s).Some? then s[ParenAtStart(s).value..]
    else
      match FirstDot(s, 0)
      case None => s
      case Some((a, b)) => s[..a] + s[b..]
  }

  /** The rule the pattern evidently means: only a leading `N)` or `N.` goes. */
  function StripNumbering(s: string): string
  {
    if ParenAtStart(s).Some? then s[ParenAtStart(s).value..]
    else if DotAt(s, 0).Some? then s[DotAt(s, 0).value..]
    else s
  }

  /** The as-written replacement removes exactly one match: a leading `N)`, else the leftmost `N.`. */
  lemma StripNumberingAsWrittenShape(s: string)
    ensures ParenAtStart(s).Some? ==> StripNumberingAsWritten(s) == s[ParenAtStart(s).value..]
    ensures ParenAtStart(s).None? && FirstDot(s, 0).Some? ==>
              var (a, b) := FirstDot(s, 0).value;
              && StripNumberingAsWritten(s) == s[..a] + s[b..]
              && (forall q :: 0 <= q < a ==> DotAt(s, q).None?)
    ensures ParenAtStart(s).None? && FirstDot(s, 0).None? ==> StripNumberingAsWritten(s) == s
  {
  }

  /** The intended rule keeps a suffix of the line, and the line itself when it has no leading number. */
  lemma StripNumberingShape(s: string)
    ensures |StripNumbering(s)| <= |s| && StripNumbering(s) == s[|s| - |StripNumbering(s)|..]
    ensures ParenAtStart(s).None? && DotAt(s, 0).None? ==> StripNumbering(s) == s
  {
  }

  /** The line starts with `N)`, or its leftmost `N.` is at its start, or it has none. */
  predicate RulesAgree(s: string)
  {
    ParenAtStart(s).Some? || FirstDot(s, 0).None? || FirstDot(s, 0).value.0 == 0
  }

  /** The two rules agree on a line that meets `RulesAgree`. */
  lemma StripNumberingAgrees(s: string)
    requires RulesAgree(s)
    ensures StripNumberingAsWritten(s) == StripNumbering(s)
  {
    if ParenAtStart(s).None? && FirstDot(s, 0).Some? {
      var b := FirstDot(s, 0).value.1;
      assert s[..0] + s[b..] == s[b..];
    }
  }

  /** A version number inside a step: as written, "v2.0" loses "2.". */
  lemma VersionNumberMangled()
    ensures StripNumberingAsWritten("v2.0") == "v0"
  {
    var s := "v2.0";
    assert SkipSpaces(s, 0) == 0 && SkipDigits(s, 0) == 0;
    assert ParenAtStart(s) == None && DotAt(s, 0) == None;
    assert SkipSpaces(s, 1) == 1 && SkipDigits(s, 1) == 2 && SkipSpaces(s, 3) == 3;
    assert DotAt(s, 1) == Some(3);
    assert FirstDot(s, 0) == Some((1, 3));
    assert s[..1] + s[3..] == "v0";
  }

  /** Under the anchored rule the same step is kept whole. */
  lemma VersionNumberKept()
    ensures StripNumbering("v2.0") == "v2.0"
  {
    var s := "v2.0";
    assert SkipSpaces(s, 0) == 0 && SkipDigits(s, 0) == 0;
    assert NumberThen(s, 0, ')') == None && NumberThen(s, 0, '.') == None;
  }

  /** One line as a planner step. */
  function StepOf(line: string): string
  {
    Trim(StripNumbering(line))
  }

  /** The shape of a line numbered `N` then `mark` then one space. */
  lemma NumberedLine(n: string, mark: char, rest: string)
    requires n != "" && forall k :: 0 <= k < |n| ==> IsDigit(n[k])
    requires mark == ')' || mark == '.'
    requires rest != [] ==> !IsSpace(rest[0])
    ensures var s := n + [mark, ' '] + rest;
            && NumberThen(s, 0, mark) == Some(|n|)
            && NumberThen(s, 0, if mark == ')' then '.' else ')') == None
            && SkipSpaces(s, |n| + 1) == |n| + 2
            && s[|n| + 2..] == rest
  {
    var s := n + [mark, ' '] + rest;
    assert s[|n|] == mark;
    assert s[|n| + 1] == ' ';
    assert SkipSpaces(s, 0) == 0 by {
      assert s[0] == n[0];
    }
    assert SkipDigits(s, 0) == |n| by {
      assert forall k :: 0 <= k < |n| ==> s[k] == n[k];
      LocalLlm.SkipDigitsRun(s, 0, |n|);
    }
    assert s[|n| + 2..] == rest;
    assert rest != [] ==> s[|n| + 2] == rest[0];
  }

  /** A line numbered `N) ` or `N. ` becomes its text. */
  lemma NumberedStep(n: string, mark: char, rest: string)
    requires n != "" && forall k :: 0 <= k < |n| ==> IsDigit(n[k])
    requires mark == ')' || mark == '.'
    requires rest != [] ==> !IsSpace(rest[0]) && !IsSpace(rest[|rest| - 1])
    ensures StepOf(n + [mark, ' '] + rest) == rest
  {
    var s := n + [mark, ' '] + rest;
    NumberedLine(n, mark, rest);
    assert StripNumbering(s) == rest;
    TrimmedIsFixed(rest);
  }

  /** The as-written pattern also strips a leading `N) ` or `N. `. */
  lemma NumberedStepAsWritten(n: string, mark: char, rest: string)
    requires n != "" && forall k :: 0 <= k < |n| ==> IsDigit(n[k])
    requires mark == ')' || mark == '.'
    requires rest != [] ==> !IsSpace(rest[0]) && !IsSpace(rest[|rest| - 1])
    ensures Trim(StripNumberingAsWritten(n + [mark, ' '] + rest)) == rest
  {
    var s := n + [mark, ' '] + rest;
    NumberedLine(n, mark, rest);
    if mark == '.' {
      assert DotAt(s, 0).Some?;
      assert FirstDot(s, 0).value.0 == 0;
    } else {
      assert ParenAtStart(s).Some?;
    }
    StripNumberingAgrees(s);
    NumberedStep(n, mark, rest);
  }

  /** One line as a planner step as the program computes it: the unanchored replacement, then `trim()`. */
  function StepOfAsWritten(line: string): string
  {
    Trim(StripNumberingAsWritten(line))
  }

  /** A step has no whitespace at either end, under either rule. */
  lemma StepOfTrimmed(line: string)
    ensures var t := StepOfAsWritten(line); t != "" ==> !IsSpace(t[0]) && !IsSpace(t[|t| - 1])
    ensures var t := StepOf(line); t != "" ==> !IsSpace(t[0]) && !IsSpace(t[|t| - 1])
  {
    var w := StripNumberingAsWritten(line);
    assert StepOfAsWritten(line) == Trim(w);
    var m := StripNumbering(line);
    assert StepOf(line) == Trim(m);
  }

  /** The planner's chain as written: `text.split('\n').map(StepOfAsWritten).filter(Boolean)`. */
  function PlanStepsAsWritten(text: string): seq<string>
  {
    LocalLlm.NonEmpty(LocalLlm.MapAll(StepOfAsWritten, Split(text, '\n')))
  }

  /** The same chain under the intended, anchored rule. */
  function PlanSteps(text: string): seq<string>
  {
    LocalLlm.NonEmpty(LocalLlm.MapAll(StepOf, Split(text, '\n')))
  }

  /** Every planner step, as written and as intended, is non-empty and has no whitespace at either end. */
  lemma PlanStepsAreTrimmed(text: string)
    ensures forall i :: 0 <= i < |PlanStepsAsWritten(text)| ==>
              var t := PlanStepsAsWritten(text)[i];
              t != "" && !IsSpace(t[0]) && !IsSpace(t[|t| - 1])
    ensures forall i :: 0 <= i < |PlanSteps(text)| ==>
              var t := PlanSteps(text)[i];
              t != "" && !IsSpace(t[0]) && !IsSpace(t[|t| - 1])
  {
    forall x
      ensures StepOfAsWritten(x) != "" ==> !IsSpace(StepOfAsWritten(x)[0]) && !IsSpace(StepOfAsWritten(x)[|StepOfAsWritten(x)| - 1])
      ensures StepOf(x) != "" ==> !IsSpace(StepOf(x)[0]) && !IsSpace(StepOf(x)[|StepOf(x)| - 1])
    {
      StepOfTrimmed(x);
    }
    LocalLlm.KeptAreTrimmed(StepOfAsWritten, Split(text, '\n'));
    LocalLlm.KeptAreTrimmed(StepOf, Split(text, '\n'));
  }

  /** The two chains give the same steps when every line of the text meets `RulesAgree`. */
  lemma PlanStepsAgree(text: string)
    requires forall i :: 0 <= i < |Split(text, '\n')| ==> RulesAgree(Split(text, '\n')[i])
    ensures PlanStepsAsWritten(text) == PlanSteps(text)
  {
    var lines := Split(text, '\n');
    forall i | 0 <= i < |lines|
      ensures StepOfAsWritten(lines[i]) == StepOf(lines[i])
    {
      StripNumberingAgrees(lines[i]);
    }
    assert LocalLlm.MapAll(StepOfAsWritten, lines) == LocalLlm.MapAll(StepOf, lines);
  }

  /** A reply whose one line is "v2.0": as written the step is "v0", as intended "v2.0". */
  lemma VersionStep()
    ensures PlanStepsAsWritten("v2.0") == ["v0"]
    ensures PlanSteps("v2.0") == ["v2.0"]
  {
    SplitNoSeparator("v2.0", '\n');
    VersionNumberMangled();
    VersionNumberKept();
    TrimmedIsFixed("v0");
    TrimmedIsFixed("v2.0");
    assert LocalLlm.MapAll(StepOfAsWritten, ["v2.0"]) == ["v0"];
    assert LocalLlm.MapAll(StepOf, ["v2.0"]) == ["v2.0"];
    assert ["v0"][1..] == [];
    assert ["v2.0"][1..] == [];
  }

  /** `data?.text || data?.choices?.[0]?.message?.content || ''`. */
  function PlannerText(data: Json): (r: Json)
    ensures Truthy(Get(Some(data), "text")) ==> Some(r) == Get(Some(data), "text")
    ensures !Truthy(Get(Some(data), "text")) ==>
              var content := Get(Get(First(Get(Some(data), "choices")), "message"), "content");
              r == if Truthy(content) then content.value else JStr("")
  {
    var content := Get(Get(First(Get(Some(data), "choices")), "message"), "content");
    Or(Or(Get(Some(data), "text"), content), Some(JStr(""))).value
  }

  /** The outcome of `planWithLLM`: a plan, or the message of what it threw. */
  datatype PlanOutcome = Planned(plan: LocalLlm.Plan) | Threw(message: string)

  /** `planWithLLM` with the text-to-steps chain `steps`. */
  function PlanWith(reply: Option<Fetched>, thrown: string, steps: string -> seq<string>): PlanOutcome
  {
    if reply.None? then Threw(thrown)
    else if !IsOk(reply.value) then Threw(reply.value.text)
    else
      var data := if reply.value.json.Some? then reply.value.json.value else JObj(map[]);
      var text := PlannerText(data);
      if !text.JStr? then Threw(thrown)
      else
        var found := steps(text.s);
        Planned(LocalLlm.Plan(if found != [] then found else DefaultSteps, "~45s", ["debounce can swallow keystrokes"]))
  }

  /**
   * `planWithLLM` as written, given what `/chat` answered (None when the
   * `fetch` rejected) and the message of a `TypeError` it raised. A non-ok
   * reply throws its own body text; a body that is not JSON reads as `{}`;
   * a text that is not a string has no `split` and throws.
   */
  function PlanWithLlm(reply: Option<Fetched>, thrown: string): (r: PlanOutcome)
    ensures reply.None? ==> r == Threw(thrown)
    ensures reply.Some? && !IsOk(reply.value) ==> r == Threw(reply.value.text)
    ensures reply.Some? && IsOk(reply.value) ==>
              var data := if reply.value.json.Some? then reply.value.json.value else JObj(map[]);
              var text := PlannerText(data);
              && (!text.JStr? ==> r == Threw(thrown))
              && (text.JStr? ==> r.Planned? && r.plan.estTime == "~45s"
                                 && r.plan.risks == ["debounce can swallow keystrokes"]
                                 && r.plan.steps == if PlanStepsAsWritten(text.s) != [] then PlanStepsAsWritten(text.s) else DefaultSteps)
    ensures r.Planned? ==> r.plan.steps != []
  {
    PlanWith(reply, thrown, PlanStepsAsWritten)
  }

  /** `planWithLLM` with the intended, anchored numbering rule. */
  function PlanWithLlmIntended(reply: Option<Fetched>, thrown: string): (r: PlanOutcome)
    ensures reply.None? ==> r == Threw(thrown)
    ensures reply.Some? && !IsOk(reply.value) ==> r == Threw(reply.value.text)
    ensures reply.Some? && IsOk(reply.value) ==>
              var data := if reply.value.json.Some? then reply.value.json.value else JObj(map[]);
              var text := PlannerText(data);
              && (!text.JStr? ==> r == Threw(thrown))
              && (text.JStr? ==> r.Planned? && r.plan.estTime == "~45s"
                                 && r.plan.risks == ["debounce can swallow keystrokes"]
                                 && r.plan.steps == if PlanSteps(text.s) != [] then PlanSteps(text.s) else DefaultSteps)
    ensures r.Planned? ==> r.plan.steps != []
  {
    PlanWith(reply, thrown, PlanSteps)
  }

  /** A `/chat` reply with the text "v2.0": as written it plans the step "v0", as intended "v2.0". */
  lemma VersionStepPlanned()
    ensures var reply := Some(Fetched(200, "", Some(Obj1("text", JStr("v2.0")))));
            && PlanWithLlm(reply, "") == Planned(LocalLlm.Plan(["v0"], "~45s", ["debounce can swallow keystrokes"]))
            && PlanWithLlmIntended(reply, "") == Planned(LocalLlm.Plan(["v2.0"], "~45s", ["debounce can swallow keystrokes"]))
  {
    var d := Obj1("text", JStr("v2.0"));
    assert Get(Some(d), "text") == Some(JStr("v2.0"));
    assert PlannerText(d) == JStr("v2.0");
    VersionStep();
  }

  /** A reply whose body is not JSON plans with the default steps, as written and as intended. */
  lemma NonJsonPlansDefault(f: Fetched, thrown: string)
    requires IsOk(f) && f.json.None?
    ensures PlanWithLlm(Some(f), thrown) == Planned(LocalLlm.Plan(DefaultSteps, "~45s", ["debounce can swallow keystrokes"]))
    ensures PlanWithLlmIntended(Some(f), thrown) == Planned(LocalLlm.Plan(DefaultSteps, "~45s", ["debounce can swallow keystrokes"]))
  {
    var text := PlannerText(JObj(map[]));
    assert text == JStr("");
    assert Split("", '\n') == [""];
    assert LocalLlm.MapAll(StepOf, [""]) == [StepOf("")];
    assert LocalLlm.MapAll(StepOfAsWritten, [""]) == [StepOfAsWritten("")];
    assert StripNumbering("") == "";
    assert FirstDot("", 0) == None;
    assert StripNumberingAsWritten("") == "";
    AllSpacesTrimEmpty("");
  }

  /** `handlePlan`: the planned plan, or the default steps flagged as a planner error. */
  function PlanAfter(outcome: PlanOutcome): (p: LocalLlm.Plan)
    ensures outcome.Planned? ==> p == outcome.plan
    ensures outcome.Threw? ==> p == LocalLlm.Plan(DefaultSteps, "~45s", ["planner error; using default plan"])
    ensures p.steps != [] || outcome.Planned?
  {
    if outcome.Planned? then outcome.plan
    else LocalLlm.Plan(DefaultSteps, "~45s", ["planner error; using default plan"])
  }

  // ---- panel state ----

  datatype Intent = Intent(task: string, files: seq<string>, constraints: seq<string>, model: string)

  const InitialIntent := Intent("Add debounce to search input and show loading state",
                                ["src/components/SearchBox.tsx"], ["typescript", "no external deps"], "Local (private)")

  const InitialPlan := LocalLlm.Plan(DefaultSteps, "~45s", ["debounce can swallow keystrokes"])

  /** The parsed body of a reply: None for a failed `fetch`, `fallback` for a body that is not JSON. */
  function BodyOr(reply: Option<Fetched>, fallback: Json): (r: Option<Json>)
    ensures reply.None? <==> r.None?
    ensures reply.Some? && reply.value.json.Some? ==> r == reply.value.json
    ensures reply.Some? && reply.value.json.None? ==> r == Some(fallback)
  {
    if reply.None? then None
    else if reply.value.json.Some? then reply.value.json
    else Some(fallback)
  }

  /** The new draft patches after a preview: the reply's `results` when that is an array. */
  function PreviewedPatches(reply: Option<Fetched>): (r: Option<seq<Json>>)
    ensures r.Some? <==> reply.Some? && IsOk(reply.value) && reply.value.json.Some?
                         && Get(reply.value.json, "results").Some? && Get(reply.value.json, "results").value.JArr?
    ensures r.Some? ==> Get(reply.value.json, "results") == Some(JArr(r.value))
  {
    if reply.None? || !IsOk(reply.value) then None
    else
      var results := Get(BodyOr(reply, JObj(map[])), "results");
      if results.Some? && results.value.JArr? then Some(results.value.items) else None
  }

  /** The status line after a preview. */
  function PreviewMessage(reply: Option<Fetched>): (r: string)
    ensures reply.None? || !IsOk(reply.value) ==> r == "Preview failed"
    ensures PreviewedPatches(reply).Some? ==> r == "Preview refreshed from disk ✓"
    ensures reply.Some? && IsOk(reply.value) && PreviewedPatches(reply).None? ==> r == "Preview returned no results"
  {
    if reply.None? || !IsOk(reply.value) then "Preview failed"
    else if PreviewedPatches(reply).Some? then "Preview refreshed from disk ✓"
    else "Preview returned no results"
  }

  /** The status line after an apply: success needs an ok status and a truthy `ok` member. */
  function ApplyMessage(reply: Option<Fetched>): (r: string)
    ensures r == "Applied ✓" <==> reply.Some? && IsOk(reply.value) && Truthy(Get(reply.value.json, "ok"))
    ensures r != "Applied ✓" ==> r == "Apply failed"
  {
    if reply.Some? && IsOk(reply.value) && Truthy(Get(reply.value.json, "ok")) then "Applied ✓" else "Apply failed"
  }

  /** The test status line: the mark, ` exit <code>`, a newline, then `stdout || stderr || ''`. */
  function TestMessage(reply: Option<Fetched>): (r: string)
    ensures reply.None? || !IsOk(reply.value) || !Truthy(reply.value.json) ==> r == "Tests failed to run"
    ensures reply.Some? && IsOk(reply.value) && Truthy(reply.value.json) ==>
              var j := reply.value.json;
              var mark := if Truthy(Get(j, "ok")) then "✅" else "❌";
              var output := Or(Or(Get(j, "stdout"), Get(j, "stderr")), Some(JStr("")));
              r == mark + " exit " + Template(Get(j, "code")) + "\n" + Template(output)
  {
    if reply.None? || !IsOk(reply.value) || !Truthy(reply.value.json) then "Tests failed to run"
    else
      var j := reply.value.json;
      var mark := if Truthy(Get(j, "ok")) then "✅" else "❌";
      var output := Or(Or(Get(j, "stdout"), Get(j, "stderr")), Some(JStr("")));
      mark + " exit " + Template(Get(j, "code")) + "\n" + Template(output)
  }

  /** A run the relay reports with exit 0 and some output shows a tick, `exit 0` and that output. */
  lemma PassingRunMessage(out: string)
    requires out != ""
    ensures var body := JObj(map["ok" := JBool(true), "code" := JNum(0), "stdout" := JStr(out), "stderr" := JStr("")]);
            TestMessage(Some(Fetched(200, "", Some(body)))) == "✅" + " exit " + "0" + "\n" + out
  {
  }

  /** The panel's state: only what the handlers below change or read. */
  class Panel {
    var intent: Intent
    var plan: LocalLlm.Plan
    var patches: seq<Json>
    var applyStatus: string
    var testStatus: string

    /** The panel as first shown, with `patches` as the example draft. */
    constructor (patches: seq<Json>)
      ensures intent == InitialIntent && plan == InitialPlan && this.patches == patches
      ensures applyStatus == "" && testStatus == ""
    {
      intent := InitialIntent;
      plan := InitialPlan;
      this.patches := patches;
      applyStatus := "";
      testStatus := "";
    }

    /** `handlePlan`. */
    method HandlePlan(outcome: PlanOutcome)
      modifies this
      ensures plan == PlanAfter(outcome)
      ensures intent == old(intent) && patches == old(patches)
      ensures applyStatus == old(applyStatus) && testStatus == old(testStatus)
    {
      plan := PlanAfter(outcome);
    }

    /** `previewPatch`: sends the draft, then replaces it only when the reply has a `results` array. */
    method PreviewPatch(reply: Option<Fetched>) returns (sent: Json)
      modifies this
      ensures sent == Obj1("patches", JArr(old(patches)))
      ensures PreviewedPatches(reply).Some? ==> patches == PreviewedPatches(reply).value
      ensures PreviewedPatches(reply).None? ==> patches == old(patches)
      ensures applyStatus == PreviewMessage(reply)
      ensures intent == old(intent) && plan == old(plan) && testStatus == old(testStatus)
    {
      sent := Obj1("patches", JArr(patches));
      applyStatus := "";
      var results := PreviewedPatches(reply);
      if results.Some? {
        patches := results.value;
      }
      applyStatus := PreviewMessage(reply);
    }

    /** `applyPatch`: sends the draft and reports the outcome. */
    method ApplyPatch(reply: Option<Fetched>) returns (sent: Json)
      modifies this
      ensures sent == Obj1("patches", JArr(patches))
      ensures applyStatus == ApplyMessage(reply)
      ensures intent == old(intent) && plan == old(plan) && patches == old(patches) && testStatus == old(testStatus)
    {
      applyStatus := "Applying…";
      sent := Obj1("patches", JArr(patches));
      applyStatus := ApplyMessage(reply);
    }

    /** `runTests`: posts `{}` and shows the result. */
    method RunTests(reply: Option<Fetched>) returns (sent: Json)
      modifies this
      ensures sent == JObj(map[])
      ensures testStatus == TestMessage(reply)
      ensures intent == old(intent) && plan == old(plan) && patches == old(patches) && applyStatus == old(applyStatus)
    {
      testStatus := "Running tests…";
      sent := JObj(map[]);
      testStatus := TestMessage(reply);
    }

    /** Removing a file chip drops every entry equal to it; nothing else changes. */
    method RemoveFile(f: string)
      modifies this
      ensures intent == old(intent).(files := Without(old(intent).files, f))
      ensures f !in intent.files
      ensures forall g :: g != f ==> multiset(intent.files)[g] == multiset(old(intent).files)[g]
      ensures plan == old(plan) && patches == old(patches)
      ensures applyStatus == old(applyStatus) && testStatus == old(testStatus)
    {
      intent := intent.(files := Without(intent.files, f));
    }

    /** Removing a constraint chip drops every entry equal to it; nothing else changes. */
    method RemoveConstraint(c: string)
      modifies this
      ensures intent == old(intent).(constraints := Without(old(intent).constraints, c))
      ensures c !in intent.constraints
      ensures plan == old(plan) && patches == old(patches)
      ensures applyStatus == old(applyStatus) && testStatus == old(testStatus)
    {
      intent := intent.(constraints := Without(intent.constraints, c));
    }
  }
}
