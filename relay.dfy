/**
 * The relay's upstream handlers (server/index.mjs): `/asr` forwards an
 * audio upload to the transcription server and normalises its reply,
 * `/chat` forwards a chat request in one of two dialects, `/asr/health`
 * probes the transcription server, and `/test/run` reports a command's
 * exit.
 *
 * Each handler is a function of the request, of what the upstream `fetch`
 * produced (None when the `fetch` itself rejected) and of `thrown`, the
 * message of the error that reached the handler's `catch`, if one did.
 * The result records what was sent upstream as well as the reply.
 */
module Relay {
  import opened Js
  import opened Text
  import opened Http

  const DefaultWhisperUrl := "http://127.0.0.1:8080/transcribe"
  const DefaultLlamaUrl := "http://127.0.0.1:8081/v1/chat/completions"

  /** `process.env.NAME || fallback`: an unset or empty variable falls back. */
  function Setting(env: Option<string>, fallback: string): (r: string)
    ensures env.Some? && env.value != "" ==> r == env.value
    ensures env.None? || env.value == "" ==> r == fallback
  {
    if env.Some? && env.value != "" then env.value else fallback
  }

  // ---- /asr ----

  /** The file multer parsed from the `audio` part. */
  datatype AudioFile = AudioFile(bytes: seq<bv8>, mimetype: string)

  /** The multipart upload sent to the transcription server. */
  datatype Upload = Upload(url: string, field: string, filename: string, contentType: string, bytes: seq<bv8>)

  datatype AsrExchange = AsrExchange(sent: Option<Upload>, reply: Reply)

  /** The reply members tried for the transcript, in order. */
  const TranscriptKeys: seq<string> := ["text", "result", "transcript"]

  /** The reference rule: the value of the first key of `keys` whose member in `data` is truthy. */
  function FirstTruthy(data: Json, keys: seq<string>): (r: Value)
    ensures r.Some? ==> Truthy(r)
    ensures r.Some? ==> exists i :: 0 <= i < |keys| && Get(Some(data), keys[i]) == r
    ensures r.None? ==> forall i :: 0 <= i < |keys| ==> !Truthy(Get(Some(data), keys[i]))
    decreases |keys|
  {
    if keys == [] then None
    else if Truthy(Get(Some(data), keys[0])) then Get(Some(data), keys[0])
    else
      var rest := FirstTruthy(data, keys[1..]);
      assert forall i :: 1 <= i < |keys| ==> keys[1..][i - 1] == keys[i];
      rest
  }

  /** `(data.text || data.result || data.transcript || '').toString()`. */
  function Transcript(data: Json): string
  {
    var v := Or(Or(Or(Get(Some(data), "text"), Get(Some(data), "result")), Get(Some(data), "transcript")), Some(JStr("")));
    ToStr(v.value)
  }

  /** The transcript is the string form of the first truthy of the three members, else "". */
  lemma TranscriptIsFirstTruthy(data: Json)
    ensures var v := FirstTruthy(data, TranscriptKeys);
            Transcript(data) == if v.Some? then ToStr(v.value) else ""
  {
    var ks := TranscriptKeys;
    assert ks[1..] == ["result", "transcript"] && ks[1..][1..] == ["transcript"] && ks[1..][1..][1..] == [];
  }

  /**
   * The reply once the body has been read: `data` is the value reading
   * produced, None when reading threw. A `null` body throws at `data.text`.
   */
  function AsrNormalised(data: Option<Json>, thrown: string): (r: Reply)
    ensures data.Some? && data.value != JNull ==>
              r == Okay(Obj2("text", JStr(Transcript(data.value)), "raw", data.value))
    ensures data.None? || data.value == JNull ==> r == Fail(500, ErrorText(thrown, "asr failed"))
  {
    if data.None? || data.value == JNull then Fail(500, ErrorText(thrown, "asr failed"))
    else Okay(Obj2("text", JStr(Transcript(data.value)), "raw", data.value))
  }

  /** The steps of `/asr` up to reading the body, which `data` performs. */
  function AsrWith(url: string, file: Option<AudioFile>, upstream: Option<Fetched>, thrown: string,
                   data: Fetched -> Option<Json>): AsrExchange
  {
    if file.None? then AsrExchange(None, Fail(400, "no file"))
    else
      var sent := Some(Upload(url, "file", "audio.webm", file.value.mimetype, file.value.bytes));
      if upstream.None? then AsrExchange(sent, Fail(500, ErrorText(thrown, "asr failed")))
      else if !IsOk(upstream.value) then AsrExchange(sent, UpstreamFail("whisper upstream", upstream.value.text))
      else AsrExchange(sent, AsrNormalised(data(upstream.value), thrown))
  }

  /** The intended body rule: the parsed JSON, or `{ text: <body> }` when it is not JSON. */
  function JsonOrText(f: Fetched): (r: Json)
    ensures f.json.Some? ==> r == f.json.value
    ensures f.json.None? ==> r == Obj1("text", JStr(f.text))
  {
    if f.json.Some? then f.json.value else Obj1("text", JStr(f.text))
  }

  /**
   * As written, the fallback reads the body a second time after `json()`
   * consumed it; that read rejects, so a non-JSON body ends in the catch.
   */
  function AsrAsWritten(url: string, file: Option<AudioFile>, upstream: Option<Fetched>, thrown: string): (r: AsrExchange)
    ensures upstream.Some? && IsOk(upstream.value) && upstream.value.json.None? && file.Some? ==>
              r.reply == Fail(500, ErrorText(thrown, "asr failed"))
  {
    AsrWith(url, file, upstream, thrown, (f: Fetched) => f.json)
  }

  /** `/asr` with the non-JSON fallback working as intended. */
  function Asr(url: string, file: Option<AudioFile>, upstream: Option<Fetched>, thrown: string): (r: AsrExchange)
    ensures file.None? ==> r.sent.None? && r.reply == Fail(400, "no file")
    ensures file.Some? ==> r.sent == Some(Upload(url, "file", "audio.webm", file.value.mimetype, file.value.bytes))
    ensures file.Some? && upstream.None? ==> r.reply == Fail(500, ErrorText(thrown, "asr failed"))
    ensures file.Some? && upstream.Some? && !IsOk(upstream.value) ==>
              r.reply == UpstreamFail("whisper upstream", upstream.value.text)
    ensures file.Some? && upstream.Some? && IsOk(upstream.value) && upstream.value.json.None? ==>
              var raw := Obj1("text", JStr(upstream.value.text));
              r.reply == Okay(Obj2("text", JStr(upstream.value.text), "raw", raw))
    ensures file.Some? && upstream.Some? && IsOk(upstream.value) && upstream.value.json.Some?
            && upstream.value.json.value != JNull ==>
              var d := upstream.value.json.value;
              r.reply == Okay(Obj2("text", JStr(Transcript(d)), "raw", d))
  {
    if upstream.Some? then
      TextOnlyTranscript(upstream.value.text);
      AsrWith(url, file, upstream, thrown, (f: Fetched) => Some(JsonOrText(f)))
    else AsrWith(url, file, upstream, thrown, (f: Fetched) => Some(JsonOrText(f)))
  }

  /** A body that was not JSON comes back as its own transcript. */
  lemma TextOnlyTranscript(t: string)
    ensures Transcript(Obj1("text", JStr(t))) == t
  {
    assert Get(Some(Obj1("text", JStr(t))), "text") == Some(JStr(t));
  }

  /** The two agree except on an ok upstream whose body is not JSON. */
  lemma AsrAsWrittenAgrees(url: string, file: Option<AudioFile>, upstream: Option<Fetched>, thrown: string)
    requires !(file.Some? && upstream.Some? && IsOk(upstream.value) && upstream.value.json.None?)
    ensures AsrAsWritten(url, file, upstream, thrown) == Asr(url, file, upstream, thrown)
  {
  }

  /** A plain-text transcription reply: intended text "hi", as written a 500. */
  lemma AsrPlainTextReply(url: string, audio: AudioFile)
    ensures var f := Some(Fetched(200, "hi", None));
            && AsrAsWritten(url, Some(audio), f, "Body is unusable").reply.status == 500
            && Asr(url, Some(audio), f, "Body is unusable").reply
               == Okay(Obj2("text", JStr("hi"), "raw", Obj1("text", JStr("hi"))))
  {
  }

  /** A reply with only `transcript` gives that transcript. */
  lemma TranscriptFallsThrough(s: string)
    requires s != ""
    ensures Transcript(Obj2("text", JStr(""), "transcript", JStr(s))) == s
  {
    var d := Obj2("text", JStr(""), "transcript", JStr(s));
    assert Get(Some(d), "text") == Some(JStr(""));
    assert Get(Some(d), "result") == None;
    assert Get(Some(d), "transcript") == Some(JStr(s));
  }

  // ---- /chat ----

  datatype ChatExchange = ChatExchange(sent: Json, reply: Reply)

  /** `req.body || {}`. */
  function RequestBody(body: Value): (r: Json)
    ensures Truthy(body) ==> r == body.value
    ensures !Truthy(body) ==> r == JObj(map[])
  {
    Or(body, Some(JObj(map[]))).value
  }

  /** An upstream URL speaks the Ollama dialect when it contains "/api/chat". */
  predicate IsOllama(url: string)
  {
    Contains(url, "/api/chat")
  }

  /**
   * The Ollama request `{ model: body.model, messages: body.messages || [],
   * stream: false }` as `JSON.stringify` writes it: an undefined `model` is
   * dropped.
   */
  function OllamaRequest(body: Json): (r: Json)
    ensures r.JObj? && "messages" in r.fields && "stream" in r.fields
    ensures r.fields["stream"] == JBool(false)
    ensures r.fields["messages"] == Or(Get(Some(body), "messages"), Some(JArr([]))).value
    ensures "model" in r.fields <==> Get(Some(body), "model").Some?
    ensures "model" in r.fields ==> Some(r.fields["model"]) == Get(Some(body), "model")
    ensures r.fields.Keys <= {"model", "messages", "stream"}
  {
    var base := map["messages" := Or(Get(Some(body), "messages"), Some(JArr([]))).value, "stream" := JBool(false)];
    var model := Get(Some(body), "model");
    JObj(if model.Some? then base["model" := model.value] else base)
  }

  /** `v || ''` for a reply member. */
  function OrEmpty(v: Value): (r: Json)
    ensures Truthy(v) ==> r == v.value
    ensures !Truthy(v) ==> r == JStr("")
  {
    Or(v, Some(JStr(""))).value
  }

  /** `data?.message?.content || ''`. */
  function OllamaText(data: Json): Json
  {
    OrEmpty(Get(Get(Some(data), "message"), "content"))
  }

  /** `data?.choices?.[0]?.message?.content || ''`. */
  function OpenAiText(data: Json): Json
  {
    OrEmpty(Get(Get(First(Get(Some(data), "choices")), "message"), "content"))
  }

  /** After the request has been sent: the reply for the upstream's answer. */
  function ChatReply(upstream: Option<Fetched>, thrown: string, source: string, text: Json -> Json): (r: Reply)
    ensures upstream.None? ==> r == Fail(500, ErrorText(thrown, "chat failed"))
    ensures upstream.Some? && !IsOk(upstream.value) ==> r == UpstreamFail(source, upstream.value.text)
    ensures upstream.Some? && IsOk(upstream.value) && upstream.value.json.None? ==>
              r == Fail(500, ErrorText(thrown, "chat failed"))
    ensures upstream.Some? && IsOk(upstream.value) && upstream.value.json.Some? ==>
              var d := upstream.value.json.value;
              r == Okay(Obj2("text", text(d), "raw", d))
  {
    if upstream.None? then Fail(500, ErrorText(thrown, "chat failed"))
    else if !IsOk(upstream.value) then UpstreamFail(source, upstream.value.text)
    else if upstream.value.json.None? then Fail(500, ErrorText(thrown, "chat failed"))
    else
      var d := upstream.value.json.value;
      Okay(Obj2("text", text(d), "raw", d))
  }

  /** `/chat` against the upstream at `url`. */
  function Chat(url: string, body: Value, upstream: Option<Fetched>, thrown: string): (r: ChatExchange)
    ensures IsOllama(url) ==>
              && r.sent == OllamaRequest(RequestBody(body))
              && r.reply == ChatReply(upstream, thrown, "ollama upstream", OllamaText)
    ensures !IsOllama(url) ==>
              && r.sent == RequestBody(body)
              && r.reply == ChatReply(upstream, thrown, "llm upstream", OpenAiText)
  {
    var b := RequestBody(body);
    if IsOllama(url) then ChatExchange(OllamaRequest(b), ChatReply(upstream, thrown, "ollama upstream", OllamaText))
    else ChatExchange(b, ChatReply(upstream, thrown, "llm upstream", OpenAiText))
  }

  /** The Ollama text is the reply's `message.content` when truthy, else "". */
  lemma OllamaTextRule(content: Json, rest: map<string, Json>)
    ensures var data := JObj(rest["message" := Obj1("content", content)]);
            OllamaText(data) == if Truthy(Some(content)) then content else JStr("")
  {
  }

  /** The OpenAI-style text is the first choice's `message.content` when truthy, else "". */
  lemma OpenAiTextRule(content: Json, more: seq<Json>)
    ensures var data := Obj1("choices", JArr([Obj1("message", Obj1("content", content))] + more));
            OpenAiText(data) == if Truthy(Some(content)) then content else JStr("")
  {
    var data := Obj1("choices", JArr([Obj1("message", Obj1("content", content))] + more));
    assert Get(Some(data), "choices") == Some(JArr([Obj1("message", Obj1("content", content))] + more));
  }

  /** Without choices, or with an empty list of them, the OpenAI-style text is "". */
  lemma OpenAiTextMissing(data: Json)
    requires Get(Some(data), "choices").None? || Get(Some(data), "choices") == Some(JArr([]))
    ensures OpenAiText(data) == JStr("")
  {
  }

  /** With the default upstream URL the body goes out unchanged. */
  lemma DefaultChatForwards(body: Value, upstream: Option<Fetched>, thrown: string)
    ensures Chat(DefaultLlamaUrl, body, upstream, thrown).sent == RequestBody(body)
  {
    NotOllamaDefault();
  }

  lemma NotOllamaDefault()
    ensures !IsOllama(DefaultLlamaUrl)
  {
    forall j | 0 <= j && j + 1 < |DefaultLlamaUrl|
      ensures !(DefaultLlamaUrl[j] == '/' && DefaultLlamaUrl[j + 1] == 'a')
    {
      NoSlashA(j);
    }
    NoSlashApi(DefaultLlamaUrl, 0);
  }

  /** In the default URL no "/" is followed by "a". */
  lemma NoSlashA(i: nat)
    requires i + 1 < |DefaultLlamaUrl|
    ensures !(DefaultLlamaUrl[i] == '/' && DefaultLlamaUrl[i + 1] == 'a')
  {
  }

  /** A string in which no "/" is followed by "a" contains "/api/chat" nowhere from `i` on. */
  lemma {:induction false} NoSlashApi(u: string, i: nat)
    requires forall j :: 0 <= j && j + 1 < |u| ==> !(u[j] == '/' && u[j + 1] == 'a')
    requires i <= |u|
    ensures !Contains(u[i..], "/api/chat")
    decreases |u| - i
  {
    if i < |u| {
      NoSlashApi(u, i + 1);
      assert u[i..][1..] == u[i + 1..];
      if i + 9 <= |u| {
        assert u[i..][0] == u[i] && u[i..][1] == u[i + 1];
      }
    } else {
      assert u[i..] == [];
    }
  }

  // ---- /asr/health ----

  datatype HealthExchange = HealthExchange(probes: seq<string>, reply: Reply)

  /** `/asr/health` given the outcome of the GET and, if made, of the OPTIONS probe. */
  function Health(get: Option<Fetched>, options: Option<Fetched>): (r: HealthExchange)
    ensures r.probes == if get.Some? then ["GET"] else ["GET", "OPTIONS"]
    ensures get.Some? || options.Some?
            <==> r.reply.status == 200 && r.reply.body.JObj? && "ok" in r.reply.body.fields
                 && r.reply.body.fields["ok"] == JBool(true)
    ensures get.None? && options.None? <==> r.reply == Reply(502, Obj2("ok", JBool(false), "error", JStr("unreachable")))
  {
    if get.Some? then HealthExchange(["GET"], Okay(Obj2("ok", JBool(true), "status", JNum(get.value.status))))
    else if options.Some? then HealthExchange(["GET", "OPTIONS"], Okay(Obj2("ok", JBool(true), "status", JNum(options.value.status))))
    else HealthExchange(["GET", "OPTIONS"], Reply(502, Obj2("ok", JBool(false), "error", JStr("unreachable"))))
  }

  /** Any answer at all, with any status, counts as reachable and its status is reported. */
  lemma AnyStatusIsReachable(f: Fetched, options: Option<Fetched>)
    ensures Health(Some(f), options).reply == Okay(Obj2("ok", JBool(true), "status", JNum(f.status)))
  {
  }

  // ---- /test/run ----

  const DefaultTestCommand := "npx vitest run --reporter=basic"

  /** `req.body?.cmd || 'npx vitest run --reporter=basic'`. */
  function TestCommand(body: Value): (r: Json)
    ensures Truthy(Get(body, "cmd")) ==> Some(r) == Get(body, "cmd")
    ensures !Truthy(Get(body, "cmd")) ==> r == JStr(DefaultTestCommand)
  {
    Or(Get(body, "cmd"), Some(JStr(DefaultTestCommand))).value
  }

  /** The reply on `close`: the exit code is null when a signal ended the child. */
  function TestReply(code: Option<int>, stdout: string, stderr: string): (r: Reply)
    ensures r.status == 200 && r.body.JObj? && r.body.fields.Keys == {"ok", "code", "stdout", "stderr"}
    ensures r.body.fields["ok"] == JBool(code == Some(0))
    ensures r.body.fields["code"] == if code.Some? then JNum(code.value) else JNull
    ensures r.body.fields["stdout"] == JStr(stdout) && r.body.fields["stderr"] == JStr(stderr)
  {
    Okay(JObj(map["ok" := JBool(code == Some(0)),
                  "code" := if code.Some? then JNum(code.value) else JNull,
                  "stdout" := JStr(stdout),
                  "stderr" := JStr(stderr)]))
  }
}
