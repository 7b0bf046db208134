/**
 * The older relay (server/index.js). Its `/asr` handler builds the same
 * multipart upload (part `file`, file name `audio.webm`, the uploaded MIME
 * type) and normalises the reply by the same rules as the newer relay,
 * including the second read of the body after `json()` has failed. Its
 * `/chat` handler has no dialect switch: it always forwards the body
 * unchanged to an OpenAI-style upstream.
 */
module LegacyRelay {
  import opened Js
  import opened Http
  import Relay

  /**
   * `/asr` as written: `r.json().catch(async () => ({ text: await r.text() }))`
   * reads the body again after `json()` consumed it, so that read rejects
   * and a body that is not JSON ends in the catch.
   */
  function AsrAsWritten(url: string, file: Option<Relay.AudioFile>, upstream: Option<Fetched>, thrown: string): (r: Relay.AsrExchange)
    ensures file.None? ==> r.sent.None? && r.reply == Fail(400, "no file")
    ensures file.Some? ==> r.sent == Some(Relay.Upload(url, "file", "audio.webm", file.value.mimetype, file.value.bytes))
    ensures file.Some? && upstream.None? ==> r.reply == Fail(500, ErrorText(thrown, "asr failed"))
    ensures file.Some? && upstream.Some? && !IsOk(upstream.value) ==>
              r.reply == UpstreamFail("whisper upstream", upstream.value.text)
    ensures file.Some? && upstream.Some? && IsOk(upstream.value) && upstream.value.json.None? ==>
              r.reply == Fail(500, ErrorText(thrown, "asr failed"))
    ensures file.Some? && upstream.Some? && IsOk(upstream.value) && upstream.value.json.Some? ==>
              var d := upstream.value.json.value;
              r.reply == if d == JNull then Fail(500, ErrorText(thrown, "asr failed"))
                         else Okay(Obj2("text", JStr(Relay.Transcript(d)), "raw", d))
  {
    Relay.AsrWith(url, file, upstream, thrown, (f: Fetched) => f.json)
  }

  /** `/asr` with the fallback working as intended: a body that is not JSON is the transcript. */
  function Asr(url: string, file: Option<Relay.AudioFile>, upstream: Option<Fetched>, thrown: string): (r: Relay.AsrExchange)
    ensures file.Some? && upstream.Some? && IsOk(upstream.value) && upstream.value.json.None? ==>
              var t := upstream.value.text;
              r.reply == Okay(Obj2("text", JStr(t), "raw", Obj1("text", JStr(t))))
    ensures !(file.Some? && upstream.Some? && IsOk(upstream.value) && upstream.value.json.None?) ==>
              r == AsrAsWritten(url, file, upstream, thrown)
  {
    if upstream.Some? then
      Relay.TextOnlyTranscript(upstream.value.text);
      Relay.AsrWith(url, file, upstream, thrown, (f: Fetched) => Some(Relay.JsonOrText(f)))
    else Relay.AsrWith(url, file, upstream, thrown, (f: Fetched) => Some(Relay.JsonOrText(f)))
  }

  /** The older relay's `/asr` computes the newer relay's exchange, as written and as intended. */
  lemma AsrAgreesWithRelay(url: string, file: Option<Relay.AudioFile>, upstream: Option<Fetched>, thrown: string)
    ensures AsrAsWritten(url, file, upstream, thrown) == Relay.AsrAsWritten(url, file, upstream, thrown)
    ensures Asr(url, file, upstream, thrown) == Relay.Asr(url, file, upstream, thrown)
  {
  }

  /** A plain-text transcription reply: intended text "hi", as written a 500. */
  lemma AsrPlainTextReply(url: string, audio: Relay.AudioFile)
    ensures var f := Some(Fetched(200, "hi", None));
            && AsrAsWritten(url, Some(audio), f, "body used already").reply.status == 500
            && Asr(url, Some(audio), f, "body used already").reply
               == Okay(Obj2("text", JStr("hi"), "raw", Obj1("text", JStr("hi"))))
  {
  }

  /** `/chat`: forward `req.body || {}`, label upstream failures `llama upstream`. */
  function Chat(url: string, body: Value, upstream: Option<Fetched>, thrown: string): (r: Relay.ChatExchange)
    ensures r.sent == Relay.RequestBody(body)
    ensures upstream.None? ==> r.reply == Fail(500, ErrorText(thrown, "chat failed"))
    ensures upstream.Some? && !IsOk(upstream.value) ==> r.reply == UpstreamFail("llama upstream", upstream.value.text)
    ensures upstream.Some? && IsOk(upstream.value) && upstream.value.json.None? ==>
              r.reply == Fail(500, ErrorText(thrown, "chat failed"))
    ensures upstream.Some? && IsOk(upstream.value) && upstream.value.json.Some? ==>
              var d := upstream.value.json.value;
              r.reply == Okay(Obj2("text", Relay.OpenAiText(d), "raw", d))
  {
    Relay.ChatExchange(Relay.RequestBody(body), Relay.ChatReply(upstream, thrown, "llama upstream", Relay.OpenAiText))
  }

  /**
   * Against an OpenAI-style URL the two relays send the same body and give
   * the same reply, except that a failing upstream is labelled differently.
   */
  lemma ChatAgreesWithRelay(url: string, body: Value, upstream: Option<Fetched>, thrown: string)
    requires !Relay.IsOllama(url)
    ensures Chat(url, body, upstream, thrown).sent == Relay.Chat(url, body, upstream, thrown).sent
    ensures !(upstream.Some? && !IsOk(upstream.value)) ==>
              Chat(url, body, upstream, thrown).reply == Relay.Chat(url, body, upstream, thrown).reply
    ensures upstream.Some? && !IsOk(upstream.value) ==>
              && Chat(url, body, upstream, thrown).reply.body.fields["error"] == JStr("llama upstream")
              && Relay.Chat(url, body, upstream, thrown).reply.body.fields["error"] == JStr("llm upstream")
  {
  }
}
