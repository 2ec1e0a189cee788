/**
 * The v3 streamed speech-synthesis call: the request, and the loop over the
 * response lines that collects the base64 audio parts, stopping at the
 * end-of-stream code and failing at any other non-zero code. Each line
 * comes with what JSON decoding made of it; the HTTP exchange is an input.
 */
module TtsApi {
  import opened Wrappers
  import opened Text
  import AppConfig

  const FinishCode := 20000000

  datatype V3Response = V3Response(code: int, message: string, data: string)

  /** One line of the body and what JSON decoding made of it once trimmed. */
  datatype Line = Line(text: string, parsed: Option<V3Response>)

  datatype V3Request = V3Request(
    uid: string, namespace: string, text: string, speaker: string,
    format: string, sampleRate: int, bitRate: int)

  /** The request `TTS` sends: the fixed user and namespace, the default voice and encoding, 24 kHz at 64 kbit/s. */
  function BuildRequest(text: string): (r: V3Request)
    ensures r.text == text && r.speaker == AppConfig.DefaultVoice && r.format == AppConfig.DefaultEncoding
    ensures r.uid == AppConfig.TTSUID && r.namespace == AppConfig.TTSNamespace
    ensures r.sampleRate == 24000 && r.bitRate == 64000
  {
    V3Request(AppConfig.TTSUID, AppConfig.TTSNamespace, text, AppConfig.DefaultVoice, AppConfig.DefaultEncoding, 24000, 64000)
  }

  /** The headers `TTS` sends; `reqID` is the fresh request id. */
  function BuildHeaders(appID: string, accessKey: string, reqID: string): (h: map<string, string>)
    ensures h.Keys == {"Content-Type", "X-Api-App-Id", "X-Api-Access-Key", "X-Api-Resource-Id", "X-Api-Request-Id"}
    ensures h["X-Api-Resource-Id"] == AppConfig.TTSResourceID && h["X-Api-Request-Id"] == reqID
    ensures h["X-Api-App-Id"] == appID && h["X-Api-Access-Key"] == accessKey && h["Content-Type"] == "application/json"
  {
    map["Content-Type" := "application/json", "X-Api-App-Id" := appID, "X-Api-Access-Key" := accessKey,
        "X-Api-Resource-Id" := AppConfig.TTSResourceID, "X-Api-Request-Id" := reqID]
  }

  /** What one line does to the loop: fail it, or add parts and perhaps end it. */
  datatype Effect = Take(parts: seq<string>, ends: bool) | Abort(error: string)

  /**
   * A line blank once trimmed, or not valid JSON, is skipped; a code other
   * than 0 and the end-of-stream code aborts with the code and message;
   * otherwise its data, when there is any, is a part, and the
   * end-of-stream code ends the loop.
   */
  function EffectOf(l: Line): Effect {
    if TrimSpace(l.text) == "" || l.parsed.None? then Take([], false)
    else if l.parsed.value.code != 0 && l.parsed.value.code != FinishCode then
      Abort("TTS API error: code=" + Itoa(l.parsed.value.code) + ", message=" + l.parsed.value.message)
    else Take(if l.parsed.value.data != "" then [l.parsed.value.data] else [], l.parsed.value.code == FinishCode)
  }

  /** `p` in front of a successful result; a failure stays as it is. */
  function Prepend(p: seq<string>, r: Result<seq<string>>): Result<seq<string>> {
    match r
    case Err(e) => Err(e)
    case Ok(v) => Ok(p + v)
  }

  lemma PrependPrepend(a: seq<string>, b: seq<string>, r: Result<seq<string>>)
    ensures Prepend(a, Prepend(b, r)) == Prepend(a + b, r)
  {
    if r.Ok? {
      assert a + (b + r.value) == a + b + r.value;
    }
  }

  /**
   * The loop's outcome: the first aborting line fails it; otherwise the
   * parts, in order, up to and including the first end-of-stream line.
   */
  function Parts(lines: seq<Line>): Result<seq<string>>
    decreases |lines|
  {
    if |lines| == 0 then Ok([])
    else match EffectOf(lines[0])
      case Abort(e) => Err(e)
      case Take(p, ends) => if ends then Ok(p) else Prepend(p, Parts(lines[1..]))
  }

  /** Whether the loop passes over a line: it neither aborts nor ends. */
  predicate PassesOver(l: Line) {
    EffectOf(l).Take? && !EffectOf(l).ends
  }

  /** The parts of every line of `a`, in order. */
  function PartsOfAll(a: seq<Line>): seq<string>
    requires forall k :: 0 <= k < |a| ==> PassesOver(a[k])
    decreases |a|
  {
    if |a| == 0 then [] else assert PassesOver(a[0]); EffectOf(a[0]).parts + PartsOfAll(a[1..])
  }

  /** Lines the loop passes over add their parts in front of whatever follows. */
  lemma {:induction false} PartsAppend(a: seq<Line>, b: seq<Line>)
    requires forall k :: 0 <= k < |a| ==> PassesOver(a[k])
    ensures Parts(a + b) == Prepend(PartsOfAll(a), Parts(b))
    decreases |a|
  {
    if |a| == 0 {
      assert a + b == b;
      if Parts(b).Ok? {
        assert [] + Parts(b).value == Parts(b).value;
      }
    } else {
      assert (a + b)[0] == a[0];
      assert (a + b)[1..] == a[1..] + b;
      PartsAppend(a[1..], b);
      PrependPrepend(EffectOf(a[0]).parts, PartsOfAll(a[1..]), Parts(b));
    }
  }

  /** A failure after the end-of-stream line is never seen, and the lines after it add nothing. */
  lemma EndHidesLaterLines(a: seq<Line>, end: Line, b: seq<Line>)
    requires forall k :: 0 <= k < |a| ==> PassesOver(a[k])
    requires EffectOf(end).Take? && EffectOf(end).ends
    ensures Parts(a + [end] + b) == Ok(PartsOfAll(a) + EffectOf(end).parts)
  {
    PartsAppend(a, [end] + b);
    assert a + [end] + b == a + ([end] + b);
    assert ([end] + b)[0] == end;
  }

  /** The first aborting line decides the outcome, whatever follows it. */
  lemma AbortWins(a: seq<Line>, bad: Line, b: seq<Line>)
    requires forall k :: 0 <= k < |a| ==> PassesOver(a[k])
    requires EffectOf(bad).Abort?
    ensures Parts(a + [bad] + b) == Err(EffectOf(bad).error)
  {
    PartsAppend(a, [bad] + b);
    assert a + [bad] + b == a + ([bad] + b);
    assert ([bad] + b)[0] == bad;
  }

  /** `TTS`'s result from the lines: the failure, no parts, or the parts joined with nothing between them. */
  function TtsResult(lines: seq<Line>, readError: Option<string>): (r: Result<string>)
    ensures r.Ok? ==> Parts(lines).Ok? && |Parts(lines).value| > 0 && r.value == Concat(Parts(lines).value)
    ensures Parts(lines).Err? ==> r == Err(Parts(lines).error)
  {
    match Parts(lines)
    case Err(e) => Err(e)
    case Ok(parts) =>
      if readError.Some? then Err("failed to read response: " + readError.value)
      else if |parts| == 0 then Err("no audio data returned from TTS API")
      else Ok(Concat(parts))
  }

  lemma PartsStep(lines: seq<Line>, i: nat)
    requires i < |lines|
    ensures Parts(lines[i..]) == match EffectOf(lines[i])
      case Abort(e) => Err(e)
      case Take(p, ends) => if ends then Ok(p) else Prepend(p, Parts(lines[i + 1..]))
  {
    assert lines[i..][0] == lines[i] && lines[i..][1..] == lines[i + 1..];
  }

  /** The scanner loop of `TTS`: the parts, or the first aborting line's error. */
  method CollectParts(lines: seq<Line>) returns (r: Result<seq<string>>)
    ensures r == Parts(lines)
  {
    var parts: seq<string> := [];
    var i := 0;
    assert lines[0..] == lines;
    if Parts(lines).Ok? {
      assert [] + Parts(lines).value == Parts(lines).value;
    }
    while i < |lines|
      invariant 0 <= i <= |lines|
      invariant Parts(lines) == Prepend(parts, Parts(lines[i..]))
      decreases |lines| - i
    {
      var line := lines[i];
      PartsStep(lines, i);
      if TrimSpace(line.text) == "" || line.parsed.None? {
        PrependPrepend(parts, [], Parts(lines[i + 1..]));
        assert parts + [] == parts;
        i := i + 1;
        continue;
      }
      var resp := line.parsed.value;
      if resp.code != 0 && resp.code != FinishCode {
        return Err("TTS API error: code=" + Itoa(resp.code) + ", message=" + resp.message);
      }
      var before := parts;
      if resp.data != "" {
        parts := parts + [resp.data];
      }
      assert parts == before + EffectOf(line).parts;
      if resp.code == FinishCode {
        return Ok(parts);
      }
      PrependPrepend(before, EffectOf(line).parts, Parts(lines[i + 1..]));
      i := i + 1;
    }
    assert lines[i..] == [] && parts + [] == parts;
    r := Ok(parts);
  }

  /**
   * `TTS`: a failed HTTP request is an error; otherwise the scanner loop
   * over the body. `requestError` is what the HTTP client reported,
   * `readError` what the scanner reports at the end.
   */
  method TTS(requestError: Option<string>, lines: seq<Line>, readError: Option<string>) returns (r: Result<string>)
    ensures requestError.Some? ==> r == Err("HTTP request failed: " + requestError.value)
    ensures requestError.None? ==> r == TtsResult(lines, readError)
  {
    if requestError.Some? {
      return Err("HTTP request failed: " + requestError.value);
    }
    var collected := CollectParts(lines);
    if collected.Err? {
      return Err(collected.error);
    }
    var parts := collected.value;
    if readError.Some? {
      return Err("failed to read response: " + readError.value);
    }
    if |parts| == 0 {
      return Err("no audio data returned from TTS API");
    }
    r := Ok(Concat(parts));
  }
}
