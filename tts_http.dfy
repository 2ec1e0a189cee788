/**
 * The HTTP speech-synthesis client: argument checks, the request body and
 * headers, the status check, and the fold over the streamed response lines
 * that gathers the audio. Each line comes with what JSON decoding made of
 * it and what base64 decoding made of its data; the HTTP exchange is an
 * input.
 */
module TtsHttp {
  import opened Wrappers
  import opened Text
  import VoiceConfig

  /** The end-of-stream code. */
  const FinishCode := 20000000

  /** One decoded line: its code, its base64 data, and that data decoded when it decodes. */
  datatype Chunk = Chunk(code: int, data: string, audio: Option<seq<byte>>)

  /** One line of the response body and what JSON decoding gave for it. */
  datatype Line = Line(text: string, parsed: Option<Chunk>)

  // --------------------------------------------------------------- requests

  datatype HttpRequest = HttpRequest(
    uid: string, text: string, speaker: string,
    format: string, sampleRate: int, enableTimestamp: bool, additions: string)

  const Additions := "{\"explicit_language\": \"zh\",\"disable_markdown_filter\":true, \"enable_timestamp\":true}"

  /**
   * `GenerateSpeech`'s checks and body: no voice is refused before empty
   * text is; the speaker is the voice's type, the audio is 24 kHz MP3 with
   * timestamps, and the user is the room's id code.
   */
  function BuildRequest(text: string, voice: Option<VoiceConfig.Voice>, roomIdCode: string): (r: Result<HttpRequest>)
    ensures voice.None? ==> r == Err("voice参数不能为空")
    ensures voice.Some? && text == "" ==> r == Err("text参数不能为空")
    ensures r.Ok? <==> voice.Some? && text != ""
    ensures r.Ok? ==> r.value.speaker == voice.value.voiceType && r.value.text == text && r.value.uid == roomIdCode
    ensures r.Ok? ==> r.value.format == "mp3" && r.value.sampleRate == 24000 && r.value.enableTimestamp
  {
    if voice.None? then Err("voice参数不能为空")
    else if text == "" then Err("text参数不能为空")
    else Ok(HttpRequest(roomIdCode, text, voice.value.voiceType, "mp3", 24000, true, Additions))
  }

  /** `buildHeaders`: exactly five headers, the credentials, the voice's resource, JSON and keep-alive. */
  function BuildHeaders(appID: string, accessKey: string, resourceID: string): (h: map<string, string>)
    ensures h.Keys == {"X-Api-App-Id", "X-Api-Access-Key", "X-Api-Resource-Id", "Content-Type", "Connection"}
    ensures h["X-Api-App-Id"] == appID && h["X-Api-Access-Key"] == accessKey && h["X-Api-Resource-Id"] == resourceID
    ensures h["Content-Type"] == "application/json" && h["Connection"] == "keep-alive"
  {
    map["X-Api-App-Id" := appID, "X-Api-Access-Key" := accessKey, "X-Api-Resource-Id" := resourceID,
        "Content-Type" := "application/json", "Connection" := "keep-alive"]
  }

  /** The five header names are distinct, so no credential overwrites another. */
  lemma HeadersCount(appID: string, accessKey: string, resourceID: string)
    ensures |BuildHeaders(appID, accessKey, resourceID)| == 5
  {
    var h := BuildHeaders(appID, accessKey, resourceID);
    var a, b, c, d, e := "X-Api-App-Id", "X-Api-Access-Key", "X-Api-Resource-Id", "Content-Type", "Connection";
    assert |a| == 12 && |b| == 16 && |c| == 17 && |d| == 12 && |e| == 10;
    assert a[0] == 'X' && d[0] == 'C';
    var s2 := {a} + {b};
    assert |s2| == 2;
    var s3 := s2 + {c};
    assert c !in s2 && |s3| == 3;
    var s4 := s3 + {d};
    assert d !in s3 && |s4| == 4;
    var s5 := s4 + {e};
    assert e !in s4 && |s5| == 5;
    assert h.Keys == s5;
  }

  // ------------------------------------------------------- the line fold

  /** Whether a line ends the stream. */
  predicate Stops(l: Line) {
    l.text != "" && l.parsed.Some? && !(l.parsed.value.code == 0 && l.parsed.value.data != "") && l.parsed.value.code == FinishCode
  }

  /** The audio a line contributes: a code-0 line's decodable data; every other line gives nothing. */
  function ChunkOf(l: Line): seq<byte> {
    if l.text != "" && l.parsed.Some? && l.parsed.value.code == 0 && l.parsed.value.data != "" && l.parsed.value.audio.Some?
    then l.parsed.value.audio.value
    else []
  }

  /** The audio of a stream: the chunks up to the first end-of-stream line, in order. */
  function StreamAudio(lines: seq<Line>): seq<byte>
    decreases |lines|
  {
    if |lines| == 0 || Stops(lines[0]) then [] else ChunkOf(lines[0]) + StreamAudio(lines[1..])
  }

  /** Lines before any end-of-stream line contribute their chunks in order, and the rest follows. */
  lemma {:induction false} StreamAudioAppend(a: seq<Line>, b: seq<Line>)
    requires forall k :: 0 <= k < |a| ==> !Stops(a[k])
    ensures StreamAudio(a + b) == StreamAudio(a) + StreamAudio(b)
    decreases |a|
  {
    if |a| == 0 {
      assert a + b == b;
    } else {
      assert (a + b)[0] == a[0];
      assert (a + b)[1..] == a[1..] + b;
      StreamAudioAppend(a[1..], b);
    }
  }

  /** Nothing after an end-of-stream line is read. */
  lemma StreamAudioStops(a: seq<Line>, stop: Line, b: seq<Line>)
    requires forall k :: 0 <= k < |a| ==> !Stops(a[k])
    requires Stops(stop)
    ensures StreamAudio(a + [stop] + b) == StreamAudio(a)
  {
    StreamAudioAppend(a, [stop] + b);
    assert a + [stop] + b == a + ([stop] + b);
  }

  lemma StreamAudioStep(lines: seq<Line>, i: nat)
    requires i < |lines|
    ensures StreamAudio(lines[i..]) == if Stops(lines[i]) then [] else ChunkOf(lines[i]) + StreamAudio(lines[i + 1..])
  {
    assert lines[i..][0] == lines[i] && lines[i..][1..] == lines[i + 1..];
  }

  /** `processStreamResponse`'s outcome: a read error, no audio, or the audio. */
  function StreamResult(lines: seq<Line>, readError: Option<string>): (r: Result<seq<byte>>)
    ensures r.Ok? <==> readError.None? && |StreamAudio(lines)| > 0
    ensures r.Ok? ==> r.value == StreamAudio(lines)
  {
    if readError.Some? then Err("读取响应流失败: " + readError.value)
    else if |StreamAudio(lines)| == 0 then Err("未获取到音频数据")
    else Ok(StreamAudio(lines))
  }

  /** The loop moves past a line that does not end the stream by adding that line's chunk. */
  lemma Advance(lines: seq<Line>, i: nat, audioData: seq<byte>)
    requires i < |lines| && !Stops(lines[i])
    requires audioData + StreamAudio(lines[i..]) == StreamAudio(lines)
    ensures (audioData + ChunkOf(lines[i])) + StreamAudio(lines[i + 1..]) == StreamAudio(lines)
  {
    StreamAudioStep(lines, i);
    ConcatAssoc(audioData, ChunkOf(lines[i]), StreamAudio(lines[i + 1..]));
  }

  lemma ConcatAssoc(a: seq<byte>, b: seq<byte>, c: seq<byte>)
    ensures a + (b + c) == (a + b) + c
  {
  }

  /** A line that is blank, not JSON, or has neither audio nor the end-of-stream code gives nothing and does not end the stream. */
  lemma Skipped(l: Line)
    requires l.text == "" || l.parsed.None? || (!(l.parsed.value.code == 0 && l.parsed.value.data != "") && l.parsed.value.code != FinishCode)
    ensures !Stops(l) && ChunkOf(l) == []
  {
  }

  /** `processStreamResponse`: the scanner loop. `readError` is what the scanner reports at the end. */
  method ProcessStreamResponse(lines: seq<Line>, readError: Option<string>) returns (r: Result<seq<byte>>)
    ensures r == StreamResult(lines, readError)
  {
    var audioData: seq<byte> := [];
    var i := 0;
    while i < |lines|
      invariant 0 <= i <= |lines|
      invariant audioData + StreamAudio(lines[i..]) == StreamAudio(lines)
      decreases |lines| - i
    {
      var line := lines[i];
      if line.text == "" {
        Skipped(line);
        Advance(lines, i, audioData);
        assert audioData + ChunkOf(line) == audioData;
        i := i + 1;
        continue;
      }
      if line.parsed.None? {
        Skipped(line);
        Advance(lines, i, audioData);
        assert audioData + ChunkOf(line) == audioData;
        i := i + 1;
        continue;
      }
      var response := line.parsed.value;
      if response.code == 0 && response.data != "" {
        Advance(lines, i, audioData);
        if response.audio.Some? {
          assert ChunkOf(line) == response.audio.value;
          audioData := audioData + response.audio.value;
        } else {
          assert ChunkOf(line) == [];
          assert audioData + ChunkOf(line) == audioData;
        }
        i := i + 1;
        continue;
      }
      if response.code == FinishCode {
        assert Stops(line);
        StreamAudioStep(lines, i);
        assert audioData == StreamAudio(lines);
        break;
      }
      Skipped(line);
      Advance(lines, i, audioData);
      assert audioData + ChunkOf(line) == audioData;
      i := i + 1;
    }
    assert i == |lines| ==> lines[i..] == [];
    assert audioData == StreamAudio(lines);
    if readError.Some? {
      return Err("读取响应流失败: " + readError.value);
    }
    if |audioData| == 0 {
      return Err("未获取到音频数据");
    }
    r := Ok(audioData);
  }

  // ------------------------------------------------------------ the exchange

  /** What the HTTP exchange gave: a failure to send, or a status, the log id and the body's lines. */
  datatype Exchange =
    | SendFailed(error: string)
    | Answered(status: int, body: string, logID: string, lines: seq<Line>, readError: Option<string>)

  datatype TtsResult = TtsResult(audioData: seq<byte>, dataSize: int, logID: string)

  /**
   * `processRequest`: a failure to send and a status other than 200 are
   * errors; otherwise the body's audio, its size and the log id.
   */
  method ProcessRequest(ex: Exchange) returns (r: Result<TtsResult>)
    ensures ex.SendFailed? ==> r == Err("发送HTTP请求失败: " + ex.error)
    ensures ex.Answered? && ex.status != 200 ==>
      r == Err("HTTP请求失败，状态码: " + Itoa(ex.status) + ", 响应体: " + ex.body)
    ensures r.Ok? <==> ex.Answered? && ex.status == 200 && StreamResult(ex.lines, ex.readError).Ok?
    ensures ex.Answered? && ex.status == 200 && StreamResult(ex.lines, ex.readError).Err? ==>
      r == Err("处理流式响应失败: " + StreamResult(ex.lines, ex.readError).error)
    ensures r.Ok? ==> r.value.audioData == StreamAudio(ex.lines) && r.value.dataSize == |r.value.audioData| > 0
                      && r.value.logID == ex.logID
  {
    if ex.SendFailed? {
      return Err("发送HTTP请求失败: " + ex.error);
    }
    if ex.status != 200 {
      return Err("HTTP请求失败，状态码: " + Itoa(ex.status) + ", 响应体: " + ex.body);
    }
    var audio := ProcessStreamResponse(ex.lines, ex.readError);
    if audio.Err? {
      return Err("处理流式响应失败: " + audio.error);
    }
    r := Ok(TtsResult(audio.value, |audio.value|, ex.logID));
  }

  /**
   * `GenerateSpeech`: the checks, then the request to the voice's resource,
   * whose result is `processRequest`'s. `sent` is the body and the headers
   * that go out.
   */
  method GenerateSpeech(text: string, voice: Option<VoiceConfig.Voice>, roomIdCode: string,
                        appID: string, accessKey: string, ex: Exchange)
    returns (r: Result<TtsResult>, sent: Option<(HttpRequest, map<string, string>)>)
    ensures BuildRequest(text, voice, roomIdCode).Err? ==> sent.None? && r == Err(BuildRequest(text, voice, roomIdCode).error)
    ensures BuildRequest(text, voice, roomIdCode).Ok? ==>
      sent == Some((BuildRequest(text, voice, roomIdCode).value, BuildHeaders(appID, accessKey, voice.value.apiResourceID)))
    ensures r.Ok? ==> voice.Some? && text != "" && ex.Answered? && r.value.audioData == StreamAudio(ex.lines) && |r.value.audioData| > 0
    ensures BuildRequest(text, voice, roomIdCode).Ok? ==>
      && (ex.SendFailed? ==> r == Err("发送HTTP请求失败: " + ex.error))
      && (ex.Answered? && ex.status != 200 ==>
            r == Err("HTTP请求失败，状态码: " + Itoa(ex.status) + ", 响应体: " + ex.body))
      && (ex.Answered? && ex.status == 200 && StreamResult(ex.lines, ex.readError).Err? ==>
            r == Err("处理流式响应失败: " + StreamResult(ex.lines, ex.readError).error))
      && (r.Ok? <==> ex.Answered? && ex.status == 200 && StreamResult(ex.lines, ex.readError).Ok?)
      && (r.Ok? ==> r.value.dataSize == |r.value.audioData| && r.value.logID == ex.logID)
  {
    var request := BuildRequest(text, voice, roomIdCode);
    if request.Err? {
      return Err(request.error), None;
    }
    sent := Some((request.value, BuildHeaders(appID, accessKey, voice.value.apiResourceID)));
    r := ProcessRequest(ex);
  }
}
