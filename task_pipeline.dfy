/**
 * `PlayEventTasks`: take the current task's texts, ask the language model
 * for a reply, turn it into speech and play it, giving up at the first step
 * that fails and at every point where the context is seen cancelled. The
 * model's stream, the synthesiser's result, playback and cancellation are
 * inputs.
 */
module TaskPipeline {
  import opened Wrappers
  import Tasks
  import LlmClient
  import VoiceConfig
  import opened Text

  /** The points at which `PlayEventTasks` looks at its context. */
  datatype Checkpoint =
    | BeforeLlm
    | DuringStream(afterItems: nat)
    | BeforeSpeech
    | BeforePlay
    | DuringPlay

  /** How far a run got. */
  datatype PipelineOutcome =
    | NoTask
    | NoTexts
    | Cancelled(at: Checkpoint)
    | LlmFailed(error: string)
    | EmptyReply
    | SpeechFailed(error: string)
    | PlayFailed(error: string)
    | Completed(reply: string, audio: seq<byte>)

  // ------------------------------------------------------ the stream fold

  /**
   * `callLLMStream`'s receive loop from item `i` on, with `acc` collected:
   * cancellation wins when seen before item `i`; the closed channel returns
   * what was collected, even nothing; an error item fails the call; a Done
   * item returns what was collected including its own content.
   */
  function CollectUntilDone(rs: seq<LlmClient.StreamResponse>, i: nat, acc: string, cancelAfter: Option<nat>): (r: Result<string>)
    requires i <= |rs|
    decreases |rs| - i
  {
    if cancelAfter == Some(i) then Err("LLM调用被取消")
    else if i == |rs| then Ok(acc)
    else if rs[i].error != "" then Err("LLM响应错误: " + rs[i].error)
    else if rs[i].done then Ok(acc + rs[i].content)
    else CollectUntilDone(rs, i + 1, acc + rs[i].content, cancelAfter)
  }

  /** Whether no item in `rs[i..j]` has an error or is Done. */
  predicate PlainItems(rs: seq<LlmClient.StreamResponse>, i: nat, j: nat)
    requires i <= j <= |rs|
  {
    forall k :: i <= k < j ==> rs[k].error == "" && !rs[k].done
  }

  function ContentsFrom(rs: seq<LlmClient.StreamResponse>, i: nat, j: nat): (r: string)
    requires i <= j <= |rs|
    decreases j - i
  {
    if i == j then "" else rs[i].content + ContentsFrom(rs, i + 1, j)
  }

  /**
   * Up to the first Done item, the reply is the contents concatenated in
   * order; items after it are never read.
   */
  lemma {:induction false} CollectStopsAtDone(rs: seq<LlmClient.StreamResponse>, i: nat, acc: string, d: nat)
    requires i <= d < |rs| && rs[d].done && rs[d].error == ""
    requires PlainItems(rs, i, d)
    ensures CollectUntilDone(rs, i, acc, None) == Ok(acc + ContentsFrom(rs, i, d + 1))
    decreases d - i
  {
    if i < d {
      CollectStopsAtDone(rs, i + 1, acc + rs[i].content, d);
      assert acc + rs[i].content + ContentsFrom(rs, i + 1, d + 1) == acc + (rs[i].content + ContentsFrom(rs, i + 1, d + 1));
    } else {
      assert ContentsFrom(rs, i + 1, d + 1) == "";
      assert acc + rs[i].content == acc + (rs[i].content + "");
    }
  }

  /** A stream that closes without Done, errors or cancellation gives all its contents, possibly none. */
  lemma {:induction false} CollectToClose(rs: seq<LlmClient.StreamResponse>, i: nat, acc: string)
    requires i <= |rs| && PlainItems(rs, i, |rs|)
    ensures CollectUntilDone(rs, i, acc, None) == Ok(acc + ContentsFrom(rs, i, |rs|))
    decreases |rs| - i
  {
    if i < |rs| {
      CollectToClose(rs, i + 1, acc + rs[i].content);
      assert acc + rs[i].content + ContentsFrom(rs, i + 1, |rs|) == acc + (rs[i].content + ContentsFrom(rs, i + 1, |rs|));
    } else {
      assert acc + "" == acc;
    }
  }

  /** An error item before any Done and before cancellation fails the call. */
  lemma {:induction false} CollectErrorFails(rs: seq<LlmClient.StreamResponse>, i: nat, acc: string, cancelAfter: Option<nat>, e: nat)
    requires i <= e < |rs| && rs[e].error != "" && PlainItems(rs, i, e)
    requires cancelAfter.None? || cancelAfter.value < i || cancelAfter.value > e
    ensures CollectUntilDone(rs, i, acc, cancelAfter) == Err("LLM响应错误: " + rs[e].error)
    decreases e - i
  {
    if i < e {
      CollectErrorFails(rs, i + 1, acc + rs[i].content, cancelAfter, e);
    }
  }

  /** `callLLMStream` after the stream is open: the receive loop with a builder. */
  method ReceiveStream(rs: seq<LlmClient.StreamResponse>, cancelAfter: Option<nat>) returns (r: Result<string>)
    ensures r == CollectUntilDone(rs, 0, "", cancelAfter)
  {
    var builder := "";
    var i := 0;
    while true
      invariant 0 <= i <= |rs|
      invariant CollectUntilDone(rs, i, builder, cancelAfter) == CollectUntilDone(rs, 0, "", cancelAfter)
      decreases |rs| - i
    {
      if cancelAfter == Some(i) {
        return Err("LLM调用被取消");
      }
      if i == |rs| {
        return Ok(builder);
      }
      var item := rs[i];
      if item.error != "" {
        return Err("LLM响应错误: " + item.error);
      }
      if item.content != "" {
        builder := builder + item.content;
      } else {
        assert builder + item.content == builder;
      }
      if item.done {
        return Ok(builder);
      }
      i := i + 1;
    }
  }

  /**
   * `callLLMStream`: in mock mode the mock stream is used without the
   * readiness check; otherwise an unready client is an error before the
   * stream is opened. `stream` is what the chosen call returned.
   */
  function CallLLMStreamSpec(mock: bool, llmReady: bool, stream: Result<seq<LlmClient.StreamResponse>>, cancelAfter: Option<nat>): (r: Result<string>)
    ensures !mock && !llmReady ==> r == Err("LLM客户端未就绪")
    ensures (mock || llmReady) && stream.Err? ==> r.Err?
  {
    if mock then
      (match stream
       case Err(e) => Err("启动模拟流式对话失败: " + e)
       case Ok(rs) => CollectUntilDone(rs, 0, "", cancelAfter))
    else if !llmReady then Err("LLM客户端未就绪")
    else
      match stream
      case Err(e) => Err("启动流式对话失败: " + e)
      case Ok(rs) => CollectUntilDone(rs, 0, "", cancelAfter)
  }

  /**
   * `generateSpeech`: no voice is an error, so is a synthesiser failure and
   * so is empty audio. `tts` is what the synthesiser returned.
   */
  function GenerateSpeech(voice: Option<VoiceConfig.Voice>, tts: Result<seq<byte>>): (r: Result<seq<byte>>)
    ensures r.Ok? <==> voice.Some? && tts.Ok? && |tts.value| > 0
    ensures r.Ok? ==> r.value == tts.value
  {
    if voice.None? then Err("无法获取音色配置")
    else if tts.Err? then Err("TTS生成失败: " + tts.error)
    else if |tts.value| == 0 then Err("TTS返回空音频数据")
    else Ok(tts.value)
  }

  /** The inputs of one pipeline run besides the task manager. */
  datatype RunInputs = RunInputs(
    mock: bool, llmReady: bool, stream: Result<seq<LlmClient.StreamResponse>>,
    cancelled: Option<Checkpoint>, voice: Option<VoiceConfig.Voice>, tts: Result<seq<byte>>,
    playStart: Outcome)

  function StreamCancel(c: Option<Checkpoint>): Option<nat> {
    if c.Some? && c.value.DuringStream? then Some(c.value.afterItems) else None
  }

  /** The outcome once the texts are in hand. */
  function RunOutcome(inp: RunInputs): (r: PipelineOutcome)
    ensures r.Completed? ==> r.reply != "" && |r.audio| > 0 && inp.voice.Some? && inp.playStart.Pass?
    ensures r.Completed? ==> inp.cancelled.None? || inp.cancelled.value.DuringStream?
    ensures inp.cancelled == Some(BeforeLlm) ==> r == Cancelled(BeforeLlm)
  {
    if inp.cancelled == Some(BeforeLlm) then Cancelled(BeforeLlm)
    else
      match CallLLMStreamSpec(inp.mock, inp.llmReady, inp.stream, StreamCancel(inp.cancelled))
      case Err(e) => LlmFailed(e)
      case Ok(reply) =>
        if reply == "" then EmptyReply
        else if inp.cancelled == Some(BeforeSpeech) then Cancelled(BeforeSpeech)
        else
          match GenerateSpeech(inp.voice, inp.tts)
          case Err(e) => SpeechFailed(e)
          case Ok(audio) =>
            if inp.cancelled == Some(BeforePlay) then Cancelled(BeforePlay)
            else if inp.playStart.Fail? then PlayFailed("启动音频播放失败: " + inp.playStart.error)
            else if inp.cancelled == Some(DuringPlay) then PlayFailed("音频播放被取消")
            else Completed(reply, audio)
  }

  /**
   * `PlayEventTasks`: with no running task nothing happens; otherwise the
   * task is completed (the manager goes idle) and its texts, when there are
   * any, are processed.
   */
  method PlayEventTasks(tm: Tasks.TaskManager, inp: RunInputs) returns (out: PipelineOutcome, texts: seq<string>)
    requires tm.Valid()
    modifies tm`textWindow, tm`status, tm`currentTask
    ensures tm.Valid()
    ensures old(tm.currentTask).None? ==> out == NoTask && texts == [] && unchanged(tm)
    ensures old(tm.currentTask).Some? ==>
      && texts == old(tm.textWindow) && tm.status == Tasks.Idle && tm.textWindow == []
      && out == (if |texts| == 0 then NoTexts else RunOutcome(inp))
  {
    var running := tm.IsTaskRunning();
    if !running {
      return NoTask, [];
    }
    texts := tm.CompleteTask();
    if |texts| == 0 {
      return NoTexts, texts;
    }
    if inp.cancelled == Some(BeforeLlm) {
      return Cancelled(BeforeLlm), texts;
    }
    var reply: Result<string>;
    if inp.mock {
      if inp.stream.Err? {
        reply := Err("启动模拟流式对话失败: " + inp.stream.error);
      } else {
        reply := ReceiveStream(inp.stream.value, StreamCancel(inp.cancelled));
      }
    } else if !inp.llmReady {
      reply := Err("LLM客户端未就绪");
    } else if inp.stream.Err? {
      reply := Err("启动流式对话失败: " + inp.stream.error);
    } else {
      reply := ReceiveStream(inp.stream.value, StreamCancel(inp.cancelled));
    }
    if reply.Err? {
      return LlmFailed(reply.error), texts;
    }
    if reply.value == "" {
      return EmptyReply, texts;
    }
    if inp.cancelled == Some(BeforeSpeech) {
      return Cancelled(BeforeSpeech), texts;
    }
    var audio := GenerateSpeech(inp.voice, inp.tts);
    if audio.Err? {
      return SpeechFailed(audio.error), texts;
    }
    if inp.cancelled == Some(BeforePlay) {
      return Cancelled(BeforePlay), texts;
    }
    if inp.playStart.Fail? {
      return PlayFailed("启动音频播放失败: " + inp.playStart.error), texts;
    }
    if inp.cancelled == Some(DuringPlay) {
      return PlayFailed("音频播放被取消"), texts;
    }
    out := Completed(reply.value, audio.value);
  }

  /** A run that is never cancelled and gets a reply, a voice, audio and playback completes. */
  lemma CompletesWhenAllSucceed(inp: RunInputs, reply: string)
    requires inp.cancelled.None? && inp.playStart.Pass?
    requires CallLLMStreamSpec(inp.mock, inp.llmReady, inp.stream, None) == Ok(reply) && reply != ""
    requires inp.voice.Some? && inp.tts.Ok? && |inp.tts.value| > 0
    ensures RunOutcome(inp) == Completed(reply, inp.tts.value)
  {
  }
}
