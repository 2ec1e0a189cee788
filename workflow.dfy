/**
 * The workflow processor: it watches the task window, completes a task once
 * its texts are long enough, asks the language model for a reply with a
 * bounded number of attempts, and keeps task counters. The model's stream,
 * the clock and the timeout are inputs.
 */
module Workflow {
  import opened Wrappers
  import opened Text
  import Tasks
  import LlmClient
  import VoiceConfig

  /** `time.Duration` values, in nanoseconds. */
  const Millisecond: int := 1_000_000
  const Second: int := 1_000_000_000

  datatype WorkflowConfig = WorkflowConfig(
    checkInterval: int, maxRetries: int, retryDelay: int, volume: int,
    llmTimeout: int, ttsTimeout: int, minTextLength: int, maxTextLength: int,
    systemPrompt: string, enableDebugLog: bool)

  datatype WorkflowStatus = StatusStopped | StatusRunning | StatusPaused

  /** The bounds `SetConfig` establishes. */
  predicate ConfigValid(c: WorkflowConfig) {
    && c.checkInterval >= 100 * Millisecond
    && c.maxRetries >= 1
    && 1 <= c.volume <= 100
    && 1 <= c.minTextLength <= c.maxTextLength
  }

  /** The configuration `GetInstance` starts with. */
  function DefaultConfig(): (c: WorkflowConfig)
    ensures ConfigValid(c)
    ensures c.maxRetries == 3 && c.volume == 80 && c.minTextLength == 1 && c.maxTextLength == 1000
  {
    WorkflowConfig(2 * Second, 3, 1 * Second, 80, 30 * Second, 15 * Second, 1, 1000,
                   "你是一个智能助手，请根据用户的消息生成简洁、友好的回复。", true)
  }

  // ------------------------------------------------------- normalisation

  /**
   * `SetConfig`'s corrections, in order: the check interval is raised to
   * 100 ms, the retries to one, an out-of-range volume becomes 80, the
   * minimum length is raised to one, and a maximum below the minimum becomes
   * the minimum plus 100. Every other field is kept.
   */
  function Normalize(c: WorkflowConfig): (r: WorkflowConfig)
    ensures ConfigValid(r)
    ensures r.checkInterval == (if c.checkInterval < 100 * Millisecond then 100 * Millisecond else c.checkInterval)
    ensures r.maxRetries == (if c.maxRetries < 1 then 1 else c.maxRetries)
    ensures r.volume == (if 1 <= c.volume <= 100 then c.volume else 80)
    ensures r.minTextLength == (if c.minTextLength < 1 then 1 else c.minTextLength)
    ensures r.maxTextLength == (if c.maxTextLength < r.minTextLength then r.minTextLength + 100 else c.maxTextLength)
    ensures r.retryDelay == c.retryDelay && r.llmTimeout == c.llmTimeout && r.ttsTimeout == c.ttsTimeout
    ensures r.systemPrompt == c.systemPrompt && r.enableDebugLog == c.enableDebugLog
  {
    var c1 := if c.checkInterval < 100 * Millisecond then c.(checkInterval := 100 * Millisecond) else c;
    var c2 := if c1.maxRetries < 1 then c1.(maxRetries := 1) else c1;
    var c3 := if c2.volume < 1 || c2.volume > 100 then c2.(volume := 80) else c2;
    var c4 := if c3.minTextLength < 1 then c3.(minTextLength := 1) else c3;
    if c4.maxTextLength < c4.minTextLength then c4.(maxTextLength := c4.minTextLength + 100) else c4
  }

  /** A configuration that already satisfies the bounds is accepted as it is. */
  lemma NormalizeKeepsValid(c: WorkflowConfig)
    requires ConfigValid(c)
    ensures Normalize(c) == c
  {
  }

  /** Normalising twice is normalising once. */
  lemma NormalizeIdempotent(c: WorkflowConfig)
    ensures Normalize(Normalize(c)) == Normalize(c)
  {
    NormalizeKeepsValid(Normalize(c));
  }

  /** Go's 64-bit `int` addition, which wraps. */
  function AddInt64(a: int, b: int): (r: int)
    requires -MaxInt64 - 1 <= a <= MaxInt64 && -MaxInt64 - 1 <= b <= MaxInt64
    ensures -MaxInt64 - 1 <= r <= MaxInt64
  {
    var s := a + b;
    if s > MaxInt64 then s - 2 * (MaxInt64 + 1)
    else if s < -MaxInt64 - 1 then s + 2 * (MaxInt64 + 1)
    else s
  }

  /** The length correction as written, with `MinTextLength + 100` in 64-bit arithmetic. */
  function MaxTextLengthAsWritten(minTextLength: int, maxTextLength: int): (r: int)
    requires 1 <= minTextLength <= MaxInt64 && -MaxInt64 - 1 <= maxTextLength <= MaxInt64
    ensures maxTextLength >= minTextLength ==> r == maxTextLength
  {
    if maxTextLength < minTextLength then AddInt64(minTextLength, 100) else maxTextLength
  }

  /**
   * A minimum within 100 of the largest `int` wraps the corrected maximum
   * round to a negative number, so the maximum ends below the minimum.
   */
  lemma MaxTextLengthWraps()
    ensures MaxTextLengthAsWritten(MaxInt64 - 50, 0) < 0
    ensures MaxTextLengthAsWritten(MaxInt64 - 50, 0) < MaxInt64 - 50
  {
  }

  // -------------------------------------------------------- text length

  /** `calculateTotalTextLength`'s value: the byte lengths of the trimmed texts, summed. */
  function TotalTextLength(texts: seq<string>): (n: nat)
    decreases |texts|
  {
    if |texts| == 0 then 0 else TotalTextLength(texts[..|texts| - 1]) + ByteLen(TrimSpace(texts[|texts| - 1]))
  }

  lemma {:induction false} TotalTextLengthAppend(a: seq<string>, b: seq<string>)
    ensures TotalTextLength(a + b) == TotalTextLength(a) + TotalTextLength(b)
    decreases |b|
  {
    if |b| == 0 {
      assert a + b == a;
    } else {
      assert (a + b)[..|a + b| - 1] == a + b[..|b| - 1];
      TotalTextLengthAppend(a, b[..|b| - 1]);
    }
  }

  /** The total is zero exactly when every text is blank. */
  lemma {:induction false} TotalTextLengthZero(texts: seq<string>)
    ensures TotalTextLength(texts) == 0 <==> forall k :: 0 <= k < |texts| ==> TrimSpace(texts[k]) == ""
    decreases |texts|
  {
    if |texts| > 0 {
      var init := texts[..|texts| - 1];
      TotalTextLengthZero(init);
      var last := TrimSpace(texts[|texts| - 1]);
      assert ByteLen(last) == 0 <==> last == "";
      forall k | 0 <= k < |init| ensures init[k] == texts[k] { }
    }
  }

  /** `calculateTotalTextLength`. */
  method CalculateTotalTextLength(texts: seq<string>) returns (total: int)
    ensures total == TotalTextLength(texts)
    ensures total == 0 <==> forall k :: 0 <= k < |texts| ==> TrimSpace(texts[k]) == ""
  {
    total := 0;
    var i := 0;
    while i < |texts|
      invariant 0 <= i <= |texts|
      invariant total == TotalTextLength(texts[..i])
    {
      assert texts[..i + 1][..i] == texts[..i];
      total := total + ByteLen(TrimSpace(texts[i]));
      i := i + 1;
    }
    assert texts[..i] == texts;
    TotalTextLengthZero(texts);
  }

  // ---------------------------------------------------- preparing messages

  /**
   * `prepareMessages`: the texts joined by newlines become the one user
   * message; beyond `maxTextLength` bytes the content is cut at that byte
   * and "..." is appended. The cut is made on bytes, as Go slices strings,
   * so the content is given as bytes. No texts is an error.
   */
  function PrepareMessages(texts: seq<string>, maxTextLength: nat): (r: Result<seq<byte>>)
    ensures r.Err? <==> |texts| == 0
    ensures r.Ok? ==> |r.value| <= maxTextLength + 3
    ensures r.Ok? && |Utf8Encode(Join(texts, "\n"))| <= maxTextLength ==> r.value == Utf8Encode(Join(texts, "\n"))
    ensures r.Ok? && |Utf8Encode(Join(texts, "\n"))| > maxTextLength ==>
      r.value == Utf8Encode(Join(texts, "\n"))[..maxTextLength] + Utf8Encode("...")
  {
    if |texts| == 0 then Err("文本列表为空")
    else
      var combined := Utf8Encode(Join(texts, "\n"));
      Utf8EncodeLength("...");
      assert ByteLen("...") == 3 by { ByteLenAscii("..."); }
      if |combined| > maxTextLength then Ok(combined[..maxTextLength] + Utf8Encode("..."))
      else Ok(combined)
  }

  // ---------------------------------------------------------- calling the LLM

  /**
   * One call of the model: what `ChatStream` returned, and after how many
   * received items the call's timeout fires (`None`: it does not).
   */
  datatype LlmRun = LlmRun(stream: Result<seq<LlmClient.StreamResponse>>, timeoutAfter: Option<nat>)

  /**
   * The receive loop of `callLLM` from item `i` on, with `acc` collected so
   * far: the timeout wins when it fires before item `i`; an item with an
   * error ends the call; the closed channel ends it with what was
   * collected, where nothing collected is an error. Done items are not
   * treated specially.
   */
  function Collect(rs: seq<LlmClient.StreamResponse>, i: nat, acc: string, timeoutAfter: Option<nat>): (r: Result<string>)
    requires i <= |rs|
    decreases |rs| - i
  {
    if timeoutAfter == Some(i) then Err("LLM调用超时")
    else if i == |rs| then (if acc == "" then Err("LLM返回空响应") else Ok(acc))
    else if rs[i].error != "" then Err("LLM流式响应错误: " + rs[i].error)
    else Collect(rs, i + 1, acc + rs[i].content, timeoutAfter)
  }

  function Contents(rs: seq<LlmClient.StreamResponse>): (r: seq<string>)
    ensures |r| == |rs| && forall k :: 0 <= k < |rs| ==> r[k] == rs[k].content
  {
    seq(|rs|, k requires 0 <= k < |rs| => rs[k].content)
  }

  /** `callLLM`'s result for one run. */
  function CallLLMSpec(run: LlmRun): Result<string> {
    match run.stream
    case Err(e) => Err("启动ChatStream失败: " + e)
    case Ok(rs) => Collect(rs, 0, "", run.timeoutAfter)
  }

  /**
   * Without errors and without the timeout, the reply is all the items'
   * contents concatenated in order, and it is an error exactly when that is
   * empty.
   */
  lemma {:induction false} CollectConcatenates(rs: seq<LlmClient.StreamResponse>, i: nat, acc: string, timeoutAfter: Option<nat>)
    requires i <= |rs|
    requires forall k :: i <= k < |rs| ==> rs[k].error == ""
    requires timeoutAfter.None? || timeoutAfter.value < i || timeoutAfter.value > |rs|
    ensures var all := acc + Concat(Contents(rs[i..]));
            Collect(rs, i, acc, timeoutAfter) == if all == "" then Err("LLM返回空响应") else Ok(all)
    decreases |rs| - i
  {
    if i == |rs| {
      assert Contents(rs[i..]) == [];
      assert acc + "" == acc;
    } else {
      CollectConcatenates(rs, i + 1, acc + rs[i].content, timeoutAfter);
      assert Contents(rs[i..])[1..] == Contents(rs[i + 1..]);
      assert Contents(rs[i..])[0] == rs[i].content;
      assert acc + rs[i].content + Concat(Contents(rs[i + 1..])) == acc + (rs[i].content + Concat(Contents(rs[i + 1..])));
    }
  }

  /** An item with an error that arrives before the timeout makes the call fail. */
  lemma {:induction false} CollectErrorFails(rs: seq<LlmClient.StreamResponse>, i: nat, acc: string, timeoutAfter: Option<nat>, k: nat)
    requires i <= k < |rs| && rs[k].error != ""
    requires timeoutAfter.None? || timeoutAfter.value < i || timeoutAfter.value > k
    ensures Collect(rs, i, acc, timeoutAfter).Err?
    decreases |rs| - i
  {
    if i < k && rs[i].error == "" {
      CollectErrorFails(rs, i + 1, acc + rs[i].content, timeoutAfter, k);
    }
  }

  /** A timeout that fires before any error makes the call time out. */
  lemma {:induction false} CollectTimesOut(rs: seq<LlmClient.StreamResponse>, i: nat, acc: string, t: nat)
    requires i <= t <= |rs|
    requires forall k :: i <= k < t ==> rs[k].error == ""
    ensures Collect(rs, i, acc, Some(t)) == Err("LLM调用超时")
    decreases |rs| - i
  {
    if i < t {
      CollectTimesOut(rs, i + 1, acc + rs[i].content, t);
    }
  }

  /** `callLLM`: the receive loop, with the builder as a string. */
  method CallLLM(run: LlmRun) returns (r: Result<string>)
    ensures r == CallLLMSpec(run)
    ensures r.Ok? ==> r.value != ""
  {
    if run.stream.Err? {
      return Err("启动ChatStream失败: " + run.stream.error);
    }
    var rs := run.stream.value;
    var builder := "";
    var i := 0;
    while true
      invariant 0 <= i <= |rs|
      invariant Collect(rs, i, builder, run.timeoutAfter) == CallLLMSpec(run)
      decreases |rs| - i
    {
      if run.timeoutAfter == Some(i) {
        return Err("LLM调用超时");
      }
      if i == |rs| {
        if builder == "" {
          return Err("LLM返回空响应");
        }
        return Ok(builder);
      }
      if rs[i].error != "" {
        return Err("LLM流式响应错误: " + rs[i].error);
      }
      builder := builder + rs[i].content;
      i := i + 1;
    }
  }

  /** `processTaskInternal`'s outcome: messages are prepared, then the model is called. */
  function AttemptResult(texts: seq<string>, maxTextLength: nat, run: LlmRun): (r: Result<string>)
    ensures r.Ok? ==> |texts| > 0 && CallLLMSpec(run).Ok?
  {
    match PrepareMessages(texts, maxTextLength)
    case Err(e) => Err("准备消息失败: " + e)
    case Ok(_) =>
      match CallLLMSpec(run)
      case Err(e) => Err("LLM调用失败: " + e)
      case Ok(reply) => Ok(reply)
  }

  /** Whether one of the first `n` runs succeeds. */
  predicate SomeAttemptSucceeds(texts: seq<string>, maxTextLength: nat, runs: seq<LlmRun>, n: nat)
    requires n <= |runs|
  {
    exists k :: 0 <= k < n && AttemptResult(texts, maxTextLength, runs[k]).Ok?
  }

  /** With no texts every attempt fails, so the task is counted as failed. */
  lemma EmptyTaskFails(maxTextLength: nat, runs: seq<LlmRun>, n: nat)
    requires n <= |runs|
    ensures !SomeAttemptSucceeds([], maxTextLength, runs, n)
  {
  }

  // ------------------------------------------------------------- processor

  class Processor {
    var config: WorkflowConfig
    var status: WorkflowStatus
    var voice: Option<VoiceConfig.Voice>
    var hasCancel: bool
    var totalTasks: int
    var successfulTasks: int
    var failedTasks: int
    var startTime: int
    var lastTaskTime: int
    const taskManager: Tasks.TaskManager

    /**
     * The configuration keeps `SetConfig`'s bounds, a running processor has
     * a cancel function, and finished tasks never outnumber started ones.
     */
    ghost predicate Valid()
      reads this
    {
      && ConfigValid(config)
      && (status == StatusRunning ==> hasCancel)
      && 0 <= successfulTasks && 0 <= failedTasks
      && successfulTasks + failedTasks <= totalTasks
    }

    /** `GetInstance`'s first construction. */
    constructor (taskManager: Tasks.TaskManager)
      ensures Valid()
      ensures config == DefaultConfig() && status == StatusStopped && voice.None? && !hasCancel
      ensures totalTasks == 0 && successfulTasks == 0 && failedTasks == 0
      ensures this.taskManager == taskManager
    {
      config := DefaultConfig();
      status := StatusStopped;
      voice := None;
      hasCancel := false;
      totalTasks, successfulTasks, failedTasks := 0, 0, 0;
      startTime, lastTaskTime := 0, 0;
      this.taskManager := taskManager;
    }

    /** `SetConfig`: no configuration is an error; otherwise the normalised one is stored. */
    method SetConfig(c: Option<WorkflowConfig>) returns (err: Outcome)
      requires Valid()
      modifies this`config
      ensures Valid()
      ensures c.None? ==> err.Fail? && config == old(config)
      ensures c.Some? ==> err.Pass? && config == Normalize(c.value)
    {
      if c.None? {
        return Fail("配置不能为空");
      }
      config := Normalize(c.value);
      err := Pass;
    }

    /** `SetVoiceConfig`: no voice is an error; otherwise it is stored. */
    method SetVoiceConfig(v: Option<VoiceConfig.Voice>) returns (err: Outcome)
      requires Valid()
      modifies this`voice
      ensures Valid()
      ensures v.None? ==> err.Fail? && voice == old(voice)
      ensures v.Some? ==> err.Pass? && voice == v
    {
      if v.None? {
        return Fail("语音配置不能为空");
      }
      voice := v;
      err := Pass;
    }

    /**
     * `Start`: refused when already running, when the model client is not
     * ready, or when no voice is set, in that order; otherwise the processor
     * runs from `now`.
     */
    method Start(llmReady: bool, now: int) returns (err: Outcome)
      requires Valid()
      modifies this`status, this`hasCancel, this`startTime
      ensures Valid()
      ensures old(status) == StatusRunning ==> err == Fail("工作流处理器已在运行中") && unchanged(this)
      ensures old(status) != StatusRunning && !llmReady ==> err == Fail("LLM客户端未就绪，请先设置LLM配置") && unchanged(this)
      ensures old(status) != StatusRunning && llmReady && voice.None? ==> err == Fail("语音配置未设置，请先设置语音配置") && unchanged(this)
      ensures err.Pass? <==> old(status) != StatusRunning && llmReady && voice.Some?
      ensures err.Pass? ==> status == StatusRunning && hasCancel && startTime == now
    {
      if status == StatusRunning {
        return Fail("工作流处理器已在运行中");
      }
      if !llmReady {
        return Fail("LLM客户端未就绪，请先设置LLM配置");
      }
      if voice.None? {
        return Fail("语音配置未设置，请先设置语音配置");
      }
      hasCancel := true;
      status := StatusRunning;
      startTime := now;
      err := Pass;
    }

    /** `Stop`: refused when stopped; otherwise the context is cancelled and the processor stops. */
    method Stop() returns (err: Outcome)
      requires Valid()
      modifies this`status
      ensures Valid()
      ensures old(status) == StatusStopped ==> err.Fail? && status == StatusStopped
      ensures old(status) != StatusStopped ==> err.Pass? && status == StatusStopped
    {
      if status == StatusStopped {
        return Fail("工作流处理器已停止");
      }
      status := StatusStopped;
      err := Pass;
    }

    method IsRunning() returns (r: bool)
      ensures r <==> status == StatusRunning
    {
      r := status == StatusRunning;
    }

    method GetStatus() returns (r: WorkflowStatus)
      ensures r == status
    {
      r := status;
    }

    /**
     * `checkAndProcessTasks`: a task is handed over only when one is
     * running, its window is not empty and the window's trimmed byte length
     * reaches the minimum; then the task is completed and its texts are
     * returned for `processTask`. Otherwise nothing changes and nothing is
     * returned.
     */
    method CheckAndProcessTasks() returns (texts: seq<string>)
      requires Valid() && taskManager.Valid()
      modifies taskManager`textWindow, taskManager`status, taskManager`currentTask
      ensures taskManager.Valid()
      ensures var ready := old(taskManager.currentTask).Some? && |old(taskManager.textWindow)| > 0
                           && TotalTextLength(old(taskManager.textWindow)) >= config.minTextLength;
              && (ready ==> texts == old(taskManager.textWindow) && taskManager.status == Tasks.Idle
                            && taskManager.textWindow == [] && taskManager.currentTask.None?)
              && (!ready ==> texts == [] && unchanged(taskManager))
      ensures |texts| > 0 ==> forall k :: 0 <= k < |texts| ==> texts[k] in old(taskManager.textWindow)
    {
      var running := taskManager.IsTaskRunning();
      if !running {
        return [];
      }
      var current := taskManager.GetCurrentTexts();
      if |current| == 0 {
        return [];
      }
      var total := CalculateTotalTextLength(current);
      if total < config.minTextLength {
        return [];
      }
      texts := taskManager.CompleteTask();
    }

    /**
     * `processTask`: the task is counted and stamped, then up to
     * `MaxRetries` attempts are made; the first success is counted as a
     * success and ends the task, and when every attempt fails the task is
     * counted as failed. `runs[k]` is the model call of attempt `k + 1`.
     */
    method ProcessTask(texts: seq<string>, runs: seq<LlmRun>, now: int) returns (attempts: nat)
      requires Valid() && config.maxRetries <= |runs|
      modifies this`totalTasks, this`successfulTasks, this`failedTasks, this`lastTaskTime
      ensures Valid()
      ensures totalTasks == old(totalTasks) + 1 && lastTaskTime == now
      ensures SomeAttemptSucceeds(texts, config.maxTextLength, runs, config.maxRetries) ==>
        && successfulTasks == old(successfulTasks) + 1 && failedTasks == old(failedTasks)
        && 1 <= attempts <= config.maxRetries
        && AttemptResult(texts, config.maxTextLength, runs[attempts - 1]).Ok?
        && forall k :: 0 <= k < attempts - 1 ==> AttemptResult(texts, config.maxTextLength, runs[k]).Err?
      ensures !SomeAttemptSucceeds(texts, config.maxTextLength, runs, config.maxRetries) ==>
        successfulTasks == old(successfulTasks) && failedTasks == old(failedTasks) + 1
        && attempts == config.maxRetries
    {
      totalTasks := totalTasks + 1;
      lastTaskTime := now;
      var attempt := 1;
      while attempt <= config.maxRetries
        invariant 1 <= attempt <= config.maxRetries + 1
        invariant forall k :: 0 <= k < attempt - 1 ==> AttemptResult(texts, config.maxTextLength, runs[k]).Err?
        invariant successfulTasks == old(successfulTasks) && failedTasks == old(failedTasks)
        invariant totalTasks == old(totalTasks) + 1 && lastTaskTime == now
        decreases config.maxRetries - attempt
      {
        var messages := PrepareMessages(texts, config.maxTextLength);
        var result: Result<string>;
        if messages.Err? {
          result := Err("准备消息失败: " + messages.error);
        } else {
          var reply := CallLLM(runs[attempt - 1]);
          if reply.Err? {
            result := Err("LLM调用失败: " + reply.error);
          } else {
            result := Ok(reply.value);
          }
        }
        assert result == AttemptResult(texts, config.maxTextLength, runs[attempt - 1]);
        if result.Ok? {
          successfulTasks := successfulTasks + 1;
          return attempt;
        }
        attempt := attempt + 1;
      }
      failedTasks := failedTasks + 1;
      attempts := config.maxRetries;
    }
  }
}
