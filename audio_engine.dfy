/**
 * The audio playback engine: argument checks and volume clamping, the
 * guess at a raw PCM stream's format from its length, the cache of
 * playback contexts keyed by "rate_channels", and shutdown. Decoding,
 * creating a device context and the playback itself are inputs; a context
 * is named by number.
 */
module AudioEngine {
  import opened Wrappers
  import opened Text
  import UserConfig

  // ------------------------------------------------------ argument checks

  /** The checks of `PlayAudio` and `PlayAudioWithCompletion`: empty data is refused, the volume is clamped to [1, 100]. */
  function ValidatePlay(audioData: seq<byte>, volume: int): (r: Result<int>)
    ensures r.Err? <==> |audioData| == 0
    ensures r.Err? ==> r.error == "audio data cannot be empty"
    ensures r.Ok? ==> 1 <= r.value <= 100 && r.value == UserConfig.ClampTo(volume, 1, 100)
  {
    if |audioData| == 0 then Err("audio data cannot be empty")
    else
      var v1 := if volume < 1 then 1 else volume;
      Ok(if v1 > 100 then 100 else v1)
  }

  /**
   * The checks of `PlayAudioWithFormat`, in order: empty data, a volume
   * outside [1, 100] (refused, not clamped), a rate that is not positive,
   * and a channel count other than 1 or 2.
   */
  function ValidateFormat(audioData: seq<byte>, volume: int, sampleRate: int, channelCount: int): (r: Outcome)
    ensures r.Pass? <==> |audioData| > 0 && 1 <= volume <= 100 && sampleRate > 0 && (channelCount == 1 || channelCount == 2)
    ensures |audioData| == 0 ==> r == Fail("audio data cannot be empty")
    ensures |audioData| > 0 && !(1 <= volume <= 100) ==> r == Fail("volume must be between 1 and 100")
  {
    if |audioData| == 0 then Fail("audio data cannot be empty")
    else if volume < 1 || volume > 100 then Fail("volume must be between 1 and 100")
    else if sampleRate <= 0 then Fail("sample rate must be positive")
    else if channelCount != 1 && channelCount != 2 then Fail("channel count must be 1 or 2")
    else Pass
  }

  /** Both entry points accept the same data; only the strict one refuses a volume the other clamps. */
  lemma StrictRefusesWhatLenientClamps(audioData: seq<byte>, volume: int)
    requires |audioData| > 0 && !(1 <= volume <= 100)
    ensures ValidatePlay(audioData, volume).Ok? && ValidateFormat(audioData, volume, 24000, 1).Fail?
  {
  }

  // -------------------------------------------------------- PCM guessing

  const CommonSampleRates: seq<int> := [24000, 22050, 16000, 8000, 44100, 48000]
  const ChannelCounts: seq<int> := [1, 2]

  /** The rates `detectPCMFormat` is willing to return. */
  predicate PreferredRate(rate: int) {
    rate == 24000 || rate == 22050 || rate == 16000
  }

  /** Whether `len` bytes of 16-bit audio at `rate` and `channels` last between a tenth of a second and ten seconds, at a preferred rate. */
  predicate Fits(len: int, rate: int, channels: int) {
    var perSecond := rate * channels * 2;
    len >= perSecond / 10 && len <= perSecond * 10 && PreferredRate(rate)
  }

  /**
   * The first (rate, channels) pair that fits, trying the rates in order
   * and, for each, the channel counts in order, from rate `ri` and channel
   * count `ci` on; 24 kHz mono when none does.
   */
  function FirstFit(len: int, ri: nat, ci: nat): (r: (int, int))
    requires ri <= |CommonSampleRates| && ci <= |ChannelCounts|
    decreases |CommonSampleRates| - ri, |ChannelCounts| - ci
  {
    if ri == |CommonSampleRates| then (24000, 1)
    else if ci == |ChannelCounts| then FirstFit(len, ri + 1, 0)
    else if Fits(len, CommonSampleRates[ri], ChannelCounts[ci]) then (CommonSampleRates[ri], ChannelCounts[ci])
    else FirstFit(len, ri, ci + 1)
  }

  /** `detectPCMFormat`: the two nested loops, returning at the first fit. */
  method DetectPCMFormat(audioData: seq<byte>) returns (sampleRate: int, channelCount: int)
    ensures (sampleRate, channelCount) == FirstFit(|audioData|, 0, 0)
  {
    var dataLength := |audioData|;
    var bytesPerSample := 2;
    var ri := 0;
    while ri < |CommonSampleRates|
      invariant 0 <= ri <= |CommonSampleRates|
      invariant FirstFit(dataLength, 0, 0) == FirstFit(dataLength, ri, 0)
    {
      var rate := CommonSampleRates[ri];
      var ci := 0;
      while ci < |ChannelCounts|
        invariant 0 <= ci <= |ChannelCounts|
        invariant FirstFit(dataLength, 0, 0) == FirstFit(dataLength, ri, ci)
      {
        var channels := ChannelCounts[ci];
        var expectedBytesPerSecond := rate * channels * bytesPerSample;
        if dataLength >= expectedBytesPerSecond / 10 && dataLength <= expectedBytesPerSecond * 10 {
          if rate == 24000 || rate == 22050 || rate == 16000 {
            return rate, channels;
          }
        }
        ci := ci + 1;
      }
      ri := ri + 1;
    }
    return 24000, 1;
  }

  /**
   * What the search comes to: 24 kHz mono for 4800 to 480000 bytes, 24 kHz
   * stereo up to 960000, 22.05 kHz mono just below 4800, 16 kHz mono from
   * 3200, and 24 kHz mono by default. So 22.05 kHz and 16 kHz stereo, and
   * the other three rates, are never chosen.
   */
  lemma FirstFitClosedForm(len: int)
    ensures FirstFit(len, 0, 0) ==
      if 4800 <= len <= 480000 then (24000, 1)
      else if 480000 < len <= 960000 then (24000, 2)
      else if 4410 <= len < 4800 then (22050, 1)
      else if 3200 <= len < 4410 then (16000, 1)
      else (24000, 1)
  {
    assert FirstFit(len, 3, 0) == (24000, 1) by {
      assert FirstFit(len, 3, 0) == FirstFit(len, 3, 1) == FirstFit(len, 3, 2) == FirstFit(len, 4, 0);
      assert FirstFit(len, 4, 0) == FirstFit(len, 4, 1) == FirstFit(len, 4, 2) == FirstFit(len, 5, 0);
      assert FirstFit(len, 5, 0) == FirstFit(len, 5, 1) == FirstFit(len, 5, 2) == FirstFit(len, 6, 0);
    }
    assert FirstFit(len, 1, 1) == if 8820 <= len <= 882000 then (22050, 2) else FirstFit(len, 2, 0);
    assert FirstFit(len, 2, 0) == if 3200 <= len <= 320000 then (16000, 1) else FirstFit(len, 2, 1);
    assert FirstFit(len, 2, 1) == if 6400 <= len <= 640000 then (16000, 2) else FirstFit(len, 3, 0);
  }

  /** `detectPCMFormat` always answers with a preferred rate and one or two channels. */
  lemma DetectedFormatIsSupported(len: int)
    ensures PreferredRate(FirstFit(len, 0, 0).0)
    ensures FirstFit(len, 0, 0).1 == 1 || FirstFit(len, 0, 0).1 == 2
  {
    FirstFitClosedForm(len);
  }

  // -------------------------------------------------------- the contexts

  /** The cache key of a format: `"%d_%d"`. */
  function ContextKey(sampleRate: int, channelCount: int): string {
    Itoa(sampleRate) + "_" + Itoa(channelCount)
  }

  lemma ItoaHasNoUnderscore(n: int, i: nat)
    requires i < |Itoa(n)|
    ensures Itoa(n)[i] != '_'
  {
    if n < 0 {
      if i > 0 {
        assert Itoa(n)[i] == NatToString(-n)[i - 1];
      }
    }
  }

  /** Different formats get different keys, so a cached context is only reused for its own format. */
  lemma ContextKeyInjective(r1: int, c1: int, r2: int, c2: int)
    requires MinInt64 <= r1 <= MaxInt64 && MinInt64 <= c1 <= MaxInt64
    requires MinInt64 <= r2 <= MaxInt64 && MinInt64 <= c2 <= MaxInt64
    requires ContextKey(r1, c1) == ContextKey(r2, c2)
    ensures r1 == r2 && c1 == c2
  {
    var a, b := Itoa(r1), Itoa(r2);
    var k := ContextKey(r1, c1);
    if |a| < |b| {
      assert k[|a|] == '_';
      assert k[|a|] == b[|a|];
      ItoaHasNoUnderscore(r2, |a|);
    } else if |b| < |a| {
      assert k[|b|] == '_';
      assert k[|b|] == a[|b|];
      ItoaHasNoUnderscore(r1, |b|);
    }
    assert |a| == |b|;
    assert a == k[..|a|] == b;
    assert Itoa(c1) == k[|a| + 1..] == Itoa(c2);
    ItoaInjective(r1, r2);
    ItoaInjective(c1, c2);
  }

  /** The error `getOrCreateContext` gives when making the context of a format fails with `cause`. */
  function CreateError(sampleRate: int, channelCount: int, cause: string): (e: string)
    ensures HasPrefix(e, "创建音频上下文失败 (采样率: " + Itoa(sampleRate))
    ensures HasSuffix(e, "): " + cause)
  {
    ConcatAffixes("创建音频上下文失败 (采样率: " + Itoa(sampleRate), ", 声道: " + Itoa(channelCount) + "): " + cause);
    ConcatAffixes("创建音频上下文失败 (采样率: " + Itoa(sampleRate) + ", 声道: " + Itoa(channelCount), "): " + cause);
    "创建音频上下文失败 (采样率: " + Itoa(sampleRate) + ", 声道: " + Itoa(channelCount) + "): " + cause
  }

  /**
   * The contexts once the context of a format has been fetched or made: the
   * cache only grows, and holds the format's key unless it was missing and
   * making it failed.
   */
  function WithContext(contexts: map<string, nat>, next: nat, sampleRate: int, channelCount: int, create: Outcome)
    : (r: map<string, nat>)
    ensures ContextKey(sampleRate, channelCount) in r <==> ContextKey(sampleRate, channelCount) in contexts || create.Pass?
    ensures forall k :: k in contexts ==> k in r && r[k] == contexts[k]
    ensures forall k :: k in r && k != ContextKey(sampleRate, channelCount) ==> k in contexts
  {
    var key := ContextKey(sampleRate, channelCount);
    if key in contexts || create.Fail? then contexts else contexts[key := next]
  }

  /**
   * Playing through the context of a format: success once the context is
   * cached or made, otherwise the creation error wrapped by the player.
   */
  function ThroughContext(contexts: map<string, nat>, sampleRate: int, channelCount: int, create: Outcome): (r: Outcome)
    ensures r.Pass? <==> ContextKey(sampleRate, channelCount) in contexts || create.Pass?
    ensures r.Fail? ==> r.error == "获取音频上下文失败: " + CreateError(sampleRate, channelCount, create.error)
  {
    if ContextKey(sampleRate, channelCount) in contexts || create.Pass? then Pass
    else Fail("获取音频上下文失败: " + CreateError(sampleRate, channelCount, create.error))
  }

  /** The format `playAudioInternal` plays at: MP3 in stereo at the decoder's rate, anything else at the guessed PCM format. */
  function PlayFormat(audioData: seq<byte>, mp3Rate: Option<int>): (f: (int, int))
    ensures mp3Rate.Some? ==> f == (mp3Rate.value, 2)
    ensures mp3Rate.None? ==> f == FirstFit(|audioData|, 0, 0) && PreferredRate(f.0) && (f.1 == 1 || f.1 == 2)
  {
    DetectedFormatIsSupported(|audioData|);
    if mp3Rate.Some? then (mp3Rate.value, 2) else FirstFit(|audioData|, 0, 0)
  }

  /** Data `playAudioInternal` refuses before looking for a context: empty data, and PCM data under four bytes. */
  predicate RefusedData(audioData: seq<byte>, mp3Rate: Option<int>) {
    |audioData| == 0 || (mp3Rate.None? && |audioData| < 4)
  }

  /**
   * What `playAudioInternal` returns: a refusal of the data, or the outcome
   * of playing through the context of its format. It fails exactly on
   * refused data or when that context is missing and cannot be made.
   */
  function PlayOutcome(contexts: map<string, nat>, audioData: seq<byte>, mp3Rate: Option<int>, create: Outcome): (r: Outcome)
    ensures r.Fail? <==>
      || RefusedData(audioData, mp3Rate)
      || (ContextKey(PlayFormat(audioData, mp3Rate).0, PlayFormat(audioData, mp3Rate).1) !in contexts && create.Fail?)
    ensures |audioData| == 0 ==> r == Fail("audio data is empty")
    ensures |audioData| > 0 && mp3Rate.None? && |audioData| < 4 ==> r == Fail("音频数据太短，至少需要4字节")
  {
    if |audioData| == 0 then Fail("audio data is empty")
    else if mp3Rate.None? && |audioData| < 4 then Fail("音频数据太短，至少需要4字节")
    else ThroughContext(contexts, PlayFormat(audioData, mp3Rate).0, PlayFormat(audioData, mp3Rate).1, create)
  }

  /** The contexts after `playAudioInternal`: unchanged for refused data, otherwise with its format's context fetched or made. */
  function PlayContexts(contexts: map<string, nat>, next: nat, audioData: seq<byte>, mp3Rate: Option<int>, create: Outcome)
    : (r: map<string, nat>)
    ensures RefusedData(audioData, mp3Rate) ==> r == contexts
    ensures forall k :: k in contexts ==> k in r && r[k] == contexts[k]
  {
    if RefusedData(audioData, mp3Rate) then contexts
    else WithContext(contexts, next, PlayFormat(audioData, mp3Rate).0, PlayFormat(audioData, mp3Rate).1, create)
  }

  /**
   * Once the context of the data's format is cached, playback succeeds and
   * the cache is left as it is, whatever making a context would give.
   */
  lemma CachedContextIsReused(contexts: map<string, nat>, next: nat, audioData: seq<byte>, mp3Rate: Option<int>,
                              create: Outcome)
    requires !RefusedData(audioData, mp3Rate)
    requires ContextKey(PlayFormat(audioData, mp3Rate).0, PlayFormat(audioData, mp3Rate).1) in contexts
    ensures PlayOutcome(contexts, audioData, mp3Rate, create) == Pass
    ensures PlayContexts(contexts, next, audioData, mp3Rate, create) == contexts
  {
  }

  /** The process-wide engine. */
  class Engine {
    /** The cached device contexts by key. */
    var contexts: map<string, nat>
    /** The number the next new context gets. */
    var nextContext: nat
    var isRunning: bool
    var cancelled: bool

    ghost predicate Valid()
      reads this
    {
      forall k :: k in contexts ==> contexts[k] < nextContext
    }

    /** `getInstance`: the engine is made once, with no contexts, and its queue worker started. */
    constructor ()
      ensures Valid() && contexts == map[] && isRunning && !cancelled
    {
      contexts, nextContext, isRunning, cancelled := map[], 0, true, false;
    }

    /**
     * `getOrCreateContext`: a cached context is returned with nothing
     * changed; otherwise a new one is made and cached under the format's
     * key, unless making it fails. `create` is what making it gave.
     */
    method GetOrCreateContext(sampleRate: int, channelCount: int, create: Outcome) returns (r: Result<nat>)
      requires Valid()
      modifies this`contexts, this`nextContext
      ensures Valid()
      ensures var key := ContextKey(sampleRate, channelCount);
        && (key in old(contexts) ==> r == Ok(old(contexts)[key]) && unchanged(this))
        && (key !in old(contexts) && create.Fail? ==>
              unchanged(this) && r == Err(CreateError(sampleRate, channelCount, create.error)))
        && (key !in old(contexts) && create.Pass? ==>
              r == Ok(old(nextContext)) && contexts == old(contexts)[key := old(nextContext)]
              && |contexts| == |old(contexts)| + 1)
    {
      var contextKey := ContextKey(sampleRate, channelCount);
      if contextKey in contexts {
        return Ok(contexts[contextKey]);
      }
      if create.Fail? {
        return Err(CreateError(sampleRate, channelCount, create.error));
      }
      var context := nextContext;
      contexts := contexts[contextKey := context];
      nextContext := nextContext + 1;
      r := Ok(context);
    }

    /**
     * `playPCMData`: fewer than four bytes is refused; otherwise the
     * guessed format's context is fetched or made, and the data played.
     */
    method PlayPCMData(audioData: seq<byte>, create: Outcome) returns (r: Outcome)
      requires Valid()
      modifies this`contexts, this`nextContext
      ensures Valid()
      ensures |audioData| < 4 ==> r == Fail("音频数据太短，至少需要4字节") && unchanged(this)
      ensures |audioData| >= 4 ==>
        ContextKey(FirstFit(|audioData|, 0, 0).0, FirstFit(|audioData|, 0, 0).1) in contexts
        || (r.Fail? && unchanged(this))
      ensures |audioData| >= 4 ==>
        && r == ThroughContext(old(contexts), FirstFit(|audioData|, 0, 0).0, FirstFit(|audioData|, 0, 0).1, create)
        && contexts == WithContext(old(contexts), old(nextContext), FirstFit(|audioData|, 0, 0).0,
                                   FirstFit(|audioData|, 0, 0).1, create)
      ensures r.Fail? ==> unchanged(this)
    {
      if |audioData| < 4 {
        return Fail("音频数据太短，至少需要4字节");
      }
      var sampleRate, channelCount := DetectPCMFormat(audioData);
      var context := GetOrCreateContext(sampleRate, channelCount, create);
      if context.Err? {
        return Fail("获取音频上下文失败: " + context.error);
      }
      r := Pass;
    }

    /**
     * `playAudioInternal`: empty data is refused; data that decodes as MP3
     * plays through a stereo context at the decoder's rate, anything else
     * as raw PCM. `mp3Rate` is the decoder's rate when decoding succeeds.
     */
    method PlayAudioInternal(audioData: seq<byte>, mp3Rate: Option<int>, create: Outcome) returns (r: Outcome)
      requires Valid()
      modifies this`contexts, this`nextContext
      ensures Valid()
      ensures |audioData| == 0 ==> r == Fail("audio data is empty") && unchanged(this)
      ensures |audioData| > 0 && mp3Rate.Some? ==> ContextKey(mp3Rate.value, 2) in contexts || (r.Fail? && unchanged(this))
      ensures |audioData| > 0 && mp3Rate.None? && |audioData| < 4 ==> r == Fail("音频数据太短，至少需要4字节")
      ensures r == PlayOutcome(old(contexts), audioData, mp3Rate, create)
      ensures contexts == PlayContexts(old(contexts), old(nextContext), audioData, mp3Rate, create)
      ensures r.Fail? ==> unchanged(this)
    {
      if |audioData| == 0 {
        return Fail("audio data is empty");
      }
      if mp3Rate.None? {
        r := PlayPCMData(audioData, create);
        return;
      }
      var context := GetOrCreateContext(mp3Rate.value, 2, create);
      if context.Err? {
        return Fail("获取音频上下文失败: " + context.error);
      }
      r := Pass;
    }

    /**
     * `PlayAudio` and `PlayAudioWithCompletion`: the checks, then the task
     * goes to the queue worker, unless the queue does not take it in time.
     * `queued` says whether it did; `played` is the volume handed on.
     */
    method PlayAudio(audioData: seq<byte>, volume: int, queued: bool, mp3Rate: Option<int>, create: Outcome)
      returns (r: Outcome, played: Option<int>)
      requires Valid()
      modifies this`contexts, this`nextContext
      ensures Valid()
      ensures |audioData| == 0 ==> r == Fail("audio data cannot be empty") && played.None? && unchanged(this)
      ensures |audioData| > 0 && !queued ==> r == Fail("audio playback request timeout") && played.None? && unchanged(this)
      ensures |audioData| > 0 && queued ==> played == Some(UserConfig.ClampTo(volume, 1, 100))
      ensures |audioData| > 0 && queued ==>
        && r == PlayOutcome(old(contexts), audioData, mp3Rate, create)
        && contexts == PlayContexts(old(contexts), old(nextContext), audioData, mp3Rate, create)
      ensures r.Fail? ==> unchanged(this)
    {
      var checked := ValidatePlay(audioData, volume);
      if checked.Err? {
        return Fail(checked.error), None;
      }
      if !queued {
        return Fail("audio playback request timeout"), None;
      }
      r := PlayAudioInternal(audioData, mp3Rate, create);
      played := Some(checked.value);
    }

    /** `PlayAudioWithFormat`: the strict checks, then the given format's context is fetched or made and the data played. */
    method PlayAudioWithFormat(audioData: seq<byte>, volume: int, sampleRate: int, channelCount: int, create: Outcome)
      returns (r: Outcome)
      requires Valid()
      modifies this`contexts, this`nextContext
      ensures Valid()
      ensures ValidateFormat(audioData, volume, sampleRate, channelCount).Fail? ==>
        r == ValidateFormat(audioData, volume, sampleRate, channelCount) && unchanged(this)
      ensures r.Pass? ==> ContextKey(sampleRate, channelCount) in contexts
      ensures ValidateFormat(audioData, volume, sampleRate, channelCount).Pass? ==>
        && r == ThroughContext(old(contexts), sampleRate, channelCount, create)
        && contexts == WithContext(old(contexts), old(nextContext), sampleRate, channelCount, create)
      ensures r.Fail? ==> unchanged(this)
    {
      var checked := ValidateFormat(audioData, volume, sampleRate, channelCount);
      if checked.Fail? {
        return checked;
      }
      var context := GetOrCreateContext(sampleRate, channelCount, create);
      if context.Err? {
        return Fail("获取音频上下文失败: " + context.error);
      }
      r := Pass;
    }

    /** `Shutdown`: the worker is cancelled, every context is dropped and the engine stops running. */
    method Shutdown()
      modifies this`contexts, this`isRunning, this`cancelled
      ensures contexts == map[] && !isRunning && cancelled
      ensures Valid()
    {
      cancelled := true;
      contexts := map[];
      isRunning := false;
    }
  }
}
