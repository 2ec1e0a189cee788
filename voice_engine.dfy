/**
 * The queued audio player: sniffing MP3 against WAV from the first bytes,
 * the shared output context created once from the first task's parameters,
 * the per-task format switch and the context checks around the queue. What
 * the MP3 and WAV decoders make of the data, whether the output context can be
 * opened, and when the caller's context is cancelled are inputs.
 */
module VoiceEngine {
  import opened Wrappers
  import opened Text
  import AppConfig

  // ------------------------------------------------------------ sniffing

  /** "ID3", the identifier an ID3v2 tag starts with (section 3.1 of the ID3v2.4.0 structure document). */
  const ID3: seq<byte> := [0x49, 0x44, 0x33]

  /** `b & 0xE0` for a byte: the byte with its low five bits cleared. */
  function TopThreeBits(b: byte): byte {
    b - b % 32
  }

  /** The first two bytes start with the eleven set bits of an MPEG frame sync: all of the first, the top three of the second. */
  predicate FrameSync(data: seq<byte>)
    requires |data| >= 2
  {
    data[0] == 0xFF && TopThreeBits(data[1]) == 0xE0
  }

  /**
   * The format `PlayVoiceFromBytes` and `PlayVoiceFromBytesWithContext`
   * give the queue: MP3 for data of at least three bytes that starts with
   * an ID3 tag or a frame sync, WAV for everything else.
   */
  function SniffFormat(data: seq<byte>): (f: string)
    ensures f == "mp3" || f == "wav"
    ensures f == "mp3" <==> |data| >= 3 && (data[..3] == ID3 || (data[0] == 0xFF && data[1] >= 0xE0))
    ensures |data| < 3 ==> f == "wav"
  {
    if |data| >= 3 && (data[..3] == ID3 || FrameSync(data)) then "mp3" else "wav"
  }

  /** Anything that starts with an ID3 tag is played as MP3, and so is an MPEG frame header. */
  lemma TaggedIsMp3(rest: seq<byte>, second: byte, more: seq<byte>)
    requires second >= 0xE0 && |more| >= 1
    ensures SniffFormat(ID3 + rest) == "mp3"
    ensures SniffFormat([0xFF, second] + more) == "mp3"
  {
    assert (ID3 + rest)[..3] == ID3;
  }

  /** A RIFF header ("RIF") is played as WAV. */
  lemma RiffIsWav(rest: seq<byte>)
    ensures SniffFormat([0x52, 0x49, 0x46] + rest) == "wav"
  {
    var d := [0x52, 0x49, 0x46] + rest;
    assert d[0] == 0x52;
    assert d[..3] != ID3 by { assert d[..3][0] == 0x52; }
  }

  // -------------------------------------------------------- descriptions

  /** `GetVoiceDescription`: the voice's name and, in full-width parentheses, its description. */
  function GetVoiceDescription(voice: string): (d: string)
    ensures voice in AppConfig.VoiceNameMap ==>
      d == AppConfig.VoiceNameMap[voice].name + "（" + AppConfig.VoiceNameMap[voice].description + "）"
    ensures voice !in AppConfig.VoiceNameMap ==> d == voice + "（未知音色）"
  {
    var info := AppConfig.GetVoiceInfoByID(voice);
    info.name + "（" + info.description + "）"
  }

  // ------------------------------------------------------------- decoding

  /**
   * What the decoders make of a task's data: the MP3 decoder's sample rate
   * or error, whether the WAV decoder accepts the file, and the WAV format
   * (rate, channels) when it has one.
   */
  datatype Decoding = Decoding(mp3Rate: Result<int>, wavValid: bool, wavFormat: Option<(int, int)>)

  /**
   * The sample rate and channel count `ensureOtoContext` opens the context
   * with: the MP3's rate in stereo, the WAV's own format, or 44.1 kHz
   * stereo for any other format.
   */
  function ContextParams(format: string, dec: Decoding): (r: Result<(int, int)>)
    ensures format == "mp3" && dec.mp3Rate.Ok? ==> r == Ok((dec.mp3Rate.value, 2))
    ensures format == "mp3" && dec.mp3Rate.Err? ==> r == Err("failed to create MP3 decoder for context: " + dec.mp3Rate.error)
    ensures format == "wav" ==> r == (if !dec.wavValid then Err("invalid WAV file for context")
                                      else if dec.wavFormat.None? then Err("failed to get WAV format for context")
                                      else Ok(dec.wavFormat.value))
    ensures format != "mp3" && format != "wav" ==> r == Ok((44100, 2))
  {
    match format
    case "mp3" =>
      if dec.mp3Rate.Err? then Err("failed to create MP3 decoder for context: " + dec.mp3Rate.error)
      else Ok((dec.mp3Rate.value, 2))
    case "wav" =>
      if !dec.wavValid then Err("invalid WAV file for context")
      else if dec.wavFormat.None? then Err("failed to get WAV format for context")
      else Ok(dec.wavFormat.value)
    case _ => Ok((44100, 2))
  }

  /**
   * The playback of one task on the shared context: the decoder's error,
   * or the context's cancellation while the player runs, or success.
   * `cancelledWhilePlaying` is the error of a cancellation seen during
   * playback.
   */
  function Playback(format: string, dec: Decoding, cancelledWhilePlaying: Option<string>): (r: Outcome)
    ensures format == "mp3" && dec.mp3Rate.Err? ==> r == Fail("failed to create MP3 decoder: " + dec.mp3Rate.error)
    ensures format == "wav" && !dec.wavValid ==> r == Fail("invalid WAV file")
    ensures format != "mp3" && format != "wav" ==> r == Fail("unsupported audio format: " + format)
    ensures r.Pass? <==> cancelledWhilePlaying.None? && ((format == "mp3" && dec.mp3Rate.Ok?) || (format == "wav" && dec.wavValid))
  {
    if format == "mp3" then
      if dec.mp3Rate.Err? then Fail("failed to create MP3 decoder: " + dec.mp3Rate.error)
      else if cancelledWhilePlaying.Some? then Fail(cancelledWhilePlaying.value)
      else Pass
    else if format == "wav" then
      if !dec.wavValid then Fail("invalid WAV file")
      else if cancelledWhilePlaying.Some? then Fail(cancelledWhilePlaying.value)
      else Pass
    else Fail("unsupported audio format: " + format)
  }

  /** What happens to one task: its context, if any, when it is taken off the queue and while it plays. */
  datatype TaskRun = TaskRun(cancelledAtStart: Option<string>, openContext: Outcome, cancelledWhilePlaying: Option<string>)

  /** The global `AudioManager`: the shared context's parameters once it exists, and the worker's switch. */
  class Manager {
    var otoContext: Option<(int, int)>
    var isRunning: bool

    /** `GetAudioManager`'s first call: no context yet, and the worker started. */
    constructor ()
      ensures otoContext.None? && isRunning
    {
      otoContext, isRunning := None, true;
    }

    /** `start`: a running manager is left as it is; otherwise the worker starts. */
    method Start()
      modifies this`isRunning
      ensures isRunning
    {
      if isRunning {
        return;
      }
      isRunning := true;
    }

    /**
     * `ensureOtoContext`: once there is a context nothing happens;
     * otherwise one is opened with the task's parameters, and kept only when
     * opening succeeds.
     */
    method EnsureOtoContext(format: string, dec: Decoding, openContext: Outcome) returns (r: Outcome)
      modifies this`otoContext
      ensures old(otoContext).Some? ==> r == Pass && otoContext == old(otoContext)
      ensures old(otoContext).None? && ContextParams(format, dec).Err? ==>
        r == Fail(ContextParams(format, dec).error) && otoContext.None?
      ensures old(otoContext).None? && ContextParams(format, dec).Ok? && openContext.Fail? ==>
        r == Fail("failed to create oto context: " + openContext.error) && otoContext.None?
      ensures old(otoContext).None? && ContextParams(format, dec).Ok? && openContext.Pass? ==>
        r == Pass && otoContext == Some(ContextParams(format, dec).value)
    {
      if otoContext.Some? {
        return Pass;
      }
      var sampleRate: int;
      var channelCount: int;
      if format == "mp3" {
        if dec.mp3Rate.Err? {
          return Fail("failed to create MP3 decoder for context: " + dec.mp3Rate.error);
        }
        sampleRate, channelCount := dec.mp3Rate.value, 2;
      } else if format == "wav" {
        if !dec.wavValid {
          return Fail("invalid WAV file for context");
        }
        if dec.wavFormat.None? {
          return Fail("failed to get WAV format for context");
        }
        sampleRate, channelCount := dec.wavFormat.value.0, dec.wavFormat.value.1;
      } else {
        sampleRate, channelCount := 44100, 2;
      }
      if openContext.Fail? {
        return Fail("failed to create oto context: " + openContext.error);
      }
      otoContext := Some((sampleRate, channelCount));
      r := Pass;
    }

    /**
     * `playAudioTask`: the context is made sure of first, so even a task
     * of an unsupported format opens it (at 44.1 kHz stereo); then the
     * format decides how the task plays.
     */
    method PlayAudioTask(format: string, dec: Decoding, openContext: Outcome, cancelledWhilePlaying: Option<string>)
      returns (r: Outcome)
      modifies this`otoContext
      ensures old(otoContext).Some? ==> otoContext == old(otoContext)
      ensures otoContext.Some? ==> r == Playback(format, dec, cancelledWhilePlaying)
      ensures otoContext.None? ==> r.Fail?
      ensures old(otoContext).None? && ContextParams(format, dec).Err? ==>
        r == Fail(ContextParams(format, dec).error) && otoContext.None?
      ensures old(otoContext).None? && ContextParams(format, dec).Ok? && openContext.Fail? ==>
        r == Fail("failed to create oto context: " + openContext.error) && otoContext.None?
      ensures old(otoContext).None? && ContextParams(format, dec).Ok? && openContext.Pass? ==>
        otoContext == Some(ContextParams(format, dec).value)
    {
      r := EnsureOtoContext(format, dec, openContext);
      if r.Fail? {
        return;
      }
      if format == "mp3" {
        if dec.mp3Rate.Err? {
          return Fail("failed to create MP3 decoder: " + dec.mp3Rate.error);
        }
        r := if cancelledWhilePlaying.Some? then Fail(cancelledWhilePlaying.value) else Pass;
      } else if format == "wav" {
        if !dec.wavValid {
          return Fail("invalid WAV file");
        }
        r := if cancelledWhilePlaying.Some? then Fail(cancelledWhilePlaying.value) else Pass;
      } else {
        r := Fail("unsupported audio format: " + format);
      }
    }

    /**
     * `PlayAudioWithQueue` with the worker's turn for the task: a context
     * done before the task is queued gives its error; a task whose context
     * is cancelled by the time the worker takes it gives that error and
     * plays nothing; otherwise the task's outcome. `cancelledBeforeQueue`
     * is the caller's context error when it wins the race with the queue.
     */
    method PlayAudioWithQueue(data: seq<byte>, format: string, cancelledBeforeQueue: Option<string>,
                              dec: Decoding, run: TaskRun) returns (r: Outcome)
      modifies this`otoContext
      ensures old(otoContext).Some? ==> otoContext == old(otoContext)
      ensures cancelledBeforeQueue.Some? ==> r == Fail(cancelledBeforeQueue.value) && otoContext == old(otoContext)
      ensures cancelledBeforeQueue.None? && run.cancelledAtStart.Some? ==>
        r == Fail(run.cancelledAtStart.value) && otoContext == old(otoContext)
      ensures cancelledBeforeQueue.None? && run.cancelledAtStart.None? && otoContext.Some? ==>
        r == Playback(format, dec, run.cancelledWhilePlaying)
      ensures r.Pass? ==> otoContext.Some? && Playback(format, dec, run.cancelledWhilePlaying).Pass?
    {
      if cancelledBeforeQueue.Some? {
        return Fail(cancelledBeforeQueue.value);
      }
      if run.cancelledAtStart.Some? {
        return Fail(run.cancelledAtStart.value);
      }
      r := PlayAudioTask(format, dec, run.openContext, run.cancelledWhilePlaying);
    }

    /**
     * `PlayVoiceFromBytesWithContext`: a context already done is refused
     * before anything else; otherwise the data goes to the queue in its
     * sniffed format.
     */
    method PlayVoiceFromBytesWithContext(cancelled: Option<string>, data: seq<byte>, cancelledBeforeQueue: Option<string>,
                                         dec: Decoding, run: TaskRun) returns (r: Outcome, format: Option<string>)
      modifies this`otoContext
      ensures old(otoContext).Some? ==> otoContext == old(otoContext)
      ensures cancelled.Some? ==> r == Fail(cancelled.value) && format.None? && otoContext == old(otoContext)
      ensures cancelled.None? ==> format == Some(SniffFormat(data))
      ensures r.Pass? ==> cancelled.None? && otoContext.Some? && Playback(SniffFormat(data), dec, run.cancelledWhilePlaying).Pass?
    {
      if cancelled.Some? {
        return Fail(cancelled.value), None;
      }
      var f := SniffFormat(data);
      format := Some(f);
      r := PlayAudioWithQueue(data, f, cancelledBeforeQueue, dec, run);
    }

    /**
     * `PlayVoiceFromBytes`: the sniffed format through the queue with a
     * context that is never cancelled.
     */
    method PlayVoiceFromBytes(data: seq<byte>, dec: Decoding, openContext: Outcome) returns (r: Outcome, format: string)
      modifies this`otoContext
      ensures format == SniffFormat(data)
      ensures old(otoContext).Some? ==> otoContext == old(otoContext)
      ensures otoContext.Some? ==> r == Playback(format, dec, None)
    {
      format := SniffFormat(data);
      r := PlayAudioWithQueue(data, format, None, dec, TaskRun(None, openContext, None));
    }
  }
}
