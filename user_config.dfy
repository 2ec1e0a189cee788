/**
 * The streamer's settings from `user.json`: the record, its getters with
 * the volume and speech-rate clamps, and saving, which replaces the
 * in-memory settings before the file is written. Reading and writing the
 * file are inputs.
 */
module UserConfig {
  import opened Wrappers

  datatype Settings = Settings(
    roomIdCode: string, roomDescription: string, assistantName: string,
    maxUserDataLen: int, cleanupInterval: int, volume: int, speechRate: int,
    assistantMemorySize: int, useLlmReplay: bool, firstStart: bool)

  /** The value of `v` nearest to it within `[lo, hi]`. */
  function ClampTo(v: int, lo: int, hi: int): (r: int)
    requires lo <= hi
    ensures lo <= r <= hi
    ensures lo <= v <= hi ==> r == v
    ensures v < lo ==> r == lo
    ensures v > hi ==> r == hi
  {
    if v < lo then lo else if v > hi then hi else v
  }

  /** Clamping twice changes nothing more. */
  lemma ClampIdempotent(v: int, lo: int, hi: int)
    requires lo <= hi
    ensures ClampTo(ClampTo(v, lo, hi), lo, hi) == ClampTo(v, lo, hi)
  {
  }

  /** Clamping keeps order. */
  lemma ClampMonotone(v: int, w: int, lo: int, hi: int)
    requires lo <= hi && v <= w
    ensures ClampTo(v, lo, hi) <= ClampTo(w, lo, hi)
  {
  }

  function Min(a: int, b: int): int { if a < b then a else b }
  function Max(a: int, b: int): int { if a > b then a else b }

  /** `GetVolume`: the stored volume raised to 1 and then lowered to 100. */
  function GetVolume(c: Settings): (r: int)
    ensures r == ClampTo(c.volume, 1, 100)
  {
    var volume := c.volume;
    var volume1 := if volume < 1 then 1 else volume;
    if volume1 > 100 then 100 else volume1
  }

  /** `GetSpeechRate`: `min(max(rate, -50), 100)`. */
  function GetSpeechRate(c: Settings): (r: int)
    ensures r == ClampTo(c.speechRate, -50, 100)
  {
    Min(Max(c.speechRate, -50), 100)
  }

  /** An in-range volume or rate is returned as stored. */
  lemma InRangeUnchanged(c: Settings)
    ensures 1 <= c.volume <= 100 ==> GetVolume(c) == c.volume
    ensures -50 <= c.speechRate <= 100 ==> GetSpeechRate(c) == c.speechRate
  {
  }

  /** A louder stored volume never plays quieter, and the same for the rate. */
  lemma GettersMonotone(c: Settings, d: Settings)
    requires c.volume <= d.volume && c.speechRate <= d.speechRate
    ensures GetVolume(c) <= GetVolume(d) && GetSpeechRate(c) <= GetSpeechRate(d)
  {
    ClampMonotone(c.volume, d.volume, 1, 100);
    ClampMonotone(c.speechRate, d.speechRate, -50, 100);
  }

  /** Saving the values the getters return and reading them back gives them again. */
  lemma GettersIdempotent(c: Settings)
    ensures GetVolume(c.(volume := GetVolume(c))) == GetVolume(c)
    ensures GetSpeechRate(c.(speechRate := GetSpeechRate(c))) == GetSpeechRate(c)
  {
    ClampIdempotent(c.volume, 1, 100);
    ClampIdempotent(c.speechRate, -50, 100);
  }

  /** The process-wide settings, loaded once. */
  class Store {
    var current: Settings

    /** `loadUserConfig` after a successful read and parse. */
    constructor (loaded: Settings)
      ensures current == loaded
    {
      current := loaded;
    }

    method GetRoomIDCode() returns (r: string) ensures r == current.roomIdCode { r := current.roomIdCode; }
    method GetRoomDescription() returns (r: string) ensures r == current.roomDescription { r := current.roomDescription; }
    method GetMaxUserDataLen() returns (r: int) ensures r == current.maxUserDataLen { r := current.maxUserDataLen; }
    method GetCleanupInterval() returns (r: int) ensures r == current.cleanupInterval { r := current.cleanupInterval; }
    method GetAssistantName() returns (r: string) ensures r == current.assistantName { r := current.assistantName; }
    method GetAssistantMemorySize() returns (r: int) ensures r == current.assistantMemorySize { r := current.assistantMemorySize; }
    method GetUseLLMReplay() returns (r: bool) ensures r == current.useLlmReplay { r := current.useLlmReplay; }
    method IfFirstStart() returns (r: bool) ensures r == current.firstStart { r := current.firstStart; }

    /** `GetVolume` on the stored settings: always in [1, 100]. */
    method Volume() returns (r: int)
      ensures 1 <= r <= 100 && r == GetVolume(current)
    {
      r := GetVolume(current);
    }

    /** `GetSpeechRate` on the stored settings: always in [-50, 100]. */
    method SpeechRate() returns (r: int)
      ensures -50 <= r <= 100 && r == GetSpeechRate(current)
    {
      r := GetSpeechRate(current);
    }

    /**
     * `SaveUserConfig`: the in-memory settings become `cfg` first, so they
     * change even when writing the file fails. `write` is the outcome of
     * writing the file.
     */
    method SaveUserConfig(cfg: Settings, write: Outcome) returns (r: Outcome)
      modifies this
      ensures current == cfg
      ensures write.Pass? ==> r.Pass?
      ensures write.Fail? ==> r == Fail("写入配置失败: " + write.error)
    {
      current := cfg;
      if write.Fail? {
        return Fail("写入配置失败: " + write.error);
      }
      r := Pass;
    }
  }
}
