/**
 * The generated front-end copy of the streamer's settings: a class whose
 * constructor reads ten keys of a JSON value, parsing the value first when
 * it arrives as text. JavaScript values are modelled by `Value`; an absent
 * key reads as `undefined`, which is `None` here. What `JSON.parse` makes of
 * a text is an input.
 */
module FrontendModels {
  import opened Wrappers
  import Go = UserConfig

  datatype Value =
    | Null
    | Bool(b: bool)
    | Number(n: int)
    | Str(s: string)
    | Array(items: seq<Value>)
    | Object(fields: map<string, Value>)

  /** The constructor's argument: left out (it defaults to `{}`), a JSON text with what parsing it gives, or a value. */
  datatype Source = Omitted | Text(text: string, parsed: Result<Value>) | Given(v: Value)

  /** The ten keys the class reads, in the order it assigns them. */
  const Keys: seq<string> := [
    "room_id_code", "room_description", "assistant_name", "max_user_data_len", "cleanup_interval",
    "volume", "speech_rate", "assistant_memory_size", "use_llm_replay", "first_start"
  ]

  /** `source[key]` on a value other than `null`: an object's own entry, `undefined` for a missing key or a non-object. */
  function Member(v: Value, key: string): (r: Option<Value>)
    requires v != Null
    ensures r.Some? <==> v.Object? && key in v.fields
    ensures r.Some? ==> r.value == v.fields[key]
  {
    if v.Object? && key in v.fields then Some(v.fields[key]) else None
  }

  /**
   * The value the constructor reads from: `{}` when omitted, the parsed
   * value of a text (a parse error is thrown), the value itself otherwise;
   * reading a key of `null` throws.
   */
  function Resolve(source: Source): (r: Result<Value>)
    ensures source.Omitted? ==> r == Ok(Object(map[]))
    ensures source.Given? && source.v != Null ==> r == Ok(source.v)
    ensures source.Text? && source.parsed.Err? ==> r == Err(source.parsed.error)
    ensures r.Ok? ==> r.value != Null
  {
    var v := match source
      case Omitted => Ok(Object(map[]))
      case Text(_, parsed) => parsed
      case Given(v) => Ok(v);
    if v.Err? then v
    else if v.value == Null then Err("TypeError: Cannot read properties of null")
    else v
  }

  class UserConfig {
    var roomIdCode: Option<Value>
    var roomDescription: Option<Value>
    var assistantName: Option<Value>
    var maxUserDataLen: Option<Value>
    var cleanupInterval: Option<Value>
    var volume: Option<Value>
    var speechRate: Option<Value>
    var assistantMemorySize: Option<Value>
    var useLlmReplay: Option<Value>
    var firstStart: Option<Value>

    /** The fields as a list, in the order of `Keys`. */
    function Fields(): seq<Option<Value>>
      reads this
    {
      [roomIdCode, roomDescription, assistantName, maxUserDataLen, cleanupInterval,
       volume, speechRate, assistantMemorySize, useLlmReplay, firstStart]
    }

    /** The constructor after its argument is resolved: each field is the same-named key, copied as it is. */
    constructor(source: Value)
      requires source != Null
      ensures forall k :: 0 <= k < |Keys| ==> Fields()[k] == Member(source, Keys[k])
    {
      roomIdCode := Member(source, "room_id_code");
      roomDescription := Member(source, "room_description");
      assistantName := Member(source, "assistant_name");
      maxUserDataLen := Member(source, "max_user_data_len");
      cleanupInterval := Member(source, "cleanup_interval");
      volume := Member(source, "volume");
      speechRate := Member(source, "speech_rate");
      assistantMemorySize := Member(source, "assistant_memory_size");
      useLlmReplay := Member(source, "use_llm_replay");
      firstStart := Member(source, "first_start");
      new;
      assert Fields() == seq(|Keys|, k requires 0 <= k < |Keys| => Member(source, Keys[k]));
    }

    /** `createFrom(source)`: `new UserConfig(source)`, or what the constructor throws. */
    static method CreateFrom(source: Source) returns (r: Result<UserConfig>)
      ensures r.Err? <==> Resolve(source).Err?
      ensures r.Err? ==> r.error == Resolve(source).error
      ensures r.Ok? ==> fresh(r.value) && forall k :: 0 <= k < |Keys| ==> r.value.Fields()[k] == Member(Resolve(source).value, Keys[k])
    {
      var v := Resolve(source);
      if v.Err? {
        return Err(v.error);
      }
      var c := new UserConfig(v.value);
      r := Ok(c);
    }
  }

  /** Keys other than the ten are never read: adding one changes no field. */
  lemma OtherKeysIgnored(m: map<string, Value>, extra: string, x: Value)
    requires extra !in Keys
    ensures forall k :: 0 <= k < |Keys| ==> Member(Object(m[extra := x]), Keys[k]) == Member(Object(m), Keys[k])
  {
  }

  /** The JSON value `encoding/json` writes for the Go field tagged `key`. */
  function TaggedField(s: Go.Settings, key: string): Value {
    if key == "room_id_code" then Str(s.roomIdCode)
    else if key == "room_description" then Str(s.roomDescription)
    else if key == "assistant_name" then Str(s.assistantName)
    else if key == "max_user_data_len" then Number(s.maxUserDataLen)
    else if key == "cleanup_interval" then Number(s.cleanupInterval)
    else if key == "volume" then Number(s.volume)
    else if key == "speech_rate" then Number(s.speechRate)
    else if key == "assistant_memory_size" then Number(s.assistantMemorySize)
    else if key == "use_llm_replay" then Bool(s.useLlmReplay)
    else Bool(s.firstStart)
  }

  /** The JSON object `encoding/json` writes for the Go settings: one entry per struct tag. */
  function Marshal(s: Go.Settings): (v: Value)
    ensures v.Object? && v.fields.Keys == set k | k in Keys
  {
    Object(map k | k in Keys :: TaggedField(s, k))
  }

  /** A tagged key reads back the value written under it. */
  lemma ReadBackAt(s: Go.Settings, key: string)
    requires key in Keys
    ensures Member(Marshal(s), key) == Some(TaggedField(s, key))
  {
  }

  lemma ReadBackText(s: Go.Settings)
    ensures Member(Marshal(s), "room_id_code") == Some(Str(s.roomIdCode))
    ensures Member(Marshal(s), "room_description") == Some(Str(s.roomDescription))
    ensures Member(Marshal(s), "assistant_name") == Some(Str(s.assistantName))
  {
    ReadBackAt(s, "room_id_code");
    ReadBackAt(s, "room_description");
    ReadBackAt(s, "assistant_name");
  }

  lemma ReadBackNumbers(s: Go.Settings)
    ensures Member(Marshal(s), "max_user_data_len") == Some(Number(s.maxUserDataLen))
    ensures Member(Marshal(s), "cleanup_interval") == Some(Number(s.cleanupInterval))
    ensures Member(Marshal(s), "volume") == Some(Number(s.volume))
  {
    ReadBackAt(s, "max_user_data_len");
    ReadBackAt(s, "cleanup_interval");
    ReadBackAt(s, "volume");
  }

  lemma ReadBackRest(s: Go.Settings)
    ensures Member(Marshal(s), "speech_rate") == Some(Number(s.speechRate))
    ensures Member(Marshal(s), "assistant_memory_size") == Some(Number(s.assistantMemorySize))
    ensures Member(Marshal(s), "use_llm_replay") == Some(Bool(s.useLlmReplay))
    ensures Member(Marshal(s), "first_start") == Some(Bool(s.firstStart))
  {
    ReadBackAt(s, "speech_rate");
    ReadBackAt(s, "assistant_memory_size");
    ReadBackAt(s, "use_llm_replay");
    ReadBackAt(s, "first_start");
  }

  /** The front end reads back every Go field under its own tag: the ten keys are the Go struct's JSON tags. */
  lemma MarshalReadBack(s: Go.Settings)
    ensures Member(Marshal(s), "room_id_code") == Some(Str(s.roomIdCode))
    ensures Member(Marshal(s), "room_description") == Some(Str(s.roomDescription))
    ensures Member(Marshal(s), "assistant_name") == Some(Str(s.assistantName))
    ensures Member(Marshal(s), "max_user_data_len") == Some(Number(s.maxUserDataLen))
    ensures Member(Marshal(s), "cleanup_interval") == Some(Number(s.cleanupInterval))
    ensures Member(Marshal(s), "volume") == Some(Number(s.volume))
    ensures Member(Marshal(s), "speech_rate") == Some(Number(s.speechRate))
    ensures Member(Marshal(s), "assistant_memory_size") == Some(Number(s.assistantMemorySize))
    ensures Member(Marshal(s), "use_llm_replay") == Some(Bool(s.useLlmReplay))
    ensures Member(Marshal(s), "first_start") == Some(Bool(s.firstStart))
  {
    ReadBackText(s);
    ReadBackNumbers(s);
    ReadBackRest(s);
  }
}
