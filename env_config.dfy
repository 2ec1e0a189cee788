/**
 * The `.env` configuration: a line parser for `KEY=value` files, the
 * precedence between the embedded file and the local one, and the typed
 * lookups with defaults. File contents are inputs; reading the files is not
 * part of this model.
 */
module EnvConfig {
  import opened Wrappers
  import opened Text

  // ------------------------------------------------------------ lines

  /** The lines of `content`, split at every `'\n'`. */
  function SplitLines(s: string): (r: seq<string>)
    ensures |r| >= 1
    ensures forall k :: 0 <= k < |r| ==> '\n' !in r[k]
    decreases |s|
  {
    if |s| == 0 then [""]
    else if s[0] == '\n' then [""] + SplitLines(s[1..])
    else
      var rest := SplitLines(s[1..]);
      [[s[0]] + rest[0]] + rest[1..]
  }

  /** Lines joined back with `'\n'` between them. */
  function JoinLines(parts: seq<string>): string
    requires |parts| >= 1
    decreases |parts|
  {
    if |parts| == 1 then parts[0] else parts[0] + "\n" + JoinLines(parts[1..])
  }

  /** Putting the lines back together gives the content back. */
  lemma {:induction false} SplitLinesJoin(s: string)
    ensures JoinLines(SplitLines(s)) == s
    decreases |s|
  {
    if |s| > 0 {
      SplitLinesJoin(s[1..]);
      var rest := SplitLines(s[1..]);
      if s[0] == '\n' {
        assert ([""] + rest)[1..] == rest;
        assert s == "" + "\n" + s[1..];
      } else {
        var r := [[s[0]] + rest[0]] + rest[1..];
        if |rest| == 1 {
          assert s == [s[0]] + s[1..];
        } else {
          assert r[1..] == rest[1..];
          assert JoinLines(rest) == rest[0] + "\n" + JoinLines(rest[1..]);
          assert s == [s[0]] + s[1..];
        }
      }
    }
  }

  /** The first position of `c` in `s`. */
  function IndexOf(s: string, c: char): (r: Option<nat>)
    ensures r.None? <==> c !in s
    ensures r.Some? ==> r.value < |s| && s[r.value] == c && c !in s[..r.value]
    decreases |s|
  {
    if |s| == 0 then None
    else if s[0] == c then Some(0)
    else
      match IndexOf(s[1..], c)
      case None => None
      case Some(i) =>
        assert s[..i + 1] == [s[0]] + s[1..][..i];
        Some(i + 1)
  }

  /** One layer of matching double or single quotes around a value of two or more characters is removed. */
  function Unquote(v: string): string
  {
    if |v| >= 2 && ((v[0] == '"' && v[|v| - 1] == '"') || (v[0] == '\'' && v[|v| - 1] == '\'')) then v[1..|v| - 1]
    else v
  }

  /** Exactly one layer goes: a doubly quoted value keeps its inner quotes. */
  lemma UnquoteOneLayer(s: string)
    ensures Unquote("\"" + s + "\"") == s
    ensures Unquote("'" + s + "'") == s
  {
    assert ("\"" + s + "\"")[1..|s| + 1] == s;
    assert ("'" + s + "'")[1..|s| + 1] == s;
  }

  /** A value with mismatched quotes is kept as it is. */
  lemma UnquoteMismatched(s: string)
    ensures Unquote("\"" + s + "'") == "\"" + s + "'"
    ensures Unquote("'" + s + "\"") == "'" + s + "\""
  {
  }

  /**
   * One line of `parseEnvContent`: after trimming, an empty line or one
   * starting with "#" is skipped, as is a line without "="; otherwise the
   * line is split at its first "=" and both sides are trimmed, and the value
   * loses one layer of quotes.
   */
  function ParseLine(raw: string): (r: Option<(string, string)>)
    ensures var line := TrimSpace(raw);
            r.None? <==> line == "" || HasPrefix(line, "#") || '=' !in line
    ensures r.Some? ==> r == SplitEntry(TrimSpace(raw))
  {
    var line := TrimSpace(raw);
    if line == "" || HasPrefix(line, "#") then None else SplitEntry(line)
  }

  /** The key and the value of a line split at position `i`: both halves trimmed, the value unquoted. */
  function Halves(line: string, i: nat): (string, string)
    requires i < |line|
  {
    (TrimSpace(line[..i]), Unquote(TrimSpace(line[i + 1..])))
  }

  /** `strings.SplitN(line, "=", 2)` and the trimming of both halves: the key is what precedes the first "=". */
  function SplitEntry(line: string): (r: Option<(string, string)>)
    ensures r.None? <==> '=' !in line
    ensures r.Some? ==> exists i :: 0 <= i < |line| && line[i] == '=' && '=' !in line[..i] && r.value == Halves(line, i)
  {
    match IndexOf(line, '=')
    case None => None
    case Some(i) => Some(Halves(line, i))
  }

  /** What each line contributes, in order. */
  function Entries(lines: seq<string>): (r: seq<Option<(string, string)>>)
    ensures |r| == |lines| && forall k :: 0 <= k < |lines| ==> r[k] == ParseLine(lines[k])
  {
    seq(|lines|, k requires 0 <= k < |lines| => ParseLine(lines[k]))
  }

  /** The map after the entries, starting from `m`; a later key overwrites an earlier one. */
  function Apply(es: seq<Option<(string, string)>>, m: map<string, string>): (r: map<string, string>)
    decreases |es|
  {
    if |es| == 0 then m
    else
      var before := Apply(es[..|es| - 1], m);
      match es[|es| - 1]
      case None => before
      case Some(kv) => before[kv.0 := kv.1]
  }

  /** One more entry: its key, if it has one, is set to its value. */
  lemma ApplyStep(es: seq<Option<(string, string)>>, m: map<string, string>, i: int)
    requires 0 <= i < |es|
    ensures Apply(es[..i + 1], m) == if es[i].Some? then Apply(es[..i], m)[es[i].value.0 := es[i].value.1] else Apply(es[..i], m)
  {
    assert es[..i + 1][..i] == es[..i];
  }

  /** `parseEnvContent` as a function of the lines and the map it starts from. */
  function ParseLines(lines: seq<string>, m: map<string, string>): map<string, string> {
    Apply(Entries(lines), m)
  }

  /** Keys of the result: those of the starting map and those some entry defines. */
  lemma {:induction false} ApplyKeys(es: seq<Option<(string, string)>>, m: map<string, string>, k: string)
    ensures k in Apply(es, m) <==> k in m || exists j :: 0 <= j < |es| && es[j].Some? && es[j].value.0 == k
    decreases |es|
  {
    if |es| > 0 {
      var init := es[..|es| - 1];
      ApplyKeys(init, m, k);
      if exists j :: 0 <= j < |es| && es[j].Some? && es[j].value.0 == k {
        var j :| 0 <= j < |es| && es[j].Some? && es[j].value.0 == k;
        if j < |init| {
          assert init[j] == es[j];
        }
      }
      if exists j :: 0 <= j < |init| && init[j].Some? && init[j].value.0 == k {
        var j :| 0 <= j < |init| && init[j].Some? && init[j].value.0 == k;
        assert es[j] == init[j];
      }
    }
  }

  /** A key takes the value of the last entry that defines it. */
  lemma {:induction false} ApplyLastWins(es: seq<Option<(string, string)>>, m: map<string, string>, j: int)
    requires 0 <= j < |es| && es[j].Some?
    requires forall l :: j < l < |es| && es[l].Some? ==> es[l].value.0 != es[j].value.0
    ensures es[j].value.0 in Apply(es, m) && Apply(es, m)[es[j].value.0] == es[j].value.1
    decreases |es|
  {
    if j < |es| - 1 {
      var init := es[..|es| - 1];
      assert init[j] == es[j];
      forall l | j < l < |init| && init[l].Some?
        ensures init[l].value.0 != init[j].value.0
      {
        assert init[l] == es[l];
      }
      ApplyLastWins(init, m, j);
    }
  }

  /** Keys of the parsed map: those already there and those some line defines. */
  lemma ParseLinesKeys(lines: seq<string>, m: map<string, string>, k: string)
    ensures k in ParseLines(lines, m)
        <==> k in m || exists j :: 0 <= j < |lines| && ParseLine(lines[j]).Some? && ParseLine(lines[j]).value.0 == k
  {
    var es := Entries(lines);
    ApplyKeys(es, m, k);
    if exists j :: 0 <= j < |es| && es[j].Some? && es[j].value.0 == k {
      var j :| 0 <= j < |es| && es[j].Some? && es[j].value.0 == k;
      assert ParseLine(lines[j]) == es[j];
    }
  }

  /** A key takes the value of the last line that defines it. */
  lemma ParseLinesLastWins(lines: seq<string>, m: map<string, string>, j: int)
    requires 0 <= j < |lines| && ParseLine(lines[j]).Some?
    requires forall l :: j < l < |lines| && ParseLine(lines[l]).Some? ==> ParseLine(lines[l]).value.0 != ParseLine(lines[j]).value.0
    ensures var kv := ParseLine(lines[j]).value;
            kv.0 in ParseLines(lines, m) && ParseLines(lines, m)[kv.0] == kv.1
  {
    ApplyLastWins(Entries(lines), m, j);
  }

  /** `parseEnvContent`: every line of `content` in order, into `envMap`. */
  method ParseEnvContent(content: string, envMap: map<string, string>) returns (m: map<string, string>)
    ensures m == ParseLines(SplitLines(content), envMap)
  {
    var lines := SplitLines(content);
    ghost var es := Entries(lines);
    m := envMap;
    var i := 0;
    while i < |lines|
      invariant 0 <= i <= |lines|
      invariant m == Apply(es[..i], envMap)
    {
      var entry := ParseLine(lines[i]);
      assert es[i] == entry;
      ApplyStep(es, envMap, i);
      if entry.Some? {
        m := m[entry.value.0 := entry.value.1];
      }
      i := i + 1;
    }
    assert es[..i] == es;
  }

  // ------------------------------------------------------ typed lookups

  /** `getWithDefault` for a string: the stored value whenever the key is present, even when empty. */
  function GetStringWithDefault(env: map<string, string>, key: string, defaultValue: string): (r: string)
    ensures key in env ==> r == env[key]
    ensures key !in env ==> r == defaultValue
  {
    if key in env then env[key] else defaultValue
  }

  /** `getWithDefault` for an int: a value `strconv.Atoi` rejects gives the default. */
  function GetIntWithDefault(env: map<string, string>, key: string, defaultValue: int): (r: int)
    ensures key !in env ==> r == defaultValue
    ensures key in env && Atoi(env[key]).None? ==> r == defaultValue
    ensures key in env && Atoi(env[key]).Some? ==> r == Atoi(env[key]).value
  {
    if key !in env then defaultValue
    else match Atoi(env[key])
      case None => defaultValue
      case Some(v) => v
  }

  /**
   * `getWithDefault` for a bool: a present key is true exactly for "true",
   * "1", "yes" or "on" in any ASCII case, and false for anything else, never
   * the default.
   */
  function GetBoolWithDefault(env: map<string, string>, key: string, defaultValue: bool): (r: bool)
    ensures key !in env ==> r == defaultValue
    ensures key in env ==> (r <==> ToLower(env[key]) in {"true", "1", "yes", "on"})
  {
    if key !in env then defaultValue
    else
      var lower := ToLower(env[key]);
      lower == "true" || lower == "1" || lower == "yes" || lower == "on"
  }

  /** A present key with an unrecognised value reads as false even when the default is true. */
  lemma BoolIgnoresDefault(env: map<string, string>, key: string)
    requires key in env && env[key] == "false"
    ensures !GetBoolWithDefault(env, key, true)
  {
    assert ToLower("false") == "false";
  }

  // ---------------------------------------------------------- precedence

  datatype Mode = Release | Dev | OtherMode(name: string)

  function ModeOf(s: string): Mode {
    if s == "release" then Release else if s == "dev" then Dev else OtherMode(s)
  }

  datatype Env = Env(
    mode: Mode, ttsAppID: string, ttsAccessKey: string,
    biliAppID: string, biliAccessKey: string, biliSecretKey: string,
    llmMockEnabled: bool, llmVolcengineAPIKey: string, llmVolcengineModel: string)

  /**
   * `getVal`: a non-empty embedded value wins; a sensitive key does not
   * fall back to the local file; any other key takes the local value, else
   * the empty string.
   */
  function GetVal(embedded: map<string, string>, local: map<string, string>, key: string, sensitive: bool): (r: string)
    ensures key in embedded && embedded[key] != "" ==> r == embedded[key]
    ensures !(key in embedded && embedded[key] != "") && sensitive ==> r == ""
    ensures !(key in embedded && embedded[key] != "") && !sensitive ==> r == (if key in local then local[key] else "")
  {
    if key in embedded && embedded[key] != "" then embedded[key]
    else if sensitive then ""
    else if key in local then local[key]
    else ""
  }

  /** A local file can never supply a sensitive key. */
  lemma SensitiveIgnoresLocal(embedded: map<string, string>, local1: map<string, string>, local2: map<string, string>, key: string)
    ensures GetVal(embedded, local1, key, true) == GetVal(embedded, local2, key, true)
  {
  }

  /**
   * `loadEnvConfig` on the two parsed files: the B站 credentials are
   * sensitive, an empty mode becomes dev, and mock mode is on only for the
   * exact text "true".
   */
  function LoadEnv(embedded: map<string, string>, local: map<string, string>): (e: Env)
    ensures GetVal(embedded, local, "mode", false) == "" ==> e.mode == Dev
    ensures GetVal(embedded, local, "mode", false) != "" ==> e.mode == ModeOf(GetVal(embedded, local, "mode", false))
    ensures e.llmMockEnabled <==> GetVal(embedded, local, "llm_mock_enabled", false) == "true"
    ensures e.biliAppID == GetVal(embedded, local, "bili_app_id", true)
    ensures e.biliAccessKey == GetVal(embedded, local, "bili_access_key", true)
    ensures e.biliSecretKey == GetVal(embedded, local, "bili_secret_key", true)
    ensures e.ttsAppID == GetVal(embedded, local, "tts_x_api_app_id", false)
    ensures e.ttsAccessKey == GetVal(embedded, local, "tts_x_api_access_key", false)
  {
    var m := GetVal(embedded, local, "mode", false);
    Env(if m == "" then Dev else ModeOf(m),
        GetVal(embedded, local, "tts_x_api_app_id", false),
        GetVal(embedded, local, "tts_x_api_access_key", false),
        GetVal(embedded, local, "bili_app_id", true),
        GetVal(embedded, local, "bili_access_key", true),
        GetVal(embedded, local, "bili_secret_key", true),
        GetVal(embedded, local, "llm_mock_enabled", false) == "true",
        GetVal(embedded, local, "llm_volcengine_api_key", false),
        GetVal(embedded, local, "llm_volcengine_model", false))
  }

  /** No mode anywhere means development mode, and "TRUE" does not enable the mock. */
  lemma LoadEnvDefaults(embedded: map<string, string>, local: map<string, string>)
    requires "mode" !in embedded && "mode" !in local
    requires "llm_mock_enabled" !in embedded && local == map["llm_mock_enabled" := "TRUE"]
    ensures LoadEnv(embedded, local).mode == Dev && !LoadEnv(embedded, local).llmMockEnabled
  {
  }

  /** `IsDev`. */
  predicate IsDev(e: Env) { e.mode == Dev }

  /** The loaded settings are in development mode exactly when the mode read is empty or "dev". */
  lemma LoadedIsDev(embedded: map<string, string>, local: map<string, string>)
    ensures IsDev(LoadEnv(embedded, local)) <==> GetVal(embedded, local, "mode", false) in {"", "dev"}
  {
  }

  /** `GetBiliAppID`: the stored id as an int, or 0 when it is not one. */
  function GetBiliAppID(e: Env): (r: int)
    ensures Atoi(e.biliAppID).Some? ==> r == Atoi(e.biliAppID).value
    ensures Atoi(e.biliAppID).None? ==> r == 0
  {
    match Atoi(e.biliAppID)
    case Some(v) => v
    case None => 0
  }
}
