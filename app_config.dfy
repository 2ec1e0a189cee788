/**
 * The application configuration: fixed service constants, the TTS
 * credentials read from the environment, and the voice list of
 * `config.yaml` resolved against the built-in voice table. The parsed YAML
 * and the environment are inputs.
 */
module AppConfig {
  import opened Wrappers
  import opened Text

  const OpenPlatformHttpHost: string := "https://live-open.biliapi.com"
  const AppId: int := 1761135457345
  const TTSAPIUrl: string := "https://openspeech.bytedance.com/api/v3/tts/unidirectional"
  const TTSResourceID: string := "seed-tts-1.0"
  const TTSUID: string := "default_user"
  const TTSNamespace: string := "BidirectionalTTS"
  const WSEndpoint: string := "wss://openspeech.bytedance.com/api/v1/tts/ws_binary"
  const DefaultVoice: string := "zh_female_kefunvsheng_mars_bigtts"
  const DefaultEncoding: string := "mp3"
  const DefaultCluster: string := "volcano_tts"

  /** A voice of `config.yaml`: only its id. */
  datatype Voice = Voice(id: string)

  datatype YamlConfig = YamlConfig(idCode: string, voices: seq<Voice>)

  datatype EnvConfig = EnvConfig(ttsAccessKey: string, ttsAppId: string)

  datatype VoiceInfo = VoiceInfo(id: string, name: string, description: string, gender: string)

  /**
   * The entries of the built-in voice table, in the order they are written;
   * every entry is filed under its own id.
   */
  const VoiceTable: seq<VoiceInfo> := [
    VoiceInfo("zh_female_kefunvsheng_mars_bigtts", "可爱女声", "可爱活泼的女声", "female"),
    VoiceInfo("ICL_zh_female_qingyingduoduo_cs_tob", "清莹朵朵", "清脆悦耳的女声", "female"),
    VoiceInfo("ICL_zh_female_guaiqiaokeer_cs_tob", "乖巧可儿", "乖巧可爱的女声", "female"),
    VoiceInfo("ICL_zh_female_lixingyuanzi_cs_tob", "理性圆子", "理性温和的女声", "female"),
    VoiceInfo("ICL_zh_female_qingtiantaotao_cs_tob", "清甜桃桃", "清甜可人的女声", "female"),
    VoiceInfo("ICL_zh_female_qingxixiaoxue_cs_tob", "清晰小雪", "清晰明亮的女声", "female"),
    VoiceInfo("ICL_zh_female_qingtianmeimei_cs_tob", "清甜莓莓", "清甜如莓的女声", "female"),
    VoiceInfo("ICL_zh_female_kailangtingting_cs_tob", "开朗婷婷", "开朗活泼的女声", "female"),
    VoiceInfo("ICL_zh_female_wenwanshanshan_cs_tob", "温婉珊珊", "温婉柔和的女声", "female"),
    VoiceInfo("ICL_zh_female_tianmeixiaoyu_cs_tob", "甜美小雨", "甜美清新的女声", "female"),
    VoiceInfo("ICL_zh_female_reqingaina_cs_tob", "热情艾娜", "热情洋溢的女声", "female"),
    VoiceInfo("ICL_zh_female_tianmeixiaoju_cs_tob", "甜美小橘", "甜美活泼的女声", "female"),
    VoiceInfo("ICL_zh_female_lingdongxinxin_cs_tob", "灵动欣欣", "灵动可爱的女声", "female"),
    VoiceInfo("ICL_zh_female_nuanxinqianqian_cs_tob", "暖心茜茜", "温暖贴心的女声", "female"),
    VoiceInfo("ICL_zh_female_ruanmengtuanzi_cs_tob", "软萌团子", "软萌可爱的女声", "female"),
    VoiceInfo("ICL_zh_female_ruanmengtangtang_cs_tob", "软萌糖糖", "软萌甜美的女声", "female"),
    VoiceInfo("ICL_zh_female_xiuliqianqian_cs_tob", "秀丽倩倩", "秀丽优雅的女声", "female"),
    VoiceInfo("ICL_zh_female_kaixinxiaohong_cs_tob", "开心小鸿", "开心快乐的女声", "female"),
    VoiceInfo("zh_female_maomao_conversation_wvae_bigtts", "文静毛毛", "文静温柔的女声", "female"),
    VoiceInfo("ICL_zh_female_qiuling_v1_tob", "倾心少女", "青春少女的声音", "female"),
    VoiceInfo("ICL_zh_female_heainainai_tob", "和蔼奶奶", "和蔼慈祥的老年女声", "elderly_female"),
    VoiceInfo("ICL_zh_female_linjuayi_tob", "邻居阿姨", "亲切的中年女声", "female"),
    VoiceInfo("zh_female_wenrouxiaoya_moon_bigtts", "温柔小雅", "温柔优雅的女声", "female"),
    VoiceInfo("zh_female_peiqi_mars_bigtts", "佩奇猪", "可爱的卡通女声", "child"),
    VoiceInfo("zh_female_wuzetian_mars_bigtts", "武则天", "威严的古风女声", "female"),
    VoiceInfo("zh_female_gujie_mars_bigtts", "顾姐", "成熟知性的女声", "female"),
    VoiceInfo("zh_female_yingtaowanzi_mars_bigtts", "樱桃丸子", "甜美可爱的女声", "female"),
    VoiceInfo("zh_female_shaoergushi_mars_bigtts", "少儿故事", "适合讲故事的女声", "female"),
    VoiceInfo("zh_female_qiaopinvsheng_mars_bigtts", "俏皮女声", "俏皮活泼的女声", "female"),
    VoiceInfo("zh_female_jitangmeimei_mars_bigtts", "鸡汤妹妹", "温暖治愈的女声", "female"),
    VoiceInfo("zh_female_tiexinnvsheng_mars_bigtts", "贴心女声", "贴心温柔的女声", "female"),
    VoiceInfo("zh_female_mengyatou_mars_bigtts", "萌丫头", "萌萌哒的女声", "female"),
    VoiceInfo("zh_female_gufengshaoyu_mars_bigtts", "古风少御", "古风韵味的女声", "female"),
    VoiceInfo("zh_female_wenroushunv_mars_bigtts", "温柔淑女", "温柔淑雅的女声", "female"),
    VoiceInfo("ICL_zh_male_qinqiexiaozhuo_cs_tob", "亲切小卓", "亲切温和的男声", "male"),
    VoiceInfo("ICL_zh_male_qingxinmumu_cs_tob", "清新沐沐", "清新自然的男声", "male"),
    VoiceInfo("ICL_zh_male_shuanglangxiaoyang_cs_tob", "爽朗小阳", "爽朗阳光的男声", "male"),
    VoiceInfo("ICL_zh_male_qingxinbobo_cs_tob", "清新波波", "清新活力的男声", "male"),
    VoiceInfo("ICL_zh_male_chenwenmingzai_cs_tob", "沉稳明仔", "沉稳可靠的男声", "male"),
    VoiceInfo("ICL_zh_male_yangguangyangyang_cs_tob", "阳光洋洋", "阳光开朗的男声", "male"),
    VoiceInfo("zh_male_M100_conversation_wvae_bigtts", "悠悠君子", "儒雅的男声", "male"),
    VoiceInfo("ICL_zh_male_buyan_v1_tob", "醇厚低音", "醇厚磁性的男声", "male"),
    VoiceInfo("ICL_zh_male_BV144_paoxiaoge_v1_tob", "咆哮小哥", "激情澎湃的男声", "male"),
    VoiceInfo("zh_male_tiancaitongsheng_mars_bigtts", "天才童声", "聪明可爱的童声", "child"),
    VoiceInfo("zh_male_sunwukong_mars_bigtts", "猴哥", "孙悟空的声音", "male"),
    VoiceInfo("zh_male_xionger_mars_bigtts", "熊二", "憨厚可爱的熊二", "male"),
    VoiceInfo("zh_male_chunhui_mars_bigtts", "广告解说", "专业的广告解说声", "male"),
    VoiceInfo("zh_male_silang_mars_bigtts", "四郎", "古风男声", "male"),
    VoiceInfo("zh_male_lanxiaoyang_mars_bigtts", "懒音绵宝", "慵懒可爱的男声", "male"),
    VoiceInfo("zh_male_dongmanhaimian_mars_bigtts", "亮嗓萌仔", "清亮可爱的男声", "male"),
    VoiceInfo("zh_male_jieshuonansheng_mars_bigtts", "磁性解说男声", "磁性专业的解说声", "male"),
    VoiceInfo("ICL_zh_male_neiliancaijun_e991be511569_tob", "内敛才俊", "内敛有才的男声", "male"),
    VoiceInfo("ICL_zh_male_yangyang_v1_tob", "温暖少年", "温暖阳光的少年声", "male"),
    VoiceInfo("ICL_zh_male_flc_v1_tob", "儒雅公子", "儒雅温文的男声", "male"),
    VoiceInfo("zh_male_changtianyi_mars_bigtts", "悬疑解说", "神秘的悬疑解说声", "male"),
    VoiceInfo("zh_male_ruyaqingnian_mars_bigtts", "儒雅青年", "儒雅的青年男声", "male"),
    VoiceInfo("zh_male_baqiqingshu_mars_bigtts", "霸气青叔", "霸气成熟的男声", "male"),
    VoiceInfo("zh_male_qingcang_mars_bigtts", "擎苍", "威严霸气的男声", "male"),
    VoiceInfo("zh_male_yangguangqingnian_mars_bigtts", "活力小哥", "活力四射的男声", "male"),
    VoiceInfo("zh_male_fanjuanqingnian_mars_bigtts", "反卷青年", "轻松随性的男声", "male")
  ]

  /** A table keyed by each entry's id. */
  function KeyedById(entries: seq<VoiceInfo>): (m: map<string, VoiceInfo>)
    decreases |entries|
  {
    if |entries| == 0 then map[]
    else KeyedById(entries[..|entries| - 1])[entries[|entries| - 1].id := entries[|entries| - 1]]
  }

  /** Every entry of a keyed table is filed under its own id. */
  lemma {:induction false} KeyedByIdKeys(entries: seq<VoiceInfo>)
    ensures forall k | k in KeyedById(entries) :: KeyedById(entries)[k].id == k
    decreases |entries|
  {
    if |entries| > 0 {
      KeyedByIdKeys(entries[..|entries| - 1]);
    }
  }

  /** The built-in table from voice id to its description (`voiceNameMap`). */
  const VoiceNameMap: map<string, VoiceInfo> := KeyedById(VoiceTable)

  /** Every entry of the table is filed under its own id. */
  lemma TableKeysAreIds()
    ensures forall k | k in VoiceNameMap :: VoiceNameMap[k].id == k
  {
    KeyedByIdKeys(VoiceTable);
  }

  // ------------------------------------------------------------- environment

  /**
   * `getEnvWithDefault`: the environment's value, where an unset variable
   * and an empty one both count as missing. `env` is the process environment.
   */
  function GetEnvWithDefault(env: map<string, string>, key: string, defaultValue: string): (r: string)
    ensures key in env && env[key] != "" ==> r == env[key]
    ensures !(key in env && env[key] != "") ==> r == defaultValue
  {
    if key in env && env[key] != "" then env[key] else defaultValue
  }

  /** The names `validateEnvConfig` reports missing, in its fixed order. */
  function MissingVars(c: EnvConfig): (r: seq<string>)
    ensures "TTS_ACCESS_KEY" in r <==> c.ttsAccessKey == ""
    ensures "TTS_APP_ID" in r <==> c.ttsAppId == ""
    ensures |r| <= 2 && (|r| == 2 ==> r == ["TTS_ACCESS_KEY", "TTS_APP_ID"])
  {
    (if c.ttsAccessKey == "" then ["TTS_ACCESS_KEY"] else [])
    + (if c.ttsAppId == "" then ["TTS_APP_ID"] else [])
  }

  /**
   * `validateEnvConfig`: success exactly when both credentials are set;
   * otherwise an error naming the missing ones as Go prints a slice.
   */
  function ValidateEnvConfig(c: EnvConfig): (r: Outcome)
    ensures r.Pass? <==> c.ttsAccessKey != "" && c.ttsAppId != ""
    ensures r.Fail? ==> r.error == "缺少必需的环境变量: [" + Join(MissingVars(c), " ") + "]"
  {
    var missing := MissingVars(c);
    if |missing| > 0 then Fail("缺少必需的环境变量: [" + Join(missing, " ") + "]") else Pass
  }

  /** `LoadEnvConfig`'s body: both credentials default to empty, then validation. */
  function LoadEnvConfig(env: map<string, string>): (r: (EnvConfig, Outcome))
    ensures r.0.ttsAccessKey == GetEnvWithDefault(env, "TTS_ACCESS_KEY", "")
    ensures r.0.ttsAppId == GetEnvWithDefault(env, "TTS_APP_ID", "")
    ensures r.1.Pass? <==> r.0.ttsAccessKey != "" && r.0.ttsAppId != ""
  {
    var c := EnvConfig(GetEnvWithDefault(env, "TTS_ACCESS_KEY", ""), GetEnvWithDefault(env, "TTS_APP_ID", ""));
    (c, ValidateEnvConfig(c))
  }

  /** `GetTTSAccessKey`: the key, or empty when there is no configuration. */
  function GetTTSAccessKey(env: Option<EnvConfig>): (r: string)
    ensures env.None? ==> r == ""
    ensures env.Some? ==> r == env.value.ttsAccessKey
  {
    if env.Some? && env.value.ttsAccessKey != "" then env.value.ttsAccessKey else ""
  }

  /** `GetTTSAppID`: the app id, or empty when there is no configuration. */
  function GetTTSAppID(env: Option<EnvConfig>): (r: string)
    ensures env.None? ==> r == ""
    ensures env.Some? ==> r == env.value.ttsAppId
  {
    if env.Some? && env.value.ttsAppId != "" then env.value.ttsAppId else ""
  }

  // ----------------------------------------------------------- YAML config

  /** `getDefaultConfig`: no identity code and the one default voice. */
  function DefaultConfig(): (c: YamlConfig)
    ensures c.idCode == "" && |c.voices| == 1 && c.voices[0].id == DefaultVoice
  {
    YamlConfig("", [Voice(DefaultVoice)])
  }

  /** `GetIdCode`: the configured code; an unset code reads as empty. */
  function GetIdCode(c: YamlConfig): (r: string)
    ensures r == c.idCode
  {
    if c.idCode != "" then c.idCode else ""
  }

  // ------------------------------------------------------------- voices

  /** `GetVoiceInfoByID`: the table entry, or a placeholder named after the id. */
  function GetVoiceInfoByID(id: string): (r: VoiceInfo)
    ensures id in VoiceNameMap ==> r == VoiceNameMap[id]
    ensures id !in VoiceNameMap ==> r == VoiceInfo(id, id, "未知音色", "unknown")
  {
    if id in VoiceNameMap then VoiceNameMap[id] else VoiceInfo(id, id, "未知音色", "unknown")
  }

  /** Whatever the id, the resolved information carries that id. */
  lemma InfoKeepsId(id: string)
    ensures GetVoiceInfoByID(id).id == id
  {
    TableKeysAreIds();
  }

  /** `GetVoiceIDs`: the ids, in list order. */
  method GetVoiceIDs(voices: seq<Voice>) returns (ids: seq<string>)
    ensures |ids| == |voices|
    ensures forall i :: 0 <= i < |voices| ==> ids[i] == voices[i].id
  {
    ids := [];
    var i := 0;
    while i < |voices|
      invariant 0 <= i <= |voices| && |ids| == i
      invariant forall j :: 0 <= j < i ==> ids[j] == voices[j].id
    {
      ids := ids + [voices[i].id];
      i := i + 1;
    }
  }

  /** `GetVoiceInfos`: each voice resolved, in list order. */
  method GetVoiceInfos(voices: seq<Voice>) returns (infos: seq<VoiceInfo>)
    ensures |infos| == |voices|
    ensures forall i :: 0 <= i < |voices| ==> infos[i] == GetVoiceInfoByID(voices[i].id)
  {
    infos := [];
    var i := 0;
    while i < |voices|
      invariant 0 <= i <= |voices| && |infos| == i
      invariant forall j :: 0 <= j < i ==> infos[j] == GetVoiceInfoByID(voices[j].id)
    {
      var id := voices[i].id;
      var info: VoiceInfo;
      if id in VoiceNameMap {
        info := VoiceNameMap[id];
      } else {
        info := VoiceInfo(id, id, "未知音色", "unknown");
      }
      infos := infos + [info];
      i := i + 1;
    }
  }

  /** Each voice resolved against the table, in order. */
  function ResolvedInfos(voices: seq<Voice>): (r: seq<VoiceInfo>)
    ensures |r| == |voices|
    decreases |voices|
  {
    if |voices| == 0 then []
    else ResolvedInfos(voices[..|voices| - 1]) + [GetVoiceInfoByID(voices[|voices| - 1].id)]
  }

  lemma {:induction false} ResolvedInfosAt(voices: seq<Voice>, i: nat)
    requires i < |voices|
    ensures ResolvedInfos(voices)[i] == GetVoiceInfoByID(voices[i].id)
    decreases |voices|
  {
    if i < |voices| - 1 {
      var init := voices[..|voices| - 1];
      ResolvedInfosAt(init, i);
      assert init[i] == voices[i];
    }
  }

  /** The entries of `gender`, in order. */
  function WithGender(infos: seq<VoiceInfo>, gender: string): (r: seq<VoiceInfo>)
    ensures |r| <= |infos|
    ensures forall k :: 0 <= k < |r| ==> r[k].gender == gender
    decreases |infos|
  {
    if |infos| == 0 then []
    else
      var info := infos[|infos| - 1];
      WithGender(infos[..|infos| - 1], gender) + (if info.gender == gender then [info] else [])
  }

  /** The gender filter keeps exactly the entries of that gender. */
  lemma {:induction false} WithGenderExact(infos: seq<VoiceInfo>, gender: string, info: VoiceInfo)
    ensures info in WithGender(infos, gender) <==> info.gender == gender && info in infos
    decreases |infos|
  {
    if |infos| > 0 {
      var init := infos[..|infos| - 1];
      WithGenderExact(init, gender, info);
      assert infos == init + [infos[|infos| - 1]];
    }
  }

  /** The resolved information of the voices whose resolved gender is `gender`, in order. */
  function InfosWithGender(voices: seq<Voice>, gender: string): (r: seq<VoiceInfo>)
    ensures |r| <= |voices|
    ensures forall k :: 0 <= k < |r| ==> r[k].gender == gender
  {
    WithGender(ResolvedInfos(voices), gender)
  }

  /** The filter keeps exactly the matching resolved entries. */
  lemma InfosWithGenderExact(voices: seq<Voice>, gender: string, info: VoiceInfo)
    ensures info in InfosWithGender(voices, gender)
        <==> info.gender == gender && exists i :: 0 <= i < |voices| && info == GetVoiceInfoByID(voices[i].id)
  {
    var infos := ResolvedInfos(voices);
    WithGenderExact(infos, gender, info);
    if info in infos {
      var i :| 0 <= i < |infos| && infos[i] == info;
      ResolvedInfosAt(voices, i);
    }
    if exists i :: 0 <= i < |voices| && info == GetVoiceInfoByID(voices[i].id) {
      var i :| 0 <= i < |voices| && info == GetVoiceInfoByID(voices[i].id);
      ResolvedInfosAt(voices, i);
      assert infos[i] == info;
    }
  }

  /** One more voice: its resolution joins the filter when its gender matches. */
  lemma InfosWithGenderSnoc(voices: seq<Voice>, i: nat, gender: string)
    requires i < |voices|
    ensures var info := GetVoiceInfoByID(voices[i].id);
      InfosWithGender(voices[..i + 1], gender)
        == InfosWithGender(voices[..i], gender) + (if info.gender == gender then [info] else [])
  {
    var pre := voices[..i + 1];
    assert pre[..i] == voices[..i];
    var infos := ResolvedInfos(pre);
    assert infos == ResolvedInfos(voices[..i]) + [GetVoiceInfoByID(voices[i].id)];
    assert infos[..i] == ResolvedInfos(voices[..i]);
  }

  /** An entry of the gender filter carries the id of a configured voice. */
  lemma FilteredIsListed(voices: seq<Voice>, gender: string, info: VoiceInfo)
    requires info in InfosWithGender(voices, gender)
    ensures exists i :: 0 <= i < |voices| && voices[i] == Voice(info.id)
  {
    InfosWithGenderExact(voices, gender, info);
    var i :| 0 <= i < |voices| && info == GetVoiceInfoByID(voices[i].id);
    InfoKeepsId(voices[i].id);
    assert voices[i] == Voice(info.id);
  }

  /** `GetVoiceInfosByGender`: one pass, keeping the entries of that gender. */
  method GetVoiceInfosByGender(voices: seq<Voice>, gender: string) returns (result: seq<VoiceInfo>)
    ensures result == InfosWithGender(voices, gender)
  {
    result := [];
    var i := 0;
    while i < |voices|
      invariant 0 <= i <= |voices|
      invariant result == InfosWithGender(voices[..i], gender)
    {
      InfosWithGenderSnoc(voices, i, gender);
      var info := GetVoiceInfoByID(voices[i].id);
      if info.gender == gender {
        result := result + [info];
      }
      i := i + 1;
    }
    assert voices[..i] == voices;
  }

  /**
   * `GetVoicesByGender`: the ids of `GetVoiceInfosByGender`'s entries, in
   * order; every one of them is the id of a listed voice.
   */
  method GetVoicesByGender(voices: seq<Voice>, gender: string) returns (r: seq<Voice>)
    ensures |r| == |InfosWithGender(voices, gender)|
    ensures forall k :: 0 <= k < |r| ==> r[k].id == InfosWithGender(voices, gender)[k].id
    ensures forall k :: 0 <= k < |r| ==> exists i :: 0 <= i < |voices| && voices[i] == r[k]
  {
    var infos := GetVoiceInfosByGender(voices, gender);
    r := [];
    var k := 0;
    while k < |infos|
      invariant 0 <= k <= |infos| && |r| == k
      invariant forall j :: 0 <= j < k ==> r[j] == Voice(infos[j].id)
    {
      r := r + [Voice(infos[k].id)];
      k := k + 1;
    }
    forall j | 0 <= j < |r| ensures exists i :: 0 <= i < |voices| && voices[i] == r[j] {
      FilteredIsListed(voices, gender, infos[j]);
    }
  }

  /** `GetRandomVoice`: the default voice for an empty list, else a listed voice. */
  function GetRandomVoice(voices: seq<Voice>, choice: nat): (r: Voice)
    ensures |voices| == 0 ==> r == Voice(DefaultVoice)
    ensures |voices| > 0 ==> r in voices
  {
    if |voices| == 0 then Voice(DefaultVoice) else voices[choice % |voices|]
  }

  /** `GetRandomVoiceInfo`: the resolved information of a random voice. */
  function GetRandomVoiceInfo(voices: seq<Voice>, choice: nat): (r: VoiceInfo)
    ensures r.id == GetRandomVoice(voices, choice).id
  {
    InfoKeepsId(GetRandomVoice(voices, choice).id);
    GetVoiceInfoByID(GetRandomVoice(voices, choice).id)
  }

  /** `GetVoiceByID`: the first listed voice with that id, or nothing. */
  method GetVoiceByID(voices: seq<Voice>, id: string) returns (r: Option<Voice>)
    ensures r.None? <==> forall i :: 0 <= i < |voices| ==> voices[i].id != id
    ensures r.Some? ==> exists i :: 0 <= i < |voices| && voices[i] == r.value && r.value.id == id
                                    && forall j :: 0 <= j < i ==> voices[j].id != id
  {
    var i := 0;
    while i < |voices|
      invariant 0 <= i <= |voices|
      invariant forall j :: 0 <= j < i ==> voices[j].id != id
    {
      if voices[i].id == id {
        return Some(voices[i]);
      }
      i := i + 1;
    }
    r := None;
  }
}
