/**
 * The voice catalogue loaded from `voices.json`: the list of voices and the
 * indexes built over it (by id, by name, by voice type, and the male and
 * female partitions), with lookups that fall back to a random voice.
 * Randomness is a `choice` supplied by the caller; the pick is
 * `list[choice % |list|]`.
 */
module VoiceConfig {
  import opened Wrappers

  datatype Voice = Voice(id: nat, name: string, voiceType: string, gender: string, apiResourceID: string)

  // ------------------------------------------------------- specifications

  /** The map a loop `m[key(v)] = v` over `voices` leaves behind. */
  function IndexBy<K>(voices: seq<Voice>, key: Voice -> K): (m: map<K, Voice>)
    decreases |voices|
  {
    if |voices| == 0 then map[]
    else IndexBy(voices[..|voices| - 1], key)[key(voices[|voices| - 1]) := voices[|voices| - 1]]
  }

  /** The voices of one gender, in list order. */
  function WithGender(voices: seq<Voice>, gender: string): (r: seq<Voice>)
    ensures |r| <= |voices|
    ensures forall v :: v in r ==> v in voices && v.gender == gender
    decreases |voices|
  {
    if |voices| == 0 then []
    else WithGender(voices[..|voices| - 1], gender)
         + (if voices[|voices| - 1].gender == gender then [voices[|voices| - 1]] else [])
  }

  /** Keys of the index are exactly the keys of the voices. */
  lemma {:induction false} IndexByKeys<K>(voices: seq<Voice>, key: Voice -> K)
    ensures IndexBy(voices, key).Keys == set i | 0 <= i < |voices| :: key(voices[i])
    decreases |voices|
  {
    if |voices| > 0 {
      var init := voices[..|voices| - 1];
      IndexByKeys(init, key);
      var last := |voices| - 1;
      var all := set i | 0 <= i < |voices| :: key(voices[i]);
      var pre := set i | 0 <= i < |init| :: key(init[i]);
      forall k | k in all ensures k in pre + {key(voices[last])} {
        var i :| 0 <= i < |voices| && key(voices[i]) == k;
        if i < last {
          assert init[i] == voices[i];
        }
      }
      forall k | k in pre ensures k in all {
        var i :| 0 <= i < |init| && key(init[i]) == k;
        assert voices[i] == init[i];
      }
      assert all == pre + {key(voices[last])};
    }
  }

  /** One more voice: the index gains (or overwrites) that voice's key. */
  lemma IndexByStep<K>(voices: seq<Voice>, key: Voice -> K, i: int)
    requires 0 <= i < |voices|
    ensures IndexBy(voices[..i + 1], key) == IndexBy(voices[..i], key)[key(voices[i]) := voices[i]]
  {
    assert voices[..i + 1][..i] == voices[..i];
  }

  /** One more voice: the partition gains it exactly when it has that gender. */
  lemma WithGenderStep(voices: seq<Voice>, gender: string, i: int)
    requires 0 <= i < |voices|
    ensures WithGender(voices[..i + 1], gender)
         == WithGender(voices[..i], gender) + (if voices[i].gender == gender then [voices[i]] else [])
  {
    assert voices[..i + 1][..i] == voices[..i];
  }

  /** Last writer wins: each key maps to the last voice carrying it. */
  lemma {:induction false} IndexByLast<K>(voices: seq<Voice>, key: Voice -> K, j: int)
    requires 0 <= j < |voices|
    requires forall l :: j < l < |voices| ==> key(voices[l]) != key(voices[j])
    ensures key(voices[j]) in IndexBy(voices, key) && IndexBy(voices, key)[key(voices[j])] == voices[j]
    decreases |voices|
  {
    if j < |voices| - 1 {
      var init := voices[..|voices| - 1];
      forall l | j < l < |init| ensures key(init[l]) != key(init[j]) {
        assert init[l] == voices[l];
      }
      IndexByLast(init, key, j);
    }
  }

  /** Every indexed voice is one of the list's voices and carries its key. */
  lemma {:induction false} IndexByValues<K>(voices: seq<Voice>, key: Voice -> K)
    ensures forall k :: k in IndexBy(voices, key) ==> IndexBy(voices, key)[k] in voices && key(IndexBy(voices, key)[k]) == k
    decreases |voices|
  {
    if |voices| > 0 {
      IndexByValues(voices[..|voices| - 1], key);
    }
  }

  /**
   * The partition keeps exactly the voices of that gender, with their
   * multiplicities and in order (it is the list filtered).
   */
  lemma {:induction false} WithGenderExact(voices: seq<Voice>, gender: string, v: Voice)
    ensures v in WithGender(voices, gender) <==> v in voices && v.gender == gender
    decreases |voices|
  {
    if |voices| > 0 {
      WithGenderExact(voices[..|voices| - 1], gender, v);
      assert voices == voices[..|voices| - 1] + [voices[|voices| - 1]];
    }
  }

  /** A voice of any other gender is in neither partition. */
  lemma OtherGenderInNeither(voices: seq<Voice>, v: Voice)
    requires v.gender != "male" && v.gender != "female"
    ensures v !in WithGender(voices, "male") && v !in WithGender(voices, "female")
  {
  }

  function RandomOf(list: seq<Voice>, choice: nat): (r: Option<Voice>)
    ensures r.None? <==> |list| == 0
    ensures r.Some? ==> r.value in list
  {
    if |list| == 0 then None else Some(list[choice % |list|])
  }

  function IdKey(v: Voice): nat { v.id }
  function NameKey(v: Voice): string { v.name }
  function TypeKey(v: Voice): string { v.voiceType }

  // ------------------------------------------------------------ the store

  class Store {
    var voices: seq<Voice>
    var idMap: map<nat, Voice>
    var nameMap: map<string, Voice>
    var typeMap: map<string, Voice>
    var maleVoices: seq<Voice>
    var femaleVoices: seq<Voice>

    /** Every index is the one `buildVoiceIndexes` builds from `voices`. */
    ghost predicate Valid()
      reads this
    {
      && idMap == IndexBy(voices, IdKey)
      && nameMap == IndexBy(voices, NameKey)
      && typeMap == IndexBy(voices, TypeKey)
      && maleVoices == WithGender(voices, "male")
      && femaleVoices == WithGender(voices, "female")
    }

    /** `loadVoiceConfig` after a successful parse: the list and its indexes. */
    constructor (voices: seq<Voice>)
      ensures this.voices == voices && Valid()
    {
      this.voices := voices;
      idMap, nameMap, typeMap := map[], map[], map[];
      maleVoices, femaleVoices := [], [];
      new;
      BuildVoiceIndexes();
    }

    /** `buildVoiceIndexes`: one pass over the list; the list is left as it was. */
    method BuildVoiceIndexes()
      modifies this
      ensures voices == old(voices) && Valid()
    {
      idMap, nameMap, typeMap := map[], map[], map[];
      maleVoices, femaleVoices := [], [];
      var i := 0;
      while i < |voices|
        invariant 0 <= i <= |voices| && voices == old(voices)
        invariant idMap == IndexBy(voices[..i], IdKey)
        invariant nameMap == IndexBy(voices[..i], NameKey)
        invariant typeMap == IndexBy(voices[..i], TypeKey)
        invariant maleVoices == WithGender(voices[..i], "male")
        invariant femaleVoices == WithGender(voices[..i], "female")
        decreases |voices| - i
      {
        var v := voices[i];
        IndexByStep(voices, IdKey, i);
        IndexByStep(voices, NameKey, i);
        IndexByStep(voices, TypeKey, i);
        WithGenderStep(voices, "male", i);
        WithGenderStep(voices, "female", i);
        idMap := idMap[v.id := v];
        nameMap := nameMap[v.name := v];
        typeMap := typeMap[v.voiceType := v];
        if v.gender == "male" {
          maleVoices := maleVoices + [v];
        } else if v.gender == "female" {
          femaleVoices := femaleVoices + [v];
        }
        i := i + 1;
      }
      assert voices[..i] == voices;
    }

    method GetVoices() returns (r: seq<Voice>)
      ensures r == voices
    {
      r := voices;
    }

    /** `GetVoiceByID`: no fallback; an unknown id gives nothing. */
    method GetVoiceByID(id: nat) returns (r: Option<Voice>)
      requires Valid()
      ensures r.None? <==> id !in set i | 0 <= i < |voices| :: voices[i].id
      ensures r.Some? ==> r.value in voices && r.value.id == id
      ensures r.Some? ==> id in IndexBy(voices, IdKey) && r.value == IndexBy(voices, IdKey)[id]
    {
      IndexByKeys(voices, IdKey);
      IndexByValues(voices, IdKey);
      if id in idMap {
        r := Some(idMap[id]);
      } else {
        r := None;
      }
    }

    /** `GetVoiceByName`: the indexed voice, or a random one for an unknown name. */
    method GetVoiceByName(name: string, choice: nat) returns (r: Option<Voice>)
      requires Valid()
      ensures name in nameMap ==> r == Some(nameMap[name]) && r.value.name == name && r.value in voices
      ensures name !in nameMap ==> r == RandomOf(voices, choice)
      ensures r.None? <==> |voices| == 0
    {
      IndexByKeys(voices, NameKey);
      IndexByValues(voices, NameKey);
      if name in nameMap {
        r := Some(nameMap[name]);
      } else {
        r := GetRandomVoice(choice);
      }
    }

    /** `GetVoiceByType`: the indexed voice, or a random one for an unknown type. */
    method GetVoiceByType(voiceType: string, choice: nat) returns (r: Option<Voice>)
      requires Valid()
      ensures voiceType in typeMap ==> r == Some(typeMap[voiceType]) && r.value.voiceType == voiceType && r.value in voices
      ensures voiceType !in typeMap ==> r == RandomOf(voices, choice)
      ensures r.None? <==> |voices| == 0
    {
      IndexByKeys(voices, TypeKey);
      IndexByValues(voices, TypeKey);
      if voiceType in typeMap {
        r := Some(typeMap[voiceType]);
      } else {
        r := GetRandomVoice(choice);
      }
    }

    /** `GetRandomVoice`: nothing exactly when the list is empty, else one of its voices. */
    method GetRandomVoice(choice: nat) returns (r: Option<Voice>)
      ensures r == RandomOf(voices, choice)
      ensures r.None? <==> |voices| == 0
      ensures r.Some? ==> r.value in voices
    {
      if |voices| == 0 {
        return None;
      }
      r := Some(voices[choice % |voices|]);
    }

    /** `GetMaleVoices`: a copy of the male partition. */
    method GetMaleVoices() returns (r: seq<Voice>)
      requires Valid()
      ensures r == WithGender(voices, "male")
    {
      r := maleVoices;
    }

    /** `GetFemaleVoices`: a copy of the female partition. */
    method GetFemaleVoices() returns (r: seq<Voice>)
      requires Valid()
      ensures r == WithGender(voices, "female")
    {
      r := femaleVoices;
    }

    method GetRandomMaleVoice(choice: nat) returns (r: Option<Voice>)
      requires Valid()
      ensures r == RandomOf(WithGender(voices, "male"), choice)
      ensures r.Some? ==> r.value in voices && r.value.gender == "male"
    {
      if |maleVoices| == 0 {
        return None;
      }
      r := Some(maleVoices[choice % |maleVoices|]);
    }

    method GetRandomFemaleVoice(choice: nat) returns (r: Option<Voice>)
      requires Valid()
      ensures r == RandomOf(WithGender(voices, "female"), choice)
      ensures r.Some? ==> r.value in voices && r.value.gender == "female"
    {
      if |femaleVoices| == 0 {
        return None;
      }
      r := Some(femaleVoices[choice % |femaleVoices|]);
    }
  }
}
