/**
 * The per-viewer voice assignments kept in `user_voices.yaml`: which voice
 * type each user speaks with and when the user was last active, the
 * assignment of a random voice to a newcomer, and the cleanup of users
 * inactive for longer than the configured number of days. Time is `now`
 * in seconds; the file's contents and the outcome of saving are inputs.
 */
module UserVoice {
  import opened Wrappers
  import VoiceConfig

  datatype UserVoiceInfo = UserVoiceInfo(voiceType: string, lastActiveTime: int)

  const SecondsPerDay := 86400

  /** What `loadUserVoices` found on disk. */
  datatype LoadSource =
    | FileMissing
    | ReadFailed
    | Unparsable
    | NewFormat(users: map<string, UserVoiceInfo>)
    | LegacyFormat(legacy: map<string, string>)

  // ------------------------------------------------------- specifications

  /** The days of inactivity after which a user is dropped; 30 when the setting is not positive. */
  function CleanupDays(cleanupInterval: int): (d: int)
    ensures d > 0
    ensures cleanupInterval > 0 ==> d == cleanupInterval
  {
    if cleanupInterval <= 0 then 30 else cleanupInterval
  }

  /** The largest store kept at load time without a cleanup; 1000 when the setting is not positive. */
  function MaxUsers(maxUserDataLen: int): (n: int)
    ensures n > 0
    ensures maxUserDataLen > 0 ==> n == maxUserDataLen
  {
    if maxUserDataLen <= 0 then 1000 else maxUserDataLen
  }

  /** `time.Now().AddDate(0, 0, -days)` taken as whole days of seconds: the cutoff lies that many days before now. */
  function Cutoff(cleanupInterval: int, now: int): (r: int)
    ensures r <= now - SecondsPerDay
    ensures (now - r) % SecondsPerDay == 0
    ensures (now - r) / SecondsPerDay == CleanupDays(cleanupInterval)
  {
    now - CleanupDays(cleanupInterval) * SecondsPerDay
  }

  /** The users last active strictly before `cutoff`. */
  function Inactive(users: map<string, UserVoiceInfo>, cutoff: int): (r: set<string>)
    ensures r <= users.Keys
    ensures forall u :: u in r <==> u in users && users[u].lastActiveTime < cutoff
  {
    set u | u in users && users[u].lastActiveTime < cutoff
  }

  /** The store without its inactive users. */
  function Kept(users: map<string, UserVoiceInfo>, cutoff: int): (r: map<string, UserVoiceInfo>)
    ensures forall u :: u in r <==> u in users && users[u].lastActiveTime >= cutoff
    ensures forall u :: u in r ==> r[u] == users[u]
  {
    map u | u in users && users[u].lastActiveTime >= cutoff :: users[u]
  }

  /** Cleanup splits the store: every user is either kept unchanged or counted as removed, never both. */
  lemma CleanupPartition(users: map<string, UserVoiceInfo>, cutoff: int)
    ensures Kept(users, cutoff).Keys + Inactive(users, cutoff) == users.Keys
    ensures Kept(users, cutoff).Keys * Inactive(users, cutoff) == {}
    ensures |Kept(users, cutoff)| + |Inactive(users, cutoff)| == |users|
  {
    var k := Kept(users, cutoff).Keys;
    var d := Inactive(users, cutoff);
    assert k + d == users.Keys;
    assert k * d == {};
    DisjointUnionSize(k, d);
  }

  lemma {:induction false} DisjointUnionSize<T>(a: set<T>, b: set<T>)
    requires a * b == {}
    ensures |a + b| == |a| + |b|
    decreases |a|
  {
    if a != {} {
      var x :| x in a;
      DisjointUnionSize(a - {x}, b);
      assert (a - {x}) + b == (a + b) - {x};
    }
  }

  /** A second cleanup with the same cutoff removes nobody. */
  lemma CleanupIdempotent(users: map<string, UserVoiceInfo>, cutoff: int)
    ensures Kept(Kept(users, cutoff), cutoff) == Kept(users, cutoff)
    ensures Inactive(Kept(users, cutoff), cutoff) == {}
  {
  }

  /** The old file format: every user, with the same single timestamp. */
  function Converted(legacy: map<string, string>, now: int): (r: map<string, UserVoiceInfo>)
    ensures r.Keys == legacy.Keys
    ensures forall u :: u in r ==> r[u] == UserVoiceInfo(legacy[u], now)
  {
    map u | u in legacy :: UserVoiceInfo(legacy[u], now)
  }

  /** A sequence without repeats has as many elements as its set. */
  lemma {:induction false} DistinctSize<T>(s: seq<T>)
    requires forall i, j :: 0 <= i < j < |s| ==> s[i] != s[j]
    ensures |set x | x in s| == |s|
    decreases |s|
  {
    if |s| > 0 {
      var init := s[..|s| - 1];
      DistinctSize(init);
      var last := s[|s| - 1];
      var all := set x | x in s;
      var pre := set x | x in init;
      assert all == pre + {last};
      assert last !in pre;
    }
  }

  /** What `loadUserVoices` reads: the file, and the two settings it consults. */
  datatype LoadInput = LoadInput(src: LoadSource, maxUserDataLen: int, cleanupInterval: int)

  /** The size check after loading: a store with more users than the limit loses its inactive ones. */
  function Gated(base: map<string, UserVoiceInfo>, load: LoadInput, now: int): (r: map<string, UserVoiceInfo>)
    ensures |base| <= MaxUsers(load.maxUserDataLen) ==> r == base
    ensures forall u :: u in r ==> u in base && r[u] == base[u]
  {
    if |base| > MaxUsers(load.maxUserDataLen) then Kept(base, Cutoff(load.cleanupInterval, now)) else base
  }

  /**
   * The store once `loadUserVoices` has run, from `users` as it stood: a
   * second load changes nothing; a missing file starts empty; a read or parse
   * failure keeps what is there; the new format is taken as it is and the old
   * one converted; either is then size-checked.
   */
  function AfterLoad(wasLoaded: bool, users: map<string, UserVoiceInfo>, load: LoadInput, now: int): (r: map<string, UserVoiceInfo>)
    ensures wasLoaded ==> r == users
    ensures !wasLoaded && load.src.FileMissing? ==> r == map[]
    ensures !wasLoaded && (load.src.ReadFailed? || load.src.Unparsable?) ==> r == users
    ensures !wasLoaded && load.src.NewFormat? ==>
      forall u :: u in r ==> u in load.src.users && r[u] == load.src.users[u]
    ensures !wasLoaded && load.src.LegacyFormat? ==>
      forall u :: u in r ==> u in load.src.legacy && r[u] == UserVoiceInfo(load.src.legacy[u], now)
  {
    if wasLoaded then users
    else match load.src
      case FileMissing => map[]
      case ReadFailed => users
      case Unparsable => users
      case NewFormat(m) => Gated(m, load, now)
      case LegacyFormat(l) => Gated(Converted(l, now), load, now)
  }

  /**
   * A user stored in a new-format file is in the store after the first load,
   * with the file's entry, unless the file holds more users than the limit
   * and that user has been inactive since before the cutoff.
   */
  lemma StoredUserSurvivesLoad(users: map<string, UserVoiceInfo>, load: LoadInput, now: int, u: string)
    requires load.src.NewFormat? && u in load.src.users
    ensures var m := load.src.users;
      u in AfterLoad(false, users, load, now)
      <==> |m| <= MaxUsers(load.maxUserDataLen) || m[u].lastActiveTime >= Cutoff(load.cleanupInterval, now)
    ensures u in AfterLoad(false, users, load, now) ==> AfterLoad(false, users, load, now)[u] == load.src.users[u]
  {
    var m := load.src.users;
    if |m| > MaxUsers(load.maxUserDataLen) {
      assert AfterLoad(false, users, load, now) == Kept(m, Cutoff(load.cleanupInterval, now));
    }
  }

  // ------------------------------------------------------------ the store

  class Registry {
    var users: map<string, UserVoiceInfo>
    var loaded: bool

    /** The package's starting state: an empty, not yet loaded store. */
    constructor ()
      ensures users == map[] && !loaded
    {
      users := map[];
      loaded := false;
    }

    /**
     * `loadUserVoices`, at most once: a missing file starts empty, a read
     * or parse failure keeps what is there, the new format is taken as it
     * is and the old one converted with one timestamp; then, when there are
     * more users than the limit, the inactive ones are dropped.
     */
    method LoadUserVoices(load: LoadInput, now: int)
      modifies this
      ensures loaded
      ensures users == AfterLoad(old(loaded), old(users), load, now)
    {
      if loaded {
        return;
      }
      loaded := true;
      match load.src
      case FileMissing =>
        users := map[];
      case ReadFailed =>
      case Unparsable =>
      case NewFormat(m) =>
        users := m;
        LoadGate(load.maxUserDataLen, load.cleanupInterval, now);
      case LegacyFormat(l) =>
        var converted := ConvertLegacy(l, now);
        users := converted;
        LoadGate(load.maxUserDataLen, load.cleanupInterval, now);
    }

    /** The size check after loading. */
    method LoadGate(maxUserDataLen: int, cleanupInterval: int, now: int)
      modifies this
      ensures loaded == old(loaded)
      ensures users == if |old(users)| > MaxUsers(maxUserDataLen) then Kept(old(users), Cutoff(cleanupInterval, now)) else old(users)
    {
      var maxUserLen := maxUserDataLen;
      if maxUserLen <= 0 {
        maxUserLen := 1000;
      }
      if |users| > maxUserLen {
        var _ := CleanupInactiveUsersInternal(cleanupInterval, now);
      }
    }

    /** The conversion loop over the old format's entries. */
    static method ConvertLegacy(legacy: map<string, string>, now: int) returns (r: map<string, UserVoiceInfo>)
      ensures r == Converted(legacy, now)
    {
      r := map[];
      var remaining := legacy.Keys;
      while remaining != {}
        invariant remaining <= legacy.Keys
        invariant r.Keys == legacy.Keys - remaining
        invariant forall u :: u in r ==> r[u] == UserVoiceInfo(legacy[u], now)
        decreases |remaining|
      {
        var u :| u in remaining;
        r := r[u := UserVoiceInfo(legacy[u], now)];
        remaining := remaining - {u};
      }
    }

    /**
     * `GetUserVoice`: after the one-time load, a newcomer gets a random
     * voice, stored with its type and the current time, unless there is no
     * voice at all, in which case nothing is stored; a known user's activity
     * time is refreshed and the voice of the stored type is returned.
     */
    method GetUserVoice(store: VoiceConfig.Store, load: LoadInput, userName: string, now: int, choice: nat)
      returns (r: Option<VoiceConfig.Voice>)
      requires store.Valid()
      modifies this
      ensures loaded
      ensures var before := AfterLoad(old(loaded), old(users), load, now);
        && (userName !in before ==>
              && r == VoiceConfig.RandomOf(store.voices, choice)
              && (r.None? ==> users == before)
              && (r.Some? ==> users == before[userName := UserVoiceInfo(r.value.voiceType, now)]))
        && (userName in before ==>
              && users == before[userName := before[userName].(lastActiveTime := now)]
              && (before[userName].voiceType in store.typeMap ==> r == Some(store.typeMap[before[userName].voiceType]))
              && (before[userName].voiceType !in store.typeMap ==> r == VoiceConfig.RandomOf(store.voices, choice)))
    {
      LoadUserVoices(load, now);
      if userName !in users {
        var v := store.GetRandomVoice(choice);
        if v.None? {
          return None;
        }
        users := users[userName := UserVoiceInfo(v.value.voiceType, now)];
        return v;
      }
      var info := users[userName].(lastActiveTime := now);
      users := users[userName := info];
      r := store.GetVoiceByType(info.voiceType, choice);
    }

    /**
     * `SetUserVoice`: after the one-time load, the type is resolved through
     * `GetVoiceByType`, which falls back to a random voice, so only an empty
     * catalogue is refused; the resolved voice's type is stored with the
     * current time before the file is saved, so a failed save leaves the new
     * entry in memory.
     */
    method SetUserVoice(store: VoiceConfig.Store, load: LoadInput, userName: string, voiceType: string, now: int,
                        choice: nat, save: Outcome)
      returns (r: Outcome)
      requires store.Valid()
      modifies this
      ensures loaded
      ensures var before := AfterLoad(old(loaded), old(users), load, now);
        && (|store.voices| == 0 ==> r == Fail("音色类型 " + voiceType + " 不存在") && users == before)
        && (|store.voices| > 0 ==>
              var v := if voiceType in store.typeMap then store.typeMap[voiceType] else store.voices[choice % |store.voices|];
              && users == before[userName := UserVoiceInfo(v.voiceType, now)]
              && (save.Pass? ==> r.Pass?)
              && (save.Fail? ==> r == Fail("保存配置失败: " + save.error)))
      ensures voiceType in store.typeMap ==> userName in users && users[userName].voiceType == voiceType
    {
      LoadUserVoices(load, now);
      var voice := store.GetVoiceByType(voiceType, choice);
      if voice.None? {
        return Fail("音色类型 " + voiceType + " 不存在");
      }
      users := users[userName := UserVoiceInfo(voice.value.voiceType, now)];
      if save.Fail? {
        return Fail("保存配置失败: " + save.error);
      }
      r := Pass;
    }

    /** `GetAllUserVoices`: after the one-time load, a copy, entry by entry. */
    method GetAllUserVoices(load: LoadInput, now: int) returns (r: map<string, UserVoiceInfo>)
      modifies this
      ensures loaded && users == AfterLoad(old(loaded), old(users), load, now)
      ensures r == users
    {
      LoadUserVoices(load, now);
      r := map[];
      var remaining := users.Keys;
      while remaining != {}
        invariant remaining <= users.Keys
        invariant r.Keys == users.Keys - remaining
        invariant forall u :: u in r ==> r[u] == users[u]
        decreases |remaining|
      {
        var u :| u in remaining;
        r := r[u := users[u]];
        remaining := remaining - {u};
      }
    }

    /** `GetUserCount`: after the one-time load, the number of stored users. */
    method GetUserCount(load: LoadInput, now: int) returns (n: nat)
      modifies this
      ensures loaded && users == AfterLoad(old(loaded), old(users), load, now)
      ensures n == |users|
    {
      LoadUserVoices(load, now);
      n := |users|;
    }

    /** `UpdateUserActivity`: after the one-time load, only a known user's time changes; nobody is added. */
    method UpdateUserActivity(load: LoadInput, userName: string, now: int)
      modifies this
      ensures loaded
      ensures var before := AfterLoad(old(loaded), old(users), load, now);
        && (userName in before ==> users == before[userName := before[userName].(lastActiveTime := now)])
        && (userName !in before ==> users == before)
    {
      LoadUserVoices(load, now);
      if userName in users {
        users := users[userName := users[userName].(lastActiveTime := now)];
      }
    }

    /** `CleanupInactiveUsers`: after the one-time load, the cleanup, returning how many users it removed. */
    method CleanupInactiveUsers(load: LoadInput, now: int) returns (count: nat)
      modifies this
      ensures loaded
      ensures var before := AfterLoad(old(loaded), old(users), load, now);
        && users == Kept(before, Cutoff(load.cleanupInterval, now))
        && count == |Inactive(before, Cutoff(load.cleanupInterval, now))|
    {
      LoadUserVoices(load, now);
      count := CleanupInactiveUsersInternal(load.cleanupInterval, now);
    }

    /**
     * `cleanupInactiveUsersInternal`: collect the users last active before
     * the cutoff, then delete them one by one, counting.
     */
    method CleanupInactiveUsersInternal(cleanupInterval: int, now: int) returns (count: nat)
      modifies this
      ensures loaded == old(loaded)
      ensures users == Kept(old(users), Cutoff(cleanupInterval, now))
      ensures count == |Inactive(old(users), Cutoff(cleanupInterval, now))|
      ensures |users| + count == |old(users)|
    {
      var cleanupDays := cleanupInterval;
      if cleanupDays <= 0 {
        cleanupDays := 30;
      }
      assert cleanupDays == CleanupDays(cleanupInterval);
      var timeAgo := now - cleanupDays * SecondsPerDay;
      assert timeAgo == Cutoff(cleanupInterval, now);
      ghost var start := users;
      var usersToDelete := CollectInactive(users, timeAgo);
      DistinctSize(usersToDelete);
      count := DeleteUsers(usersToDelete);
      assert users.Keys == Kept(start, timeAgo).Keys;
      assert users == Kept(start, timeAgo);
      CleanupPartition(start, timeAgo);
    }

    /** The second loop of the cleanup: delete each listed user, counting. */
    method DeleteUsers(usersToDelete: seq<string>) returns (count: nat)
      modifies this
      ensures loaded == old(loaded) && count == |usersToDelete|
      ensures users.Keys == old(users).Keys - (set x | x in usersToDelete)
      ensures forall u :: u in users ==> users[u] == old(users)[u]
    {
      count := 0;
      var i := 0;
      ghost var deleted: set<string> := {};
      while i < |usersToDelete|
        invariant 0 <= i <= |usersToDelete| && count == i && loaded == old(loaded)
        invariant deleted <= (set x | x in usersToDelete)
        invariant forall k :: 0 <= k < i ==> usersToDelete[k] in deleted
        invariant users.Keys == old(users).Keys - deleted
        invariant forall u :: u in users ==> users[u] == old(users)[u]
      {
        deleted := deleted + {usersToDelete[i]};
        users := users - {usersToDelete[i]};
        count := count + 1;
        i := i + 1;
      }
      forall x | x in (set y | y in usersToDelete) ensures x in deleted {
        var k :| 0 <= k < |usersToDelete| && usersToDelete[k] == x;
      }
    }

    /** The first loop of the cleanup: each inactive user once, in the map's iteration order. */
    static method CollectInactive(users: map<string, UserVoiceInfo>, timeAgo: int) returns (usersToDelete: seq<string>)
      ensures forall i, j :: 0 <= i < j < |usersToDelete| ==> usersToDelete[i] != usersToDelete[j]
      ensures (set x | x in usersToDelete) == Inactive(users, timeAgo)
    {
      usersToDelete := [];
      var remaining := users.Keys;
      while remaining != {}
        invariant remaining <= users.Keys
        invariant forall i, j :: 0 <= i < j < |usersToDelete| ==> usersToDelete[i] != usersToDelete[j]
        invariant forall i :: 0 <= i < |usersToDelete| ==> usersToDelete[i] !in remaining
        invariant (set x | x in usersToDelete) == Inactive(users, timeAgo) - remaining
        decreases |remaining|
      {
        var u :| u in remaining;
        ghost var before := usersToDelete;
        if users[u].lastActiveTime < timeAgo {
          usersToDelete := usersToDelete + [u];
        }
        if users[u].lastActiveTime < timeAgo {
          ElementsOfSnoc(before, u);
        }
        InactiveStep(users, timeAgo, remaining, u);
        remaining := remaining - {u};
      }
    }

    static lemma ElementsOfSnoc(s: seq<string>, u: string)
      ensures (set x | x in s + [u]) == (set x | x in s) + {u}
    {
    }

    /** Taking `u` out of the users still to look at adds `u` to those collected exactly when it is inactive. */
    static lemma InactiveStep(users: map<string, UserVoiceInfo>, timeAgo: int, remaining: set<string>, u: string)
      requires u in remaining && remaining <= users.Keys
      ensures Inactive(users, timeAgo) - (remaining - {u})
           == (Inactive(users, timeAgo) - remaining) + (if users[u].lastActiveTime < timeAgo then {u} else {})
    {
    }
  }
}
