/**
 * Voice-mute bookkeeping (commands/muted.js): the `HH:MM:SS` formatter, the two
 * per-user maps updated on self-mute and self-unmute transitions, and the two
 * read-only lookup commands `!check_mute_time` and `!check_muted`.
 * `Date.now()` is the parameter `now` (milliseconds).
 */
module Mute {
  import opened Text

  type UserId = string

  // ---------------------------------------------------------------------------
  // formatTime

  /** JavaScript's `%`: the remainder has the sign of the dividend. */
  function JsRem(a: int, b: int): int
    requires b > 0
  {
    if a >= 0 then a % b else -((-a) % b)
  }

  datatype Clock = Clock(hours: int, minutes: int, seconds: int)

  /** The three fields `formatTime` computes from a duration in milliseconds. */
  function ClockOf(ms: int): Clock
  {
    // Dafny's `/` with a positive divisor is the floor, as Math.floor(a / b) is.
    var totalSeconds := ms / 1000;
    Clock(totalSeconds / 3600, JsRem(totalSeconds, 3600) / 60, JsRem(totalSeconds, 60))
  }

  /** For a non-negative duration the fields are whole hours, minutes and seconds. */
  lemma ClockOfFields(ms: int)
    requires ms >= 0
    ensures var c := ClockOf(ms);
      && c.hours >= 0
      && 0 <= c.minutes < 60 && 0 <= c.seconds < 60
      && c.hours * 3600 + c.minutes * 60 + c.seconds == ms / 1000
  {
    ClockFields(ms / 1000);
  }

  lemma ClockFields(t: nat)
    ensures (t % 3600) / 60 * 60 + t % 60 == t % 3600
  {
    var r := t % 3600;
    var q := t / 3600;
    assert t == q * 3600 + r;
    assert t == (q * 60 + r / 60) * 60 + r % 60;
  }

  /** One field of `formatTime`: `n.toString().padStart(2, '0')`. */
  function Field(n: int): string
  {
    PadStart2(IntToString(n))
  }

  /** `formatTime`: the hours, minutes and seconds fields separated by `:`. */
  function FormatTime(ms: int): string
  {
    var c := ClockOf(ms);
    Join([Field(c.hours), Field(c.minutes), Field(c.seconds)], ":")
  }

  lemma FormatTimeZero()
    ensures FormatTime(0) == "00:00:00"
  {
    assert ClockOf(0) == Clock(0, 0, 0);
    assert NatToString(0) == "0";
    assert Field(0) == "00";
  }

  lemma FieldNumeral(n: nat)
    ensures var f := Field(n);
      |f| >= 2 && AllDigits(f) && ':' !in f && ParseNat(f) == n
      && (n >= 10 ==> f == NatToString(n))
  {
    PadStart2Numeral(n);
    var f := Field(n);
    assert forall k :: 0 <= k < |f| ==> f[k] != ':';
  }

  /**
   * Reading a formatted duration back: three `:`-separated fields of at least
   * two digits each, whose values are the hours, minutes and seconds of the
   * duration; the hours field is the full numeral, never truncated.
   */
  lemma FormatTimeRoundTrip(ms: int)
    requires ms >= 0
    ensures var f := Split(FormatTime(ms), ':');
      && |f| == 3
      && (forall k :: 0 <= k < 3 ==> |f[k]| >= 2 && AllDigits(f[k]))
      && ParseNat(f[0]) * 3600 + ParseNat(f[1]) * 60 + ParseNat(f[2]) == ms / 1000
      && ParseNat(f[1]) < 60 && ParseNat(f[2]) < 60
      && (ParseNat(f[0]) >= 10 ==> f[0] == NatToString(ParseNat(f[0])))
  {
    ClockOfFields(ms);
    ClockRoundTrip(ClockOf(ms));
  }

  /** The three fields of a clock, formatted and read back. */
  lemma ClockRoundTrip(c: Clock)
    requires c.hours >= 0 && 0 <= c.minutes && 0 <= c.seconds
    ensures var f := Split(Join([Field(c.hours), Field(c.minutes), Field(c.seconds)], ":"), ':');
      && |f| == 3
      && (forall k :: 0 <= k < 3 ==> |f[k]| >= 2 && AllDigits(f[k]))
      && ParseNat(f[0]) == c.hours && ParseNat(f[1]) == c.minutes && ParseNat(f[2]) == c.seconds
      && (c.hours >= 10 ==> f[0] == NatToString(c.hours))
  {
    FieldNumeral(c.hours);
    FieldNumeral(c.minutes);
    FieldNumeral(c.seconds);
    SplitThree(Field(c.hours), Field(c.minutes), Field(c.seconds));
  }

  lemma SplitThree(a: string, b: string, c: string)
    requires ':' !in a && ':' !in b && ':' !in c
    ensures Split(Join([a, b, c], ":"), ':') == [a, b, c]
  {
    SplitJoin([a, b, c], ':');
  }

  // ---------------------------------------------------------------------------
  // The two maps and handleVoiceStateUpdate

  datatype MuteState = MuteState(mutedUsers: map<UserId, int>, dailyMuteTime: map<UserId, int>)

  /** What sendMuteLog would put in its embed (the embed itself is not modelled). */
  datatype MuteLog = NoLog | MutedLog(cumulative: int) | UnmutedLog(duration: int, cumulative: int)

  /** One voiceStateUpdate event: the user, `selfMute` before and after, and `Date.now()`. */
  datatype VoiceUpdate = VoiceUpdate(user: UserId, oldSelfMute: bool, newSelfMute: bool, now: int)

  datatype StepResult = StepResult(state: MuteState, log: MuteLog)

  /** `m.get(k) || 0` */
  function GetOr(m: map<UserId, int>, k: UserId, d: int): int
  {
    if k in m then m[k] else d
  }

  /** The effect of one handleVoiceStateUpdate call on the two maps. */
  function VoiceStep(st: MuteState, u: VoiceUpdate): (r: StepResult)
    ensures !u.oldSelfMute && u.newSelfMute ==>
      && r.state.dailyMuteTime == st.dailyMuteTime
      && r.state.mutedUsers.Keys == st.mutedUsers.Keys + {u.user}
      && r.state.mutedUsers[u.user] == u.now
      && (forall v :: v in st.mutedUsers && v != u.user ==> r.state.mutedUsers[v] == st.mutedUsers[v])
      && r.log == MutedLog(GetOr(st.dailyMuteTime, u.user, 0))
    ensures u.oldSelfMute && !u.newSelfMute && u.user in st.mutedUsers ==>
      var duration := u.now - st.mutedUsers[u.user];
      && r.state.mutedUsers.Keys == st.mutedUsers.Keys - {u.user}
      && (forall v :: v in r.state.mutedUsers ==> r.state.mutedUsers[v] == st.mutedUsers[v])
      && r.state.dailyMuteTime.Keys == st.dailyMuteTime.Keys + {u.user}
      && r.state.dailyMuteTime[u.user] == GetOr(st.dailyMuteTime, u.user, 0) + duration
      && (forall v :: v in st.dailyMuteTime && v != u.user ==> r.state.dailyMuteTime[v] == st.dailyMuteTime[v])
      && r.log == UnmutedLog(duration, r.state.dailyMuteTime[u.user])
    ensures u.oldSelfMute == u.newSelfMute || (u.oldSelfMute && u.user !in st.mutedUsers) ==>
      r == StepResult(st, NoLog)
  {
    if !u.oldSelfMute && u.newSelfMute then
      StepResult(MuteState(st.mutedUsers[u.user := u.now], st.dailyMuteTime),
                 MutedLog(GetOr(st.dailyMuteTime, u.user, 0)))
    else if u.oldSelfMute && !u.newSelfMute && u.user in st.mutedUsers then
      var duration := u.now - st.mutedUsers[u.user];
      var updated := GetOr(st.dailyMuteTime, u.user, 0) + duration;
      StepResult(MuteState(st.mutedUsers - {u.user}, st.dailyMuteTime[u.user := updated]),
                 UnmutedLog(duration, updated))
    else
      StepResult(st, NoLog)
  }

  /** The maps after a sequence of voice-state updates, in order. */
  function VoiceRun(st: MuteState, updates: seq<VoiceUpdate>): MuteState
    decreases |updates|
  {
    if updates == [] then st else VoiceRun(VoiceStep(st, updates[0]).state, updates[1..])
  }

  ghost predicate StartsNotAfter(st: MuteState, t: int)
  {
    forall v :: v in st.mutedUsers ==> st.mutedUsers[v] <= t
  }

  ghost predicate Chronological(updates: seq<VoiceUpdate>)
  {
    forall i, j :: 0 <= i < j < |updates| ==> updates[i].now <= updates[j].now
  }

  /**
   * The daily totals are never deleted and never decrease, provided the clock
   * does not run backwards: no recorded mute start lies after the next event.
   */
  lemma {:induction false} DailyMuteTimeNeverDecreases(st: MuteState, updates: seq<VoiceUpdate>)
    requires Chronological(updates)
    requires |updates| > 0 ==> StartsNotAfter(st, updates[0].now)
    ensures var fin := VoiceRun(st, updates);
      forall v :: v in st.dailyMuteTime ==>
        v in fin.dailyMuteTime && fin.dailyMuteTime[v] >= st.dailyMuteTime[v]
    decreases |updates|
  {
    if updates != [] {
      var u := updates[0];
      var next := VoiceStep(st, u).state;
      assert StartsNotAfter(next, u.now);
      assert |updates[1..]| > 0 ==> StartsNotAfter(next, updates[1..][0].now) by {
        if |updates[1..]| > 0 {
          assert updates[1..][0] == updates[1];
          assert u.now <= updates[1].now;
        }
      }
      assert Chronological(updates[1..]) by {
        forall i, j | 0 <= i < j < |updates[1..]|
          ensures updates[1..][i].now <= updates[1..][j].now
        {
          assert updates[1..][i] == updates[i + 1] && updates[1..][j] == updates[j + 1];
        }
      }
      DailyMuteTimeNeverDecreases(next, updates[1..]);
    }
  }

  // ---------------------------------------------------------------------------
  // The lookup commands

  /** A guild member as `members.cache.find(m => m.user.username === name)` sees it. */
  datatype Member = Member(username: string, id: UserId)

  /** The first member with the given username, as `Collection.find` returns it. */
  function FindMember(members: seq<Member>, name: string): (r: Option<Member>)
    ensures r.None? <==> forall k :: 0 <= k < |members| ==> members[k].username != name
    ensures r.Some? ==> r.value.username == name
    decreases |members|
  {
    if members == [] then None
    else if members[0].username == name then Some(members[0])
    else FindMember(members[1..], name)
  }

  /** The member found is the first one in the collection with that username. */
  lemma {:induction false} FindMemberFirst(members: seq<Member>, name: string)
    requires FindMember(members, name).Some?
    ensures exists k :: 0 <= k < |members| && members[k] == FindMember(members, name).value
                        && forall j :: 0 <= j < k ==> members[j].username != name
    decreases |members|
  {
    if members[0].username != name {
      FindMemberFirst(members[1..], name);
      var k :| 0 <= k < |members[1..]| && members[1..][k] == FindMember(members, name).value
               && forall j :: 0 <= j < k ==> members[1..][j].username != name;
      assert members[k + 1] == FindMember(members, name).value;
      assert forall j :: 0 <= j < k + 1 ==> members[j].username != name by {
        forall j | 0 <= j < k + 1 ensures members[j].username != name {
          if j > 0 { assert members[j] == members[1..][j - 1]; }
        }
      }
    }
  }

  const MuteTimeUsage := "Please specify a username. Usage: `!check_mute_time <username>`"
  const MutedUsage := "Please specify a username. Usage: `!check_muted <username>`"

  function NotFoundReply(name: string): string
  {
    "User " + name + " not found."
  }

  /** The reply giving a user's total for the day, `total` already formatted. */
  function MuteTimeReply(name: string, total: string): string
  {
    name + " has been muted for a total of " + total + " today."
  }

  function NotMutedReply(name: string): string
  {
    name + " is not currently muted."
  }

  /** The reply for a user muted for the formatted duration `elapsed`. */
  function MutedForReply(name: string, elapsed: string): (r: string)
    ensures r != NotMutedReply(name)
  {
    var r := name + " has been muted for " + elapsed + ".";
    assert r[|name| + 1] != NotMutedReply(name)[|name| + 1];
    r
  }

  /** The process-wide `mutedUsers` and `dailyMuteTime` maps of commands/muted.js. */
  class MuteTracker {
    var mutedUsers: map<UserId, int>
    var dailyMuteTime: map<UserId, int>

    constructor ()
      ensures mutedUsers == map[] && dailyMuteTime == map[]
    {
      mutedUsers := map[];
      dailyMuteTime := map[];
    }

    function State(): MuteState
      reads this
    {
      MuteState(mutedUsers, dailyMuteTime)
    }

    /** handleVoiceStateUpdate: returns what the mute log reports. */
    method HandleVoiceStateUpdate(u: VoiceUpdate) returns (log: MuteLog)
      modifies this
      ensures StepResult(State(), log) == VoiceStep(old(State()), u)
    {
      log := NoLog;
      if !u.oldSelfMute && u.newSelfMute {
        mutedUsers := mutedUsers[u.user := u.now];
        log := MutedLog(GetOr(dailyMuteTime, u.user, 0));
      }
      if u.oldSelfMute && !u.newSelfMute {
        if u.user in mutedUsers {
          var duration := u.now - mutedUsers[u.user];
          mutedUsers := mutedUsers - {u.user};
          var updated := GetOr(dailyMuteTime, u.user, 0) + duration;
          dailyMuteTime := dailyMuteTime[u.user := updated];
          log := UnmutedLog(duration, updated);
        }
      }
    }

    /** `!check_mute_time <username>`: the user's cumulative mute time, 0 if never unmuted. */
    method CheckMuteTime(args: seq<string>, members: seq<Member>) returns (reply: string)
      ensures |args| == 0 || args[0] == "" ==> reply == MuteTimeUsage
      ensures |args| > 0 && args[0] != "" && FindMember(members, args[0]).None? ==>
        reply == NotFoundReply(args[0])
      ensures |args| > 0 && args[0] != "" && FindMember(members, args[0]).Some? ==>
        var id := FindMember(members, args[0]).value.id;
        && reply == MuteTimeReply(args[0], FormatTime(GetOr(dailyMuteTime, id, 0)))
        && (id !in dailyMuteTime ==> reply == MuteTimeReply(args[0], "00:00:00"))
    {
      if |args| == 0 || args[0] == "" {
        return MuteTimeUsage;
      }
      var username := args[0];
      var member := FindMember(members, username);
      if member.None? {
        return NotFoundReply(username);
      }
      var total := GetOr(dailyMuteTime, member.value.id, 0);
      if member.value.id !in dailyMuteTime {
        FormatTimeZero();
      }
      reply := MuteTimeReply(username, FormatTime(total));
    }

    /** `!check_muted <username>`: "not currently muted" exactly when there is no start record. */
    method CheckMuted(args: seq<string>, members: seq<Member>, now: int) returns (reply: string)
      ensures |args| == 0 || args[0] == "" ==> reply == MutedUsage
      ensures |args| > 0 && args[0] != "" && FindMember(members, args[0]).None? ==>
        reply == NotFoundReply(args[0])
      ensures |args| > 0 && args[0] != "" && FindMember(members, args[0]).Some? ==>
        var id := FindMember(members, args[0]).value.id;
        && (reply == NotMutedReply(args[0]) <==> id !in mutedUsers)
        && (id in mutedUsers ==> reply == MutedForReply(args[0], FormatTime(now - mutedUsers[id])))
    {
      if |args| == 0 || args[0] == "" {
        reply := MutedUsage;
      } else {
        var username := args[0];
        var member := FindMember(members, username);
        if member.None? {
          reply := NotFoundReply(username);
        } else if member.value.id in mutedUsers {
          var duration := FormatTime(now - mutedUsers[member.value.id]);
          reply := MutedForReply(username, duration);
        } else {
          reply := NotMutedReply(username);
        }
      }
    }
  }
}
