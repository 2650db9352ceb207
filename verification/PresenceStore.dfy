/** The object of internal/plugins/redis/presence.go, against the beats it was told of. */
module PresenceStore {
  import opened Common
  import opened Lingering
  import opened Presence

  /** The key and the beats are what this sequence of calls makes of an empty key. */
  ghost predicate Replays(z: ZSet, beats: map<Uuid, Time>, calls: seq<Call>, now: Time) {
    z == After(GONE, TTL, calls) && beats == Beats(map[], calls) && Clocked(0, calls, now)
  }

  lemma {:induction false} BeatsSnoc(beats: map<Uuid, Time>, calls: seq<Call>, call: Call)
    ensures Beats(beats, calls + [call]) == Beaten(Beats(beats, calls), call)
    decreases |calls|
  {
    if calls == [] {
      assert calls + [call] == [call] && [call][1..] == [];
    } else {
      assert (calls + [call])[0] == calls[0] && (calls + [call])[1..] == calls[1..] + [call];
      BeatsSnoc(Beaten(beats, calls[0]), calls[1..], call);
    }
  }

  lemma {:induction false} ClockedSnoc(from: Time, calls: seq<Call>, now: Time, call: Call)
    requires Clocked(from, calls, now) && now <= call.t
    ensures Clocked(from, calls + [call], call.t) && Clocked(from, calls, call.t)
    decreases |calls|
  {
    if calls == [] {
      assert calls + [call] == [call] && [call][1..] == [];
    } else {
      assert (calls + [call])[0] == calls[0] && (calls + [call])[1..] == calls[1..] + [call];
      ClockedSnoc(calls[0].t, calls[1..], now, call);
    }
  }

  lemma ReplaysNext(z: ZSet, beats: map<Uuid, Time>, calls: seq<Call>, now: Time, call: Call)
    requires Replays(z, beats, calls, now) && now <= call.t
    ensures Replays(Apply(z, TTL, call), Beaten(beats, call), calls + [call], call.t)
    ensures Replays(z, beats, calls, call.t)
  {
    AfterSnoc(GONE, TTL, calls, call);
    BeatsSnoc(map[], calls, call);
    ClockedSnoc(0, calls, now, call);
  }

  /**
   What is known of one key at a moment: the beats it was told of, what an expiry cuts, and the calls
   executed on it, which explain the key exactly unless an update was executed by half or with another ttl.
   */
  ghost predicate Known(
      z: ZSet, beats: map<Uuid, Time>, cut: Option<Cut>, calls: seq<Call>, odd: bool, now: Time)
  {
    Agrees(z, beats, cut, now) && (odd || Replays(z, beats, calls, now))
  }

  lemma StillKnown(
      z: ZSet, beats: map<Uuid, Time>, cut: Option<Cut>, calls: seq<Call>, odd: bool, now: Time, t: Time)
    requires Known(z, beats, cut, calls, odd, now) && now <= t
    ensures Known(z, beats, cut, calls, odd, t)
  {
    LaterAgrees(z, beats, cut, now, t);
    if !odd { ReplaysNext(z, beats, calls, now, Look(t)); }
  }

  lemma UpdateKnown(
      z: ZSet, beats: map<Uuid, Time>, cut: Option<Cut>, calls: seq<Call>, odd: bool, now: Time,
      t: Time, sender: Uuid, whole: bool, z': ZSet)
    requires Known(z, beats, cut, calls, odd, now) && now <= t && Beating(z, t, sender, z')
    requires whole ==> z' == Update(z, t, sender, TTL)
    ensures Known(z', beats[sender := t], CutAfter(cut, z', t), calls + [Beat(t, sender)], odd || !whole, t)
  {
    BeatAgrees(z, beats, cut, now, t, sender, z');
    if !odd && whole { ReplaysNext(z, beats, calls, now, Beat(t, sender)); }
  }

  lemma PruneKnown(
      z: ZSet, beats: map<Uuid, Time>, cut: Option<Cut>, calls: seq<Call>, odd: bool, now: Time, t: Time)
    requires Known(z, beats, cut, calls, odd, now) && now <= t
    ensures Known(Prune(z, t), beats, cut, calls + [Look(t)], odd, t)
  {
    PruneAgrees(z, beats, cut, now, t);
    if !odd { ReplaysNext(z, beats, calls, now, Look(t)); }
  }

  /** Some stale beat is still in the set at t. */
  ghost predicate SomeStale(calls: seq<Call>, t: Time) {
    exists i: nat :: Stale(calls, TTL, i, t)
  }

  /** What a lookup answers when its pruning is not executed. */
  lemma UnprunedAnswer(
      z: ZSet, beats: map<Uuid, Time>, cut: Option<Cut>, calls: seq<Call>, odd: bool, now: Time, t: Time)
    requires Known(z, beats, cut, calls, odd, now) && now <= t
    ensures !Torn(cut, t) ==> Online(beats, t) <= ZRange(z, t) <= beats.Keys
    ensures !odd ==> (ZRange(z, t) == Online(beats, t) <==> !SomeStale(calls, t))
  {
    if !Torn(cut, t) { UnprunedAgrees(z, beats, cut, now, t); }
    if !odd {
      ReplaysNext(z, beats, calls, now, Look(t));
      UnprunedIff(TTL, calls, 0, t);
    }
  }

  class RedisPresenceStore {
    var keys: map<Uuid, ZSet>
    /** the last beats of every conversation since its last clear */
    ghost var heard: map<Uuid, map<Uuid, Time>>
    /** beats that an unrefreshed expiry cuts short */
    ghost var cuts: map<Uuid, Cut>
    /** the commands executed on every conversation since its last clear, as calls */
    ghost var history: map<Uuid, seq<Call>>
    /** conversations with an update executed by half, or with another ttl */
    ghost var odd: set<Uuid>
    ghost var clock: Time

    function Key(convID: Uuid): ZSet
      reads this
    {
      if convID in keys then keys[convID] else GONE
    }

    ghost function Heard(convID: Uuid): map<Uuid, Time>
      reads this
    {
      if convID in heard then heard[convID] else map[]
    }

    ghost function CutOf(convID: Uuid): Option<Cut>
      reads this
    {
      if convID in cuts then Some(cuts[convID]) else None
    }

    ghost function Calls(convID: Uuid): seq<Call>
      reads this
    {
      if convID in history then history[convID] else []
    }

    ghost predicate KeyOk(convID: Uuid)
      reads this
    {
      Known(Key(convID), Heard(convID), CutOf(convID), Calls(convID), convID in odd, clock)
    }

    ghost predicate Valid()
      reads this
    {
      0 <= clock && forall c {:trigger KeyOk(c)} :: KeyOk(c)
    }

    /** Nothing has changed for this conversation. */
    twostate predicate Same(convID: Uuid)
      reads this
    {
      && Key(convID) == old(Key(convID)) && Heard(convID) == old(Heard(convID))
      && CutOf(convID) == old(CutOf(convID)) && Calls(convID) == old(Calls(convID))
      && (convID in odd <==> convID in old(odd))
    }

    constructor ()
      ensures Valid() && cuts == map[] && heard == map[] && odd == {} && clock == 0
    {
      keys, heard, cuts, history, odd, clock := map[], map[], map[], map[], {}, 0;
    }

    /** Only convID has changed since, and what is known of it is known now. */
    twostate lemma OneChanged(convID: Uuid)
      requires old(Valid()) && old(clock) <= clock
      requires KeyOk(convID) && forall c {:trigger Same(c)} | c != convID :: Same(c)
      ensures Valid()
    {
      forall c ensures KeyOk(c) {
        if c != convID {
          assert Same(c) && old(KeyOk(c));
          StillKnown(Key(c), Heard(c), CutOf(c), Calls(c), c in odd, old(clock), clock);
        }
      }
    }

    /** The state of one key, and what is known of it, from moment t on. */
    method Put(
        convID: Uuid, z: ZSet, ghost beats: map<Uuid, Time>, ghost cut: Option<Cut>, ghost calls: seq<Call>,
        ghost isOdd: bool, ghost t: Time)
      requires Valid() && clock <= t && Known(z, beats, cut, calls, isOdd, t)
      modifies this
      ensures Valid() && clock == t
      ensures Key(convID) == z && Heard(convID) == beats && CutOf(convID) == cut && Calls(convID) == calls
      ensures convID in odd <==> isOdd
      ensures forall c {:trigger Same(c)} {:trigger Heard(c)} {:trigger CutOf(c)} | c != convID ::
        Same(c)
    {
      hide Known;
      keys := keys[convID := z];
      heard, history := heard[convID := beats], history[convID := calls];
      cuts := if cut.Some? then cuts[convID := cut.value] else cuts - {convID};
      odd := if isOdd then odd + {convID} else odd - {convID};
      clock := t;
      OneChanged(convID);
    }

    /** Time passes, and nothing else happens. */
    ghost method Wait(t: Time)
      requires Valid() && clock <= t
      modifies `clock
      ensures Valid() && clock == t
      ensures forall c {:trigger Same(c)} {:trigger Heard(c)} {:trigger CutOf(c)} :: Same(c)
    {
      clock := t;
      forall c ensures KeyOk(c) {
        assert old(KeyOk(c));
        StillKnown(Key(c), Heard(c), CutOf(c), Calls(c), c in odd, old(clock), t);
      }
    }

    /**
     add and expire are the fates of the two commands. A beat counts from the moment ZADD is executed.
     Answers may be wrong later only from the moment when the key expires under a beat that is fresh, and
     only until that beat is stale.
     */
    method UpdateOnlineStatus(convID: Uuid, sender: Uuid, ttl: Time, t: Time, add: Fault, expire: Fault)
        returns (ok: bool)
      requires Valid() && clock <= t
      modifies this
      ensures Valid() && clock == t
      ensures ok <==> add == Fine && expire == Fine
      ensures forall c {:trigger Same(c)} {:trigger Heard(c)} {:trigger CutOf(c)} | c != convID || add == Refused ::
        Same(c)
      ensures add != Refused ==>
        && Heard(convID) == old(Heard(convID))[sender := t]
        && CutOf(convID) == CutAfter(old(CutOf(convID)), Key(convID), t)
        && Calls(convID) == old(Calls(convID)) + [Beat(t, sender)]
        && (convID in odd <==> convID in old(odd) || add == ReplyLost || expire == Refused || ttl != TTL)
        && Key(convID) ==
             if add == ReplyLost || expire == Refused then ZAdd(old(Key(convID)), t, sender, Unix(t))
             else Update(old(Key(convID)), t, sender, ttl)
    {
      if add == Refused {
        Wait(t);
        return false;
      }
      var z := ZAdd(Key(convID), t, sender, Unix(t));
      if add == Fine && expire != Refused { z := Expire(z, t, ttl * 2); }
      ghost var whole := add == Fine && expire != Refused && ttl == TTL;
      assert KeyOk(convID);
      UpdateKnown(Key(convID), Heard(convID), CutOf(convID), Calls(convID), convID in odd, clock, t, sender, whole, z);
      Put(convID, z, Heard(convID)[sender := t], CutAfter(CutOf(convID), z, t), Calls(convID) + [Beat(t, sender)],
        convID in odd || !whole, t);
      ok := add == Fine && expire == Fine;
    }

    /**
     Exactly those who have beaten within the window, unless a beat of theirs has just been cut short. A
     failure of the pruning command goes unnoticed: then some who are offline may be among them, and there
     are some if and only if, by the calls so far, a stale beat lingers.
     */
    method GetOnlineParticipants(convID: Uuid, t: Time, prune: Fault, range: Fault)
        returns (r: Result<set<Uuid>, Error>)
      requires Valid() && clock <= t
      modifies this
      ensures Valid() && clock == t
      ensures forall c {:trigger Same(c)} {:trigger Heard(c)} {:trigger CutOf(c)} | c != convID || prune == Refused ::
        Same(c)
      ensures forall c {:trigger Heard(c)} {:trigger CutOf(c)} :: Heard(c) == old(Heard(c)) && CutOf(c) == old(CutOf(c))
      ensures convID in odd <==> convID in old(odd)
      ensures prune != Refused ==>
        Key(convID) == Prune(old(Key(convID)), t) && Calls(convID) == old(Calls(convID)) + [Look(t)]
      ensures r.Ok? <==> range == Fine
      ensures r.Ok? ==> r.value == ZRange(Key(convID), t)
      ensures r.Ok? && !Torn(CutOf(convID), t) ==>
        && (prune != Refused ==> r.value == Online(Heard(convID), t))
        && Online(Heard(convID), t) <= r.value <= Heard(convID).Keys
      ensures r.Ok? && prune == Refused && convID !in odd ==>
        (r.value == Online(Heard(convID), t) <==> !SomeStale(Calls(convID), t))
    {
      assert KeyOk(convID);
      UnprunedAnswer(Key(convID), Heard(convID), CutOf(convID), Calls(convID), convID in odd, clock, t);
      if prune == Refused {
        Wait(t);
        assert Same(convID);
      } else {
        if !Torn(CutOf(convID), t) { AnswerAgrees(Key(convID), Heard(convID), CutOf(convID), clock, t); }
        PruneKnown(Key(convID), Heard(convID), CutOf(convID), Calls(convID), convID in odd, clock, t);
        Put(convID, Prune(Key(convID), t), Heard(convID), CutOf(convID), Calls(convID) + [Look(t)], convID in odd, t);
      }
      r := if range == Fine then Ok(ZRange(Key(convID), t)) else Err(Unavailable);
    }

    method ClearConversation(convID: Uuid, t: Time, f: Fault) returns (ok: bool)
      requires Valid() && clock <= t
      modifies this
      ensures Valid() && clock == t
      ensures ok <==> f == Fine
      ensures forall c {:trigger Same(c)} {:trigger Heard(c)} {:trigger CutOf(c)} | c != convID || f == Refused ::
        Same(c)
      ensures f != Refused ==>
        && Key(convID) == GONE && Heard(convID) == map[] && CutOf(convID) == None && Calls(convID) == []
        && convID !in odd
    {
      if f == Refused { Wait(t); } else { Put(convID, GONE, map[], None, [], false, t); }
      ok := f == Fine;
    }
  }
}
