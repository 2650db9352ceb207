/**
 What GetOnlineParticipants answers when its pruning command fails: which beats linger in the set, as a
 property of the calls made so far.
 */
module Lingering {
  import opened Common
  import opened Presence

  /** At moment t, before call j, the key has not been silent for twice the ttl since beat i. */
  ghost predicate Alive(calls: seq<Call>, ttl: Time, i: nat, j: nat, t: Time)
    requires j <= |calls|
  {
    exists k :: i <= k < j && calls[k].Beat? && t < calls[k].t + ttl * 2
  }

  /** Call j does not remove beat i: it is no clear, no newer beat of the same sender, and no lookup at
   which the beat was stale. */
  ghost predicate Passes(calls: seq<Call>, ttl: Time, i: nat, j: nat)
    requires i < j < |calls| && calls[i].Beat?
  {
    && Alive(calls, ttl, i, j, calls[j].t)
    && match calls[j]
       case Beat(_, s) => s != calls[i].sender
       case Look(t) => Fresh(calls[i].t, t)
       case Clear(_) => false
  }

  /** Beat i is still in the set. */
  ghost predicate Lingers(calls: seq<Call>, ttl: Time, i: nat) {
    && i < |calls| && calls[i].Beat?
    && forall j {:trigger Passes(calls, ttl, i, j)} | i < j < |calls| :: Passes(calls, ttl, i, j)
  }

  /** The last beat, if there is one. */
  function LastBeat(calls: seq<Call>): (r: Option<nat>)
    ensures r.None? ==> forall k | 0 <= k < |calls| :: !calls[k].Beat?
    ensures r.Some? ==> r.value < |calls| && calls[r.value].Beat?
                        && forall k | r.value < k < |calls| :: !calls[k].Beat?
  {
    if calls == [] then None
    else if calls[|calls| - 1].Beat? then Some(|calls| - 1)
    else LastBeat(calls[..|calls| - 1])
  }

  ghost predicate InOrder(calls: seq<Call>) {
    forall i, j | 0 <= i < j < |calls| :: calls[i].t <= calls[j].t
  }

  ghost predicate MemberBy(calls: seq<Call>, ttl: Time, i: nat, s: Uuid, score: int) {
    Lingers(calls, ttl, i) && calls[i].sender == s && Unix(calls[i].t) == score
  }

  ghost predicate HasBeat(calls: seq<Call>, ttl: Time, s: Uuid, score: int) {
    exists i: nat :: MemberBy(calls, ttl, i, s, score)
  }

  /** Beat i is what the set has of its sender. */
  ghost predicate Scored(z: ZSet, calls: seq<Call>, i: nat) {
    i < |calls| && calls[i].Beat? && calls[i].sender in z.scores && z.scores[calls[i].sender] == Unix(calls[i].t)
  }

  /** The set holds exactly the lingering beats, and expires twice the ttl after the last beat. */
  ghost predicate Holds(z: ZSet, ttl: Time, calls: seq<Call>) {
    && (forall s {:trigger s in z.scores} | s in z.scores :: HasBeat(calls, ttl, s, z.scores[s]))
    && (forall i: nat {:trigger Lingers(calls, ttl, i)} | Lingers(calls, ttl, i) ::
          Scored(z, calls, i))
    && (z.scores == map[] ==> z == GONE)
    && (z.scores != map[] ==>
          && LastBeat(calls).Some?
          && z.expires == Some(calls[LastBeat(calls).value].t + ttl * 2))
  }

  /** Whether the key is alive depends on the last beat alone. */
  lemma AliveIff(calls: seq<Call>, ttl: Time, i: nat, t: Time)
    requires InOrder(calls) && i < |calls| && calls[i].Beat?
    ensures LastBeat(calls).Some?
    ensures Alive(calls, ttl, i, |calls|, t) <==> t < calls[LastBeat(calls).value].t + ttl * 2
  {
  }

  /** How lingering continues over one more call. */
  lemma LingersNext(calls: seq<Call>, call: Call, ttl: Time, i: nat)
    requires i < |calls|
    ensures
      var more := calls + [call];
      && (Lingers(more, ttl, i) <==> Lingers(calls, ttl, i) && Passes(more, ttl, i, |calls|))
  {
    var more := calls + [call];
    forall j | i < j < |calls| && calls[i].Beat? ensures Passes(more, ttl, i, j) <==> Passes(calls, ttl, i, j) {
      assert forall k | i <= k < j :: more[k] == calls[k];
      assert Alive(more, ttl, i, j, calls[j].t) <==> Alive(calls, ttl, i, j, calls[j].t);
    }
    if Lingers(more, ttl, i) {
      forall j | i < j < |calls| ensures Passes(calls, ttl, i, j) {
        assert Passes(more, ttl, i, j);
      }
      assert Passes(more, ttl, i, |calls|);
    }
  }

  lemma {:induction false} AfterSnoc(z: ZSet, ttl: Time, calls: seq<Call>, call: Call)
    ensures After(z, ttl, calls + [call]) == Apply(After(z, ttl, calls), ttl, call)
    decreases |calls|
  {
    if calls == [] {
      assert calls + [call] == [call] && [call][1..] == [];
    } else {
      assert (calls + [call])[0] == calls[0] && (calls + [call])[1..] == calls[1..] + [call];
      AfterSnoc(Apply(z, ttl, calls[0]), ttl, calls[1..], call);
    }
  }

  /** A lingering beat survives the start of the next call exactly when the key has not expired. */
  lemma LapseHolds(z: ZSet, ttl: Time, calls: seq<Call>, t: Time, i: nat)
    requires InOrder(calls) && Holds(z, ttl, calls) && Lingers(calls, ttl, i)
    ensures Lapse(z, t) == if Alive(calls, ttl, i, |calls|, t) then z else GONE
  {
    AliveIff(calls, ttl, i, t);
    assert calls[i].sender in z.scores;
  }

  lemma AliveMore(calls: seq<Call>, call: Call, ttl: Time, i: nat)
    requires i < |calls|
    ensures Alive(calls + [call], ttl, i, |calls|, call.t) <==> Alive(calls, ttl, i, |calls|, call.t)
  {
    assert forall k | i <= k < |calls| :: (calls + [call])[k] == calls[k];
  }

  /** What of the beats before lingers over one more call. */
  lemma NextPasses(z: ZSet, ttl: Time, calls: seq<Call>, call: Call, i: nat)
    requires InOrder(calls) && Holds(z, ttl, calls) && Lingers(calls, ttl, i)
    ensures Lingers(calls + [call], ttl, i) <==>
      && Lapse(z, call.t) == z
      && match call
         case Beat(_, s) => s != calls[i].sender
         case Look(t) => Fresh(calls[i].t, t)
         case Clear(_) => false
  {
    LapseHolds(z, ttl, calls, call.t, i);
    AliveMore(calls, call, ttl, i);
    LingersNext(calls, call, ttl, i);
    assert calls[i].sender in z.scores;
  }

  lemma BeatMember(z: ZSet, ttl: Time, calls: seq<Call>, t: Time, s: Uuid, z': ZSet, x: Uuid)
    requires InOrder(calls) && Holds(z, ttl, calls) && z' == Update(z, t, s, ttl) && x in z'.scores && x != s
    ensures HasBeat(calls + [Beat(t, s)], ttl, x, z'.scores[x])
  {
    assert x in z.scores && HasBeat(calls, ttl, x, z.scores[x]);
    var i: nat :| MemberBy(calls, ttl, i, x, z.scores[x]);
    NextPasses(z, ttl, calls, Beat(t, s), i);
    assert MemberBy(calls + [Beat(t, s)], ttl, i, x, z'.scores[x]);
  }

  lemma BeatLingers(z: ZSet, ttl: Time, calls: seq<Call>, t: Time, s: Uuid, z': ZSet, i: nat)
    requires InOrder(calls) && Holds(z, ttl, calls) && z' == Update(z, t, s, ttl)
    requires Lingers(calls + [Beat(t, s)], ttl, i)
    ensures Scored(z', calls + [Beat(t, s)], i)
  {
    if i < |calls| {
      LingersNext(calls, Beat(t, s), ttl, i);
      NextPasses(z, ttl, calls, Beat(t, s), i);
    }
  }

  lemma BeatHolds(z: ZSet, ttl: Time, calls: seq<Call>, t: Time, s: Uuid, z': ZSet)
    requires InOrder(calls) && Holds(z, ttl, calls) && z' == Update(z, t, s, ttl)
    ensures Holds(z', ttl, calls + [Beat(t, s)])
  {
    var more, n := calls + [Beat(t, s)], |calls|;
    assert MemberBy(more, ttl, n, s, Unix(t));
    assert s in z'.scores && z'.scores[s] == Unix(t) && LastBeat(more) == Some(n);
    forall x | x in z'.scores ensures HasBeat(more, ttl, x, z'.scores[x]) {
      if x != s { BeatMember(z, ttl, calls, t, s, z', x); }
    }
    forall i: nat | Lingers(more, ttl, i) ensures Scored(z', more, i) {
      BeatLingers(z, ttl, calls, t, s, z', i);
    }
  }

  /** z' is z pruned at t. */
  ghost predicate Pruned(z: ZSet, t: Time, z': ZSet) {
    var live := Lapse(z, t);
    && (forall x :: x in z'.scores <==> x in live.scores && live.scores[x] > Unix(t) - 30)
    && (forall x | x in z'.scores :: z'.scores[x] == live.scores[x])
    && (z'.scores == map[] ==> z' == GONE)
    && (z'.scores != map[] ==> z'.expires == live.expires)
  }

  lemma PruneIs(z: ZSet, t: Time)
    ensures Pruned(z, t, Prune(z, t))
  {
  }

  lemma LookLast(calls: seq<Call>, t: Time)
    ensures LastBeat(calls + [Look(t)]) == LastBeat(calls)
  {
    assert (calls + [Look(t)])[..|calls|] == calls;
  }

  lemma LookMember(z: ZSet, ttl: Time, calls: seq<Call>, t: Time, z': ZSet, x: Uuid)
    requires InOrder(calls) && Holds(z, ttl, calls) && Pruned(z, t, z') && x in z'.scores
    ensures HasBeat(calls + [Look(t)], ttl, x, z'.scores[x])
  {
    assert x in z.scores && HasBeat(calls, ttl, x, z.scores[x]);
    var i: nat :| MemberBy(calls, ttl, i, x, z.scores[x]);
    NextPasses(z, ttl, calls, Look(t), i);
    assert MemberBy(calls + [Look(t)], ttl, i, x, z'.scores[x]);
  }

  lemma LookLingers(z: ZSet, ttl: Time, calls: seq<Call>, t: Time, z': ZSet, i: nat)
    requires InOrder(calls) && Holds(z, ttl, calls) && Pruned(z, t, z') && Lingers(calls + [Look(t)], ttl, i)
    ensures Scored(z', calls + [Look(t)], i)
  {
    LingersNext(calls, Look(t), ttl, i);
    NextPasses(z, ttl, calls, Look(t), i);
  }

  lemma LookHolds(z: ZSet, ttl: Time, calls: seq<Call>, t: Time, z': ZSet)
    requires InOrder(calls) && Holds(z, ttl, calls) && Pruned(z, t, z')
    ensures Holds(z', ttl, calls + [Look(t)])
  {
    hide HasBeat, Lingers;
    var more := calls + [Look(t)];
    LookLast(calls, t);
    forall x | x in z'.scores ensures HasBeat(more, ttl, x, z'.scores[x]) {
      LookMember(z, ttl, calls, t, z', x);
    }
    forall i: nat | Lingers(more, ttl, i) ensures Scored(z', more, i) {
      LookLingers(z, ttl, calls, t, z', i);
    }
    if z'.scores != map[] {
      var x :| x in z'.scores;
      assert x in z.scores;
      assert more[LastBeat(calls).value] == calls[LastBeat(calls).value];
    }
  }

  lemma ClearHolds(ttl: Time, calls: seq<Call>, t: Time)
    ensures Holds(GONE, ttl, calls + [Clear(t)])
  {
    var more := calls + [Clear(t)];
    forall i: nat | Lingers(more, ttl, i) ensures false {
      LingersNext(calls, Clear(t), ttl, i);
    }
  }

  lemma {:induction false} AlwaysHolds(ttl: Time, calls: seq<Call>)
    requires InOrder(calls)
    ensures Holds(After(GONE, ttl, calls), ttl, calls)
    decreases |calls|
  {
    if calls != [] {
      var n := |calls| - 1;
      var before, call := calls[..n], calls[n];
      assert calls == before + [call];
      AlwaysHolds(ttl, before);
      AfterSnoc(GONE, ttl, before, call);
      var z := After(GONE, ttl, before);
      match call
      case Beat(t, s) => BeatHolds(z, ttl, before, t, s, Update(z, t, s, ttl));
      case Look(t) =>
        PruneIs(z, t);
        LookHolds(z, ttl, before, t, Prune(z, t));
      case Clear(t) => ClearHolds(ttl, before, t);
    }
  }

  // ------------------------------------------------------------------ answers without pruning

  lemma {:induction false} ClockOrders(from: Time, calls: seq<Call>, t: Time)
    requires Clocked(from, calls, t)
    ensures InOrder(calls) && from <= t && forall i | 0 <= i < |calls| :: from <= calls[i].t <= t
    decreases |calls|
  {
    if calls != [] {
      ClockOrders(calls[0].t, calls[1..], t);
      assert forall i | 0 < i < |calls| :: calls[i] == calls[1..][i - 1];
    }
  }

  lemma {:induction false} AgreesAfter(
      z: ZSet, beats: map<Uuid, Time>, now: Time, ttl: Time, calls: seq<Call>, t: Time) returns (last: Time)
    requires Agrees(z, beats, None, now) && Clocked(now, calls, t) && ttl * 2 >= WINDOW
    ensures last <= t && Agrees(After(z, ttl, calls), Beats(beats, calls), None, last)
    decreases |calls|
  {
    if calls == [] {
      last := now;
    } else {
      ApplyAgrees(z, beats, now, ttl, calls[0]);
      last := AgreesAfter(Apply(z, ttl, calls[0]), Beaten(beats, calls[0]), calls[0].t, ttl, calls[1..], t);
    }
  }

  /** Beat i is still in the set at t, and counts no more. */
  ghost predicate Stale(calls: seq<Call>, ttl: Time, i: nat, t: Time) {
    Lingers(calls, ttl, i) && Alive(calls, ttl, i, |calls|, t) && !Fresh(calls[i].t, t)
  }

  /**
   A lookup whose pruning command fails answers exactly who is online if and only if no stale beat
   lingers: every beat that is stale by now was followed by a newer beat of the same sender, by a clear,
   by an executed pruning at which it was stale already, or by a silence of the whole conversation for
   twice the ttl.
   */
  lemma UnprunedIff(ttl: Time, calls: seq<Call>, from: Time, t: Time)
    requires Clocked(from, calls, t) && ttl * 2 >= WINDOW
    ensures ZRange(After(GONE, ttl, calls), t) == Online(Beats(map[], calls), t)
            <==> forall i: nat {:trigger Stale(calls, ttl, i, t)} :: !Stale(calls, ttl, i, t)
    ensures Online(Beats(map[], calls), t) <= ZRange(After(GONE, ttl, calls), t)
  {
    var z, beats := After(GONE, ttl, calls), Beats(map[], calls);
    ClockOrders(from, calls, t);
    AlwaysHolds(ttl, calls);
    var last := AgreesAfter(GONE, map[], from, ttl, calls, t);
    LapseAgrees(z, beats, None, last, t);
    forall i: nat | Stale(calls, ttl, i, t)
      ensures calls[i].sender in ZRange(z, t) && calls[i].sender !in Online(beats, t)
    {
      LapseHolds(z, ttl, calls, t, i);
    }
    forall s | s in ZRange(z, t) && s !in Online(beats, t) ensures exists i: nat :: Stale(calls, ttl, i, t) {
      var i: nat :| MemberBy(calls, ttl, i, s, z.scores[s]);
      LapseHolds(z, ttl, calls, t, i);
      assert Stale(calls, ttl, i, t);
    }
  }
}
