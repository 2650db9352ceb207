/**
 The presence set of internal/plugins/redis/presence.go: one sorted set per conversation that is
 pruned when it is read and expires as a whole, against the plain notion of being online.
 */
module Presence {
  import opened Common

  /** A sorted set with its expiry; a key without members does not exist and has no expiry. */
  datatype ZSet = ZSet(scores: map<Uuid, int>, expires: Option<Time>)

  const GONE := ZSet(map[], None)

  /** How long a beat counts, and the ttl that the heartbeat passes. */
  const WINDOW: Time := 30_000
  const TTL: Time := 45_000

  /** time.Unix(): whole seconds. */
  function Unix(t: Time): int { t / 1000 }

  /** Every command first finds out whether the key has expired. */
  function Lapse(z: ZSet, t: Time): ZSet {
    if z.expires.Some? && t >= z.expires.value then GONE else z
  }

  function ZAdd(z: ZSet, t: Time, member: Uuid, score: int): ZSet {
    var live := Lapse(z, t);
    live.(scores := live.scores[member := score])
  }

  function Expire(z: ZSet, t: Time, ttl: Time): ZSet {
    var live := Lapse(z, t);
    if |live.scores| == 0 then live else live.(expires := Some(t + ttl))
  }

  function ZRemRangeByScore(z: ZSet, t: Time, max: int): ZSet {
    var live := Lapse(z, t);
    var kept := map m | m in live.scores && live.scores[m] > max :: live.scores[m];
    if |kept| == 0 then GONE else live.(scores := kept)
  }

  /** ZRANGE 0 -1, as a set. */
  function ZRange(z: ZSet, t: Time): set<Uuid> {
    Lapse(z, t).scores.Keys
  }

  /** UpdateOnlineStatus, with both commands executed at the moment t. */
  function Update(z: ZSet, t: Time, sender: Uuid, ttl: Time): ZSet {
    Expire(ZAdd(z, t, sender, Unix(t)), t, ttl * 2)
  }

  /** The pruning that GetOnlineParticipants does first. */
  function Prune(z: ZSet, t: Time): ZSet {
    ZRemRangeByScore(z, t, Unix(t - WINDOW))
  }

  // ------------------------------------------------------------------ what online means

  /** Calls on one conversation, each with the moment it is executed. */
  datatype Call = Beat(t: Time, sender: Uuid) | Look(t: Time) | Clear(t: Time)

  function Apply(z: ZSet, ttl: Time, call: Call): ZSet {
    match call
    case Beat(t, sender) => Update(z, t, sender, ttl)
    case Look(t) => Prune(z, t)
    case Clear(t) => GONE
  }

  function After(z: ZSet, ttl: Time, calls: seq<Call>): ZSet
    decreases |calls|
  {
    if calls == [] then z else After(Apply(z, ttl, calls[0]), ttl, calls[1..])
  }

  /** The last beat of every sender since the last clear: reading changes nothing, nothing expires. */
  function Beats(beats: map<Uuid, Time>, calls: seq<Call>): map<Uuid, Time>
    decreases |calls|
  {
    if calls == [] then beats else Beats(Beaten(beats, calls[0]), calls[1..])
  }

  function Beaten(beats: map<Uuid, Time>, call: Call): map<Uuid, Time> {
    match call
    case Beat(t, sender) => beats[sender := t]
    case Look(_) => beats
    case Clear(_) => map[]
  }

  predicate Fresh(beat: Time, t: Time) { Unix(beat) > Unix(t) - 30 }

  function Online(beats: map<Uuid, Time>, t: Time): set<Uuid> {
    set s | s in beats && Fresh(beats[s], t)
  }

  /** What GetOnlineParticipants answers at t. */
  function Answer(z: ZSet, t: Time): set<Uuid> { ZRange(Prune(z, t), t) }

  /** The clock never goes back, and stands at t after the calls. */
  predicate Clocked(from: Time, calls: seq<Call>, t: Time)
    decreases |calls|
  {
    if calls == [] then from <= t else from <= calls[0].t && Clocked(calls[0].t, calls[1..], t)
  }

  /** A beat at this moment may be missing from the answers, because the key expires at since. */
  datatype Cut = Cut(beat: Time, since: Time)

  /** The cut explains why a beat is missing at the moment at. */
  predicate Excused(cut: Option<Cut>, beat: Time, at: Time) {
    cut.Some? && cut.value.since <= at && beat <= cut.value.beat
  }

  /** Answers at t may be wrong: the key has expired under a beat that is still fresh. */
  predicate Torn(cut: Option<Cut>, t: Time) {
    cut.Some? && cut.value.since <= t && Fresh(cut.value.beat, t)
  }

  /**
   The set agrees with the beats up to moment t, save for what the cut explains: scores are the beats'
   seconds, members that are missing are stale, and every beat will be stale when the key expires.
   */
  ghost predicate Agrees(z: ZSet, beats: map<Uuid, Time>, cut: Option<Cut>, t: Time) {
    && (cut.Some? ==> cut.value.beat <= t)
    && (forall s | s in beats :: beats[s] <= t)
    && (forall s | s in z.scores :: s in beats && z.scores[s] == Unix(beats[s]))
    && (forall s | s in beats && s !in z.scores :: !Fresh(beats[s], t) || Excused(cut, beats[s], t))
    && (forall s | s in z.scores && z.expires.Some? ::
          Spent(beats[s], z.expires.value, t) || Excused(cut, beats[s], z.expires.value))
  }

  /** The beat is stale at t, or will be when the key expires. */
  predicate Spent(beat: Time, expires: Time, t: Time) { !Fresh(beat, expires) || !Fresh(beat, t) }

  /** The key will expire while a beat made at t is still fresh. */
  predicate CutOff(z: ZSet, t: Time) { z.expires.Some? && Fresh(t, z.expires.value) }

  function Sooner(t1: Time, t2: Time): Time { if t1 <= t2 then t1 else t2 }

  /** What is cut once a beat at t has left the key as z. */
  function CutAfter(cut: Option<Cut>, z: ZSet, t: Time): Option<Cut> {
    if CutOff(z, t) then
      Some(Cut(t, if Torn(cut, t) then Sooner(cut.value.since, z.expires.value) else z.expires.value))
    else if Torn(cut, t) then cut
    else None
  }

  lemma LaterAgrees(z: ZSet, beats: map<Uuid, Time>, cut: Option<Cut>, now: Time, t: Time)
    requires Agrees(z, beats, cut, now) && now <= t
    ensures Agrees(z, beats, cut, t)
  {
  }

  lemma LapseAgrees(z: ZSet, beats: map<Uuid, Time>, cut: Option<Cut>, now: Time, t: Time)
    requires Agrees(z, beats, cut, now) && now <= t
    ensures Agrees(Lapse(z, t), beats, cut, t)
  {
  }

  lemma PruneAgrees(z: ZSet, beats: map<Uuid, Time>, cut: Option<Cut>, now: Time, t: Time)
    requires Agrees(z, beats, cut, now) && now <= t
    ensures Agrees(Prune(z, t), beats, cut, t)
  {
    LapseAgrees(z, beats, cut, now, t);
  }

  /** A beat, whether its EXPIRE was executed or not. */
  ghost predicate Beating(z: ZSet, t: Time, sender: Uuid, z': ZSet) {
    && z'.scores == Lapse(z, t).scores[sender := Unix(t)]
  }

  lemma BeatAgrees(z: ZSet, beats: map<Uuid, Time>, cut: Option<Cut>, now: Time, t: Time, sender: Uuid, z': ZSet)
    requires Agrees(z, beats, cut, now) && now <= t && Beating(z, t, sender, z')
    ensures Agrees(z', beats[sender := t], CutAfter(cut, z', t), t)
  {
    LapseAgrees(z, beats, cut, now, t);
    var beats', cut' := beats[sender := t], CutAfter(cut, z', t);
    forall s | s in beats' && s !in z'.scores ensures !Fresh(beats'[s], t) || Excused(cut', beats'[s], t) {
      assert s in beats && s !in Lapse(z, t).scores && beats'[s] == beats[s];
    }
  }

  lemma ApplyAgrees(z: ZSet, beats: map<Uuid, Time>, now: Time, ttl: Time, call: Call)
    requires Agrees(z, beats, None, now) && now <= call.t && ttl * 2 >= WINDOW
    ensures Agrees(Apply(z, ttl, call), Beaten(beats, call), None, call.t)
  {
    match call
    case Beat(t, sender) => BeatAgrees(z, beats, None, now, t, sender, Update(z, t, sender, ttl));
    case Look(t) => PruneAgrees(z, beats, None, now, t);
    case Clear(t) =>
  }

  lemma AnswerAgrees(z: ZSet, beats: map<Uuid, Time>, cut: Option<Cut>, now: Time, t: Time)
    requires Agrees(z, beats, cut, now) && now <= t && !Torn(cut, t)
    ensures Answer(z, t) == Online(beats, t)
  {
    LapseAgrees(z, beats, cut, now, t);
  }

  lemma {:induction false} RunAgrees(z: ZSet, beats: map<Uuid, Time>, now: Time, ttl: Time, calls: seq<Call>, t: Time)
    requires Agrees(z, beats, None, now) && Clocked(now, calls, t) && ttl * 2 >= WINDOW
    ensures Answer(After(z, ttl, calls), t) == Online(Beats(beats, calls), t)
    decreases |calls|
  {
    if calls == [] {
      AnswerAgrees(z, beats, None, now, t);
    } else {
      ApplyAgrees(z, beats, now, ttl, calls[0]);
      RunAgrees(Apply(z, ttl, calls[0]), Beaten(beats, calls[0]), calls[0].t, ttl, calls[1..], t);
    }
  }

  /** Whatever was called before, the answer at t is exactly who has beaten within the window. */
  ghost predicate Exact(ttl: Time, calls: seq<Call>, from: Time, t: Time) {
    Clocked(from, calls, t) ==> Answer(After(GONE, ttl, calls), t) == Online(Beats(map[], calls), t)
  }

  /**
   Pruning on read and the expiry of the key are unobservable for every history exactly when twice
   the ttl is no shorter than the window; the heartbeat's 45 seconds are enough.
   */
  lemma ExactIff(ttl: Time)
    ensures (forall calls, from, t {:trigger Exact(ttl, calls, from, t)} :: Exact(ttl, calls, from, t))
            <==> ttl * 2 >= WINDOW
    ensures forall calls, from, t {:trigger Exact(TTL, calls, from, t)} :: Exact(TTL, calls, from, t)
  {
    forall calls, from, t ensures Exact(TTL, calls, from, t) {
      if Clocked(from, calls, t) { RunAgrees(GONE, map[], from, TTL, calls, t); }
    }
    if ttl * 2 >= WINDOW {
      forall calls, from, t ensures Exact(ttl, calls, from, t) {
        if Clocked(from, calls, t) { RunAgrees(GONE, map[], from, ttl, calls, t); }
      }
    } else {
      TooShort(ttl);
    }
  }

  /** With a shorter ttl a single beat is forgotten one millisecond before its window ends. */
  lemma TooShort(ttl: Time)
    requires ttl * 2 < WINDOW
    ensures !Exact(ttl, [Beat(0, 1)], 0, 29_999)
  {
    var calls := [Beat(0, 1)];
    assert calls[1..] == [];
    assert Beats(map[], calls) == map[1 := 0];
    assert 1 in Online(Beats(map[], calls), 29_999);
    assert 1 !in Answer(After(GONE, ttl, calls), 29_999);
  }

  /**
   When ZADD was executed and EXPIRE was not, all later answers are exact if and only if the key had
   no expiry left or one that comes after the window of the new beat.
   */
  lemma HalfUpdateIff(z: ZSet, beats: map<Uuid, Time>, t: Time, sender: Uuid)
    requires Agrees(z, beats, None, t)
    ensures
      var half := ZAdd(z, t, sender, Unix(t));
      (forall u {:trigger Answer(half, u)} | u >= t :: Answer(half, u) == Online(beats[sender := t], u))
      <==> !CutOff(Lapse(z, t), t)
  {
    var half := ZAdd(z, t, sender, Unix(t));
    BeatAgrees(z, beats, None, t, t, sender, half);
    if CutOff(half, t) {
      var e := half.expires.value;
      assert e >= t && sender !in Answer(half, e) && sender in Online(beats[sender := t], e);
    } else {
      forall u | u >= t ensures Answer(half, u) == Online(beats[sender := t], u) {
        AnswerAgrees(half, beats[sender := t], None, t, u);
      }
    }
  }

  lemma UnprunedAgrees(z: ZSet, beats: map<Uuid, Time>, cut: Option<Cut>, now: Time, t: Time)
    requires Agrees(z, beats, cut, now) && now <= t && !Torn(cut, t)
    ensures Online(beats, t) <= ZRange(z, t) <= beats.Keys
  {
    LapseAgrees(z, beats, cut, now, t);
  }

  /**
   With no call since the last executed pruning at u, an answer without pruning is exact if and only if
   the key has expired or nobody who was online at u has become stale since.
   */
  lemma SinceLastPruningIff(z: ZSet, beats: map<Uuid, Time>, now: Time, u: Time, t: Time)
    requires Agrees(z, beats, None, now) && now <= u <= t
    ensures
      var p := Prune(z, u);
      ZRange(p, t) == Online(beats, t) <==> Lapse(p, t) == GONE || Online(beats, u) == Online(beats, t)
  {
    var p := Prune(z, u);
    AnswerAgrees(z, beats, None, now, u);
    LapseAgrees(z, beats, None, now, u);
    PruneAgrees(z, beats, None, now, u);
    LapseAgrees(p, beats, None, u, t);
    assert Lapse(p, u) == p;
  }
}
