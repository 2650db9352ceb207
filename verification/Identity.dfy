/**
 Identities over whole runs: any number of StartSession calls, each a lookup, possibly an insertion,
 and a reply, interleaved with syncs, leaves, and deletions of conversations. One step is one SQL
 statement; a step that is not enabled changes nothing.
 */
module Identity {
  import opened Common
  import opened Postgres
  import opened Session
  import T = Tables

  /** Whose identity an id is, and which call minted it. */
  datatype Owner = Owner(user: string, conv: Uuid, caller: nat)

  /**
   Holding: the identity was chosen at step since and is not returned yet; row is its participant row if
   that is not committed yet.
   */
  datatype Pc = Looking | Making | Holding(id: Uuid, since: nat, row: Option<T.Participant>) | Over

  datatype Start = Start(user: string, conv: Uuid, forceNew: bool, pc: Pc)

  /** StartSession returned id at step at. */
  datatype Given = Given(id: Uuid, user: string, conv: Uuid, since: nat, at: nat)

  /**
   shared: the statements of a call join its transaction. minted, left and given are history: the owner of
   every id, the step at which it left, all replies.
   */
  datatype Sys = Sys(
    shared: bool, db: T.Db, minted: map<Uuid, Owner>, left: map<Uuid, nat>, starts: seq<Start>, given: seq<Given>,
    clock: nat, now: Time)

  function Init(shared: bool): Sys { Sys(shared, T.EMPTY, map[], map[], [], [], 0, 0) }

  datatype Step =
    | Tick(d: nat)
    | CreateConv(c: Uuid)
    | DeleteConv(c: Uuid)
    | Begin(user: string, c: Uuid, forceNew: bool)
    | Find(i: nat, pick: Uuid, fails: bool)
    | Create(i: nat, id: Uuid, f: Fault)
    | Reply(i: nat, f: Fault)
    | Sync(id: Uuid)
    | Leave(id: Uuid)

  predicate At(s: Sys, i: nat, pc: Pc) { i < |s.starts| && s.starts[i].pc == pc }

  function SetPc(s: Sys, i: nat, pc: Pc): Sys
    requires i < |s.starts|
  {
    s.(starts := s.starts[i := s.starts[i].(pc := pc)])
  }

  ghost function DoFind(s: Sys, i: nat, pick: Uuid, fails: bool): (r: Sys)
    ensures r == s.(starts := r.starts)
  {
    if !At(s, i, Looking) then s
    else
      var a := s.starts[i];
      if a.forceNew || fails || (forall p: Uuid :: !Active(s.db.parts, a.user, a.conv, p)) then SetPc(s, i, Making)
      else if !MostRecent(s.db.parts, a.user, a.conv, pick) then s
      else if s.now - s.db.parts[pick].lastSeen <= REJOIN then SetPc(s, i, Holding(pick, s.clock, None))
      else SetPc(s, i, Making)
  }

  /** With an effective transaction nobody sees the row yet, and it is gone if the call fails. */
  function DoCreate(s: Sys, i: nat, id: Uuid, f: Fault): (r: Sys)
    ensures r == s.(starts := r.starts, minted := r.minted, db := s.db.(parts := r.db.parts))
  {
    if !At(s, i, Making) || id in s.minted then s
    else
      var a := s.starts[i];
      var row := T.Participant(a.user, a.conv, s.now, s.now, None);
      if f == Refused || id == NIL || a.conv == NIL || T.InsertParticipant(s.db, id, row).Err? then SetPc(s, i, Over)
      else
        var pc := if f == Fine then Holding(id, s.clock, if s.shared then Some(row) else None) else Over;
        var s' := SetPc(s, i, pc).(minted := s.minted[id := Owner(a.user, a.conv, i)]);
        if s.shared then s' else s'.(db := T.InsertParticipant(s.db, id, row).value)
  }

  /** The commit; an uncommitted row becomes visible if it is executed, and the caller hears of it if it is answered. */
  function DoReply(s: Sys, i: nat, f: Fault): (r: Sys)
    ensures r == s.(starts := r.starts, given := r.given, db := s.db.(parts := r.db.parts))
  {
    if i >= |s.starts| || !s.starts[i].pc.Holding? then s
    else
      var a := s.starts[i];
      var s1 := SetPc(s, i, Over);
      var s2 :=
        if a.pc.row.Some? && f != Refused then s1.(db := s.db.(parts := s.db.parts[a.pc.id := a.pc.row.value]))
        else s1;
      if f == Fine then s2.(given := s.given + [Given(a.pc.id, a.user, a.conv, a.pc.since, s.clock)]) else s2
  }

  function DoLeave(s: Sys, id: Uuid): Sys {
    match T.LeaveParticipant(s.db, id, s.now)
    case Ok(Some(db)) => s.(db := db, left := s.left[id := s.clock])
    case _ => s
  }

  function DoSync(s: Sys, id: Uuid): Sys {
    match T.TouchParticipant(s.db, id, s.now)
    case Some(db) => s.(db := db)
    case None => s
  }

  /** A call with an uncommitted row holds its conversation. */
  predicate Held(a: Start, c: Uuid) { a.conv == c && a.pc.Holding? && a.pc.row.Some? }

  function DoDelete(s: Sys, c: Uuid): Sys {
    if exists i | 0 <= i < |s.starts| :: Held(s.starts[i], c) then s
    else match T.DeleteConversation(s.db, c)
      case Ok(db) => s.(db := db)
      case Err(_) => s
  }

  ghost function Effect(s: Sys, step: Step): Sys {
    match step
    case Tick(d) => s.(now := s.now + d)
    case CreateConv(c) => if c == NIL then s else s.(db := T.InsertConversation(s.db, c, s.now))
    case DeleteConv(c) => DoDelete(s, c)
    case Begin(user, c, forceNew) => s.(starts := s.starts + [Start(user, c, forceNew, Looking)])
    case Find(i, pick, fails) => DoFind(s, i, pick, fails)
    case Create(i, id, f) => DoCreate(s, i, id, f)
    case Reply(i, f) => DoReply(s, i, f)
    case Sync(id) => DoSync(s, id)
    case Leave(id) => DoLeave(s, id)
  }

  ghost function Do(s: Sys, step: Step): Sys { Effect(s, step).(clock := s.clock + 1) }

  ghost function Run(s: Sys, steps: seq<Step>): Sys
    decreases |steps|
  {
    if steps == [] then s else Run(Do(s, steps[0]), steps[1..])
  }

  // ------------------------------------------------------------------ what every run keeps

  /** This is the row of an identity of that owner, unleft exactly when the identity never left. */
  ghost predicate RowOk(p: Uuid, row: T.Participant, minted: map<Uuid, Owner>, left: map<Uuid, nat>) {
    && p in minted && minted[p].user == row.user && minted[p].conv == row.conv
    && (row.leftAt.None? <==> p !in left)
  }

  ghost predicate RowsOk(parts: map<Uuid, T.Participant>, minted: map<Uuid, Owner>, left: map<Uuid, nat>) {
    forall p {:trigger RowOk(p, parts[p], minted, left)} | p in parts :: RowOk(p, parts[p], minted, left)
  }

  /** An identity chosen at step since: it is the owner's, and it had not left by then. */
  ghost predicate ChosenOk(id: Uuid, user: string, conv: Uuid, since: nat, s: Sys) {
    && id in s.minted && s.minted[id].user == user && s.minted[id].conv == conv
    && since < s.clock
    && (id in s.left ==> since < s.left[id])
  }

  predicate FirstRow(row: T.Participant, a: Start) {
    row.user == a.user && row.conv == a.conv && row.leftAt.None?
  }

  /** A row that is not committed yet: nobody else has it, nobody has seen it, its conversation is there. */
  ghost predicate PendingOk(i: nat, a: Start, s: Sys) {
    Held(a, a.conv) ==>
      && s.shared && a.conv in s.db.convs && FirstRow(a.pc.row.value, a)
      && a.pc.id !in s.db.parts && a.pc.id !in s.left
      && a.pc.id in s.minted && s.minted[a.pc.id] == Owner(a.user, a.conv, i)
  }

  ghost predicate StartOk(i: nat, a: Start, s: Sys) {
    && (a.pc.Holding? ==> ChosenOk(a.pc.id, a.user, a.conv, a.pc.since, s))
    && PendingOk(i, a, s)
  }

  ghost predicate GivenOk(g: Given, s: Sys) {
    ChosenOk(g.id, g.user, g.conv, g.since, s) && g.since < g.at < s.clock
  }

  ghost predicate LeftOk(p: Uuid, s: Sys)
    requires p in s.left
  {
    p in s.minted && s.left[p] < s.clock
  }

  ghost predicate Inv(s: Sys) {
    && NIL !in s.minted && RowsOk(s.db.parts, s.minted, s.left)
    && (forall p {:trigger LeftOk(p, s)} | p in s.left :: LeftOk(p, s))
    && (forall i: nat {:trigger StartOk(i, s.starts[i], s)} | i < |s.starts| :: StartOk(i, s.starts[i], s))
    && (forall x {:trigger GivenOk(s.given[x], s)} | 0 <= x < |s.given| :: GivenOk(s.given[x], s))
  }

  /** Owners and leaves are never taken back. */
  ghost predicate Grows(s: Sys, s': Sys) {
    && s'.shared == s.shared && s.clock < s'.clock && s.now <= s'.now
    && (forall p | p in s.minted :: p in s'.minted && s'.minted[p] == s.minted[p])
    && (forall p | p in s.left :: p in s'.left && s'.left[p] == s.left[p])
    && (forall p | p in s'.left && p !in s.left :: p in s.db.parts && s'.left[p] == s.clock)
  }

  /** Steps of a running StartSession. */
  predicate OfStart(step: Step) { step.Begin? || step.Find? || step.Create? || step.Reply? }

  lemma CreateRows(s: Sys, i: nat, id: Uuid, f: Fault, s': Sys)
    requires Inv(s) && s' == DoCreate(s, i, id, f)
    ensures RowsOk(s'.db.parts, s'.minted, s'.left)
    ensures forall p | p in s.minted :: p in s'.minted && s'.minted[p] == s.minted[p]
  {
    forall p | p in s'.db.parts ensures RowOk(p, s'.db.parts[p], s'.minted, s'.left) {
      assert p in s.db.parts ==> RowOk(p, s.db.parts[p], s.minted, s.left);
      assert id in s.left ==> LeftOk(id, s);
    }
  }

  lemma ReplyRows(s: Sys, i: nat, f: Fault, s': Sys)
    requires Inv(s) && s' == DoReply(s, i, f)
    ensures RowsOk(s'.db.parts, s'.minted, s'.left)
  {
    assert i < |s.starts| ==> StartOk(i, s.starts[i], s);
    forall p | p in s'.db.parts ensures RowOk(p, s'.db.parts[p], s'.minted, s'.left) {
      assert p in s.db.parts ==> RowOk(p, s.db.parts[p], s.minted, s.left);
    }
  }

  lemma StartRows(s: Sys, step: Step, s': Sys)
    requires Inv(s) && OfStart(step) && s' == Effect(s, step)
    ensures RowsOk(s'.db.parts, s'.minted, s'.left) && s'.left == s.left && s'.shared == s.shared && s'.now == s.now
    ensures forall p | p in s.minted :: p in s'.minted && s'.minted[p] == s.minted[p]
  {
    if step.Create? {
      CreateRows(s, step.i, step.id, step.f, s');
    } else if step.Reply? {
      ReplyRows(s, step.i, step.f, s');
    } else {
      assert s'.db == s.db && s'.minted == s.minted;
    }
  }

  lemma LeaveRows(s: Sys, id: Uuid, s': Sys)
    requires RowsOk(s.db.parts, s.minted, s.left) && s' == DoLeave(s, id)
    ensures RowsOk(s'.db.parts, s'.minted, s'.left)
    ensures s'.left == s.left
            || (id in s.db.parts && id in s.minted && id !in s.left && s'.left == s.left[id := s.clock])
  {
    assert id in s.db.parts ==> RowOk(id, s.db.parts[id], s.minted, s.left);
    forall p | p in s'.db.parts ensures RowOk(p, s'.db.parts[p], s'.minted, s'.left) {
      assert RowOk(p, s.db.parts[p], s.minted, s.left);
    }
  }

  lemma KeptRows(s: Sys, step: Step, s': Sys)
    requires RowsOk(s.db.parts, s.minted, s.left) && !OfStart(step) && !step.Leave? && s' == Effect(s, step)
    ensures RowsOk(s'.db.parts, s'.minted, s'.left)
  {
    forall p | p in s'.db.parts ensures RowOk(p, s'.db.parts[p], s'.minted, s'.left) {
      assert p in s.db.parts && RowOk(p, s.db.parts[p], s.minted, s.left);
    }
  }

  lemma OtherFrame(s: Sys, step: Step, s': Sys)
    requires !OfStart(step) && s' == Effect(s, step)
    ensures s' == s.(db := s'.db, left := s'.left, now := s'.now) && s'.now >= s.now
    ensures !step.Leave? ==> s'.left == s.left
  {
  }

  lemma StepRows(s: Sys, step: Step, e: Sys, s': Sys)
    requires Inv(s) && e == Effect(s, step) && s' == e.(clock := s.clock + 1)
    ensures RowsOk(s'.db.parts, s'.minted, s'.left) && Grows(s, s')
    ensures forall p {:trigger LeftOk(p, s')} | p in s'.left :: LeftOk(p, s')
  {
    if OfStart(step) {
      StartRows(s, step, e);
    } else {
      OtherFrame(s, step, e);
      if step.Leave? { LeaveRows(s, step.id, e); } else { KeptRows(s, step, e); }
    }
    forall p {:trigger LeftOk(p, s')} | p in s'.left ensures LeftOk(p, s') {
      assert p in s.left ==> LeftOk(p, s);
    }
  }

  lemma ChosenStays(id: Uuid, user: string, conv: Uuid, since: nat, s: Sys, s': Sys)
    requires ChosenOk(id, user, conv, since, s) && Grows(s, s')
    ensures ChosenOk(id, user, conv, since, s')
  {
  }

  /** A new choice: made at this step, of an identity that has not left, with its row if that waits for the commit. */
  ghost predicate Choice(s: Sys, s': Sys, i: nat, a: Start) {
    && a.pc.Holding? && a.pc.since == s.clock
    && a.pc.id !in s.left
    && a.pc.id in s'.minted && s'.minted[a.pc.id].user == a.user && s'.minted[a.pc.id].conv == a.conv
    && (a.pc.row.Some? ==>
          && s.shared && a.conv in s.db.convs && FirstRow(a.pc.row.value, a)
          && a.pc.id !in s.db.parts && s'.minted[a.pc.id].caller == i)
  }

  /** Where a start comes from. */
  ghost predicate From(s: Sys, s': Sys, i: nat, a: Start) {
    || (i < |s.starts| && a == s.starts[i])
    || !a.pc.Holding?
    || Choice(s, s', i, a)
  }

  lemma FindFrom(s: Sys, k: nat, pick: Uuid, fails: bool, s': Sys, i: nat)
    requires RowsOk(s.db.parts, s.minted, s.left) && s' == DoFind(s, k, pick, fails) && i < |s'.starts|
    ensures From(s, s', i, s'.starts[i])
  {
    assert pick in s.db.parts ==> RowOk(pick, s.db.parts[pick], s.minted, s.left);
  }

  lemma CreateFrom(s: Sys, k: nat, id: Uuid, f: Fault, s': Sys, i: nat)
    requires Inv(s) && s' == DoCreate(s, k, id, f) && i < |s'.starts|
    ensures From(s, s', i, s'.starts[i])
  {
    assert id in s.left ==> LeftOk(id, s);
  }

  lemma StartFrom(s: Sys, step: Step, e: Sys, s': Sys, i: nat)
    requires Inv(s) && e == Effect(s, step) && s' == e.(clock := s.clock + 1) && i < |s'.starts|
    ensures From(s, s', i, s'.starts[i])
  {
    if step.Find? {
      FindFrom(s, step.i, step.pick, step.fails, e, i);
    } else if step.Create? {
      CreateFrom(s, step.i, step.id, step.f, e, i);
    } else if !OfStart(step) {
      OtherFrame(s, step, e);
    }
  }

  /** What keeps an uncommitted row as it is. */
  lemma PendingStays(s: Sys, step: Step, e: Sys, i: nat)
    requires Inv(s) && e == Effect(s, step) && i < |s.starts| && i < |e.starts|
    requires Held(s.starts[i], s.starts[i].conv) && e.starts[i] == s.starts[i]
    ensures s.starts[i].conv in e.db.convs && s.starts[i].pc.id !in e.db.parts
  {
    var a := s.starts[i];
    assert StartOk(i, a, s);
    if step.Reply? {
      assert step.i < |s.starts| ==> StartOk(step.i, s.starts[step.i], s);
    } else if step.DeleteConv? {
      DeleteSpares(s, step.c, e, i);
    }
  }

  lemma DeleteSpares(s: Sys, c: Uuid, e: Sys, i: nat)
    requires e == DoDelete(s, c) && i < |s.starts| && Held(s.starts[i], s.starts[i].conv)
    ensures s.starts[i].conv in s.db.convs ==> s.starts[i].conv in e.db.convs
    ensures e.db.parts.Keys <= s.db.parts.Keys
  {
  }

  lemma StepStarts(s: Sys, step: Step, e: Sys, s': Sys, i: nat)
    requires Inv(s) && e == Effect(s, step) && s' == e.(clock := s.clock + 1) && i < |s'.starts|
    requires Grows(s, s')
    ensures StartOk(i, s'.starts[i], s')
  {
    hide RowsOk, GivenOk;
    StartFrom(s, step, e, s', i);
    var a := s'.starts[i];
    assert i < |s.starts| ==> StartOk(i, s.starts[i], s);
    if i < |s.starts| && a == s.starts[i] {
      if a.pc.Holding? { ChosenStays(a.pc.id, a.user, a.conv, a.pc.since, s, s'); }
      if Held(a, a.conv) { PendingStays(s, step, e, i); }
    } else if a.pc.Holding? {
      ChoiceOk(s, step, e, s', i, a);
    }
  }

  lemma ChoiceOk(s: Sys, step: Step, e: Sys, s': Sys, i: nat, a: Start)
    requires e == Effect(s, step) && s' == e.(clock := s.clock + 1) && Grows(s, s')
    requires Choice(s, s', i, a) && (step.Find? ==> a.pc.row.None?) && (step.Find? || step.Create?)
    ensures StartOk(i, a, s')
  {
  }

  lemma StepGiven(s: Sys, step: Step, s': Sys, x: nat)
    requires Inv(s) && s' == Do(s, step) && x < |s'.given| && Grows(s, s')
    ensures GivenOk(s'.given[x], s')
  {
    if x < |s.given| {
      assert GivenOk(s.given[x], s);
      var g := s.given[x];
      ChosenStays(g.id, g.user, g.conv, g.since, s, s');
    } else {
      assert StartOk(step.i, s.starts[step.i], s);
      var a := s.starts[step.i];
      ChosenStays(a.pc.id, a.user, a.conv, a.pc.since, s, s');
    }
  }

  lemma StepOk(s: Sys, step: Step)
    requires Inv(s)
    ensures Inv(Do(s, step)) && Grows(s, Do(s, step))
  {
    var e, s' := Effect(s, step), Do(s, step);
    StepRows(s, step, e, s');
    forall i: nat | i < |s'.starts| ensures StartOk(i, s'.starts[i], s') { StepStarts(s, step, e, s', i); }
    forall x | 0 <= x < |s'.given| ensures GivenOk(s'.given[x], s') { StepGiven(s, step, s', x); }
  }

  lemma {:induction false} RunOk(s: Sys, steps: seq<Step>)
    requires Inv(s)
    ensures Inv(Run(s, steps)) && Run(s, steps).shared == s.shared
    decreases |steps|
  {
    if steps != [] {
      StepOk(s, steps[0]);
      RunOk(Do(s, steps[0]), steps[1..]);
    }
  }

  ghost function Reached(shared: bool, steps: seq<Step>): Sys { Run(Init(shared), steps) }

  /**
   Over every run, an identity that StartSession returns belongs to the caller's user and conversation,
   its row (while it exists) says the same, and it was chosen before it left: once MarkLeft has run, no
   lookup chooses it again, however often UpdatePresence refreshes it.
   */
  lemma IdentitySafe(shared: bool, steps: seq<Step>, x: nat)
    requires x < |Reached(shared, steps).given|
    ensures
      var s := Reached(shared, steps);
      var g := s.given[x];
      && g.id != NIL && g.id in s.minted && s.minted[g.id].user == g.user && s.minted[g.id].conv == g.conv
      && (g.id in s.db.parts ==> s.db.parts[g.id].user == g.user && s.db.parts[g.id].conv == g.conv)
      && (g.id in s.left ==> g.since < s.left[g.id])
      && (g.id in s.db.parts && s.db.parts[g.id].leftAt.Some? ==> g.id in s.left)
  {
    RunOk(Init(shared), steps);
    var s := Reached(shared, steps);
    assert GivenOk(s.given[x], s);
    assert s.given[x].id in s.db.parts ==> RowOk(s.given[x].id, s.db.parts[s.given[x].id], s.minted, s.left);
  }

  /** The owner of an identity and the moment it left never change. */
  lemma {:induction false} OwnersForever(s: Sys, steps: seq<Step>, p: Uuid)
    requires Inv(s)
    ensures p in s.minted ==> p in Run(s, steps).minted && Run(s, steps).minted[p] == s.minted[p]
    ensures p in s.left ==> p in Run(s, steps).left && Run(s, steps).left[p] == s.left[p]
    decreases |steps|
  {
    if steps != [] {
      StepOk(s, steps[0]);
      OwnersForever(Do(s, steps[0]), steps[1..], p);
    }
  }

  // ------------------------------------------------------------------ rejoining

  /** The step neither ends the session nor deletes its conversation. */
  predicate Spares(step: Step, id: Uuid, c: Uuid) {
    step != Leave(id) && step != DeleteConv(c)
  }

  ghost predicate SeenSince(s: Sys, user: string, c: Uuid, id: Uuid, t: Time) {
    Active(s.db.parts, user, c, id) && t <= s.db.parts[id].lastSeen <= s.now
  }

  lemma StartKeepsSeen(s: Sys, step: Step, e: Sys, user: string, c: Uuid, id: Uuid, t: Time)
    requires Inv(s) && SeenSince(s, user, c, id, t) && OfStart(step) && e == Effect(s, step)
    ensures SeenSince(e, user, c, id, t)
  {
    if step.Create? {
      assert id in s.minted by { assert RowOk(id, s.db.parts[id], s.minted, s.left); }
    } else if step.Reply? {
      assert step.i < |s.starts| ==> StartOk(step.i, s.starts[step.i], s);
    } else {
      assert e.db == s.db;
    }
  }

  lemma OtherKeepsSeen(s: Sys, step: Step, e: Sys, user: string, c: Uuid, id: Uuid, t: Time)
    requires SeenSince(s, user, c, id, t) && Spares(step, id, c) && !OfStart(step) && e == Effect(s, step)
    ensures SeenSince(e, user, c, id, t)
  {
    match step
    case DeleteConv(d) =>
    case Sync(p) =>
    case Leave(p) =>
    case Tick(d) =>
    case CreateConv(d) =>
  }

  lemma StillSeen(s: Sys, step: Step, user: string, c: Uuid, id: Uuid, t: Time)
    requires Inv(s) && SeenSince(s, user, c, id, t) && Spares(step, id, c)
    ensures SeenSince(Do(s, step), user, c, id, t)
  {
    var e := Effect(s, step);
    if OfStart(step) {
      StartKeepsSeen(s, step, e, user, c, id, t);
    } else {
      OtherKeepsSeen(s, step, e, user, c, id, t);
    }
  }

  lemma {:induction false} SeenThroughout(s: Sys, steps: seq<Step>, user: string, c: Uuid, id: Uuid, t: Time)
    requires Inv(s) && SeenSince(s, user, c, id, t)
    requires forall k | 0 <= k < |steps| :: Spares(steps[k], id, c)
    ensures Inv(Run(s, steps)) && SeenSince(Run(s, steps), user, c, id, t)
    decreases |steps|
  {
    if steps != [] {
      StepOk(s, steps[0]);
      StillSeen(s, steps[0], user, c, id, t);
      SeenThroughout(Do(s, steps[0]), steps[1..], user, c, id, t);
    }
  }

  /**
   Whatever else happens in between, for three minutes after a session was seen a working lookup of
   the same user, not forced to mint, chooses an old identity: that one, if the user has no other.
   */
  lemma RejoinKeepsIdentity(
      s: Sys, steps: seq<Step>, user: string, c: Uuid, id: Uuid, t: Time, i: nat, pick: Uuid, s': Sys)
    requires Inv(s) && SeenSince(s, user, c, id, t) && s' == Run(s, steps)
    requires forall k | 0 <= k < |steps| :: Spares(steps[k], id, c)
    requires s'.now <= t + 180_000
    requires At(s', i, Looking) && s'.starts[i] == Start(user, c, false, Looking)
    requires MostRecent(s'.db.parts, user, c, pick)
    ensures Do(s', Find(i, pick, false)).starts[i].pc == Holding(pick, s'.clock, None)
    ensures (forall p: Uuid | Active(s'.db.parts, user, c, p) :: p == id) ==> pick == id
  {
    SeenThroughout(s, steps, user, c, id, t);
    FindsSeen(s', user, c, id, t, i, pick);
  }

  lemma FindsSeen(s: Sys, user: string, c: Uuid, id: Uuid, t: Time, i: nat, pick: Uuid)
    requires SeenSince(s, user, c, id, t) && s.now <= t + REJOIN && MostRecent(s.db.parts, user, c, pick)
    requires At(s, i, Looking) && s.starts[i] == Start(user, c, false, Looking)
    ensures Do(s, Find(i, pick, false)).starts[i].pc == Holding(pick, s.clock, None)
    ensures (forall p: Uuid | Active(s.db.parts, user, c, p) :: p == id) ==> pick == id
  {
    assert Active(s.db.parts, user, c, pick);
  }

  /**
   The same with the heartbeat in the run: a session whose last executed sync came at most 120 seconds
   before it broke off at stop is resumed by every lookup within the following minute, in all
   interleavings with other users, other sessions and other conversations.
   */
  lemma RejoinWithinMinute(
      s: Sys, before: seq<Step>, after: seq<Step>, user: string, c: Uuid, id: Uuid, stop: Time, i: nat, pick: Uuid,
      s': Sys)
    requires Inv(s) && Active(s.db.parts, user, c, id) && s.db.parts[id].lastSeen <= s.now
    requires forall k | 0 <= k < |before| :: Spares(before[k], id, c)
    requires forall k | 0 <= k < |after| :: Spares(after[k], id, c)
    requires s' == Run(s, before + [Sync(id)] + after)
    requires stop - 120_000 <= Run(s, before).now && s'.now <= stop + 60_000
    requires At(s', i, Looking) && s'.starts[i] == Start(user, c, false, Looking)
    requires MostRecent(s'.db.parts, user, c, pick)
    ensures Do(s', Find(i, pick, false)).starts[i].pc == Holding(pick, s'.clock, None)
    ensures (forall p: Uuid | Active(s'.db.parts, user, c, p) :: p == id) ==> pick == id
  {
    var synced := Run(s, before);
    SeenThroughout(s, before, user, c, id, s.db.parts[id].lastSeen);
    var s1 := Do(synced, Sync(id));
    SyncSees(synced, user, c, id, s1);
    RunAppend(s, before + [Sync(id)], after);
    RunSnoc(s, before, Sync(id));
    RejoinKeepsIdentity(s1, after, user, c, id, synced.now, i, pick, s');
  }

  lemma SyncSees(s: Sys, user: string, c: Uuid, id: Uuid, s': Sys)
    requires Inv(s) && Active(s.db.parts, user, c, id) && s' == Do(s, Sync(id))
    ensures Inv(s') && SeenSince(s', user, c, id, s.now)
  {
    StepOk(s, Sync(id));
  }

  /** With no unleft row seen in the last three minutes the lookup always leads to a new identity. */
  lemma OtherwiseMints(s: Sys, i: nat, pick: Uuid)
    requires At(s, i, Looking) && !Reusable(s.db.parts, s.starts[i].user, s.starts[i].conv, s.now)
    ensures
      var a := s.starts[i];
      var s' := Do(s, Find(i, pick, false));
      && s'.db == s.db
      && (s'.starts[i].pc == Making || (s'.starts == s.starts && !MostRecent(s.db.parts, a.user, a.conv, pick)))
  {
    var a := s.starts[i];
    if MostRecent(s.db.parts, a.user, a.conv, pick) {
      assert !SeenRecently(s.db.parts, a.user, a.conv, s.now, pick);
    }
  }

  // ------------------------------------------------------------------ calls are runs

  /** The steps of a StartSession call that nobody interrupts and whose lookup may find pick. */
  function StartSteps(
      i: nat, user: string, c: Uuid, forceNew: bool, id: Uuid, f: StartFaults, pick: Uuid): seq<Step>
  {
    if !f.begin then []
    else
      [Begin(user, c, forceNew), Find(i, pick, f.find != Fine || c == NIL), Create(i, id, f.create),
       Reply(i, f.commit)]
  }

  /** The lookup has nothing to find, or pick is what it finds. */
  ghost predicate Finds(parts: map<Uuid, T.Participant>, user: string, c: Uuid, pick: Uuid) {
    MostRecent(parts, user, c, pick) || forall p: Uuid :: !Active(parts, user, c, p)
  }

  /** What StartSession does, whatever fails, is a run of these steps, so everything above holds of it. */
  lemma StartIsARun(
      s: Sys, db': T.Db, user: string, c: Uuid, forceNew: bool, id: Uuid, f: StartFaults, r: Result<Session, Error>,
      pick: Uuid)
    requires id !in s.minted && Started(s.shared, s.db, db', user, c, forceNew, id, s.now, f, r)
    requires Finds(s.db.parts, user, c, pick) && (r.Ok? && !r.value.isNew ==> pick == r.value.sender)
    ensures
      var s' := Run(s, StartSteps(|s.starts|, user, c, forceNew, id, f, pick));
      && s'.db == db'
      && (if r.Ok? then
            && |s'.given| == |s.given| + 1
            && var g := s'.given[|s.given|];
            && g.id == r.value.sender && g.user == user && g.conv == c
          else s'.given == s.given)
  {
    hide Run, Started, Mints, Fits;
    var s' := Run(s, StartSteps(|s.starts|, user, c, forceNew, id, f, pick));
    StartedSo(s, db', user, c, forceNew, id, f, r);
    if f.begin { StepsEndSo(s, user, c, forceNew, id, f, pick, s'); } else { NoSteps(s); }
  }

  lemma NoSteps(s: Sys)
    ensures Run(s, []) == s
  {
  }

  /** The call needs a new identity. */
  ghost predicate Mints(s: Sys, user: string, c: Uuid, forceNew: bool, f: StartFaults) {
    c == NIL || forceNew || f.find != Fine || !Reusable(s.db.parts, user, c, s.now)
  }

  /** A new row for the caller would be accepted. */
  predicate Fits(db: T.Db, c: Uuid, id: Uuid) { c != NIL && id != NIL && id !in db.parts && c in db.convs }

  lemma StartedSo(
      s: Sys, db': T.Db, user: string, c: Uuid, forceNew: bool, id: Uuid, f: StartFaults, r: Result<Session, Error>)
    requires Started(s.shared, s.db, db', user, c, forceNew, id, s.now, f, r)
    ensures
      var mint := Mints(s, user, c, forceNew, f);
      var stored := mint && Fits(s.db, c, id) && Lasts(s.shared, f.begin, f.create, f.commit);
      && db' == (if stored then s.db.(parts := s.db.parts[id := T.Participant(user, c, s.now, s.now, None)]) else s.db)
      && (r.Ok? <==> f.begin && f.commit == Fine && (mint ==> Fits(s.db, c, id) && f.create == Fine))
      && (r.Ok? ==> r.value.isNew == mint && (mint ==> r.value.sender == id))
  {
  }

  lemma RunCons(s: Sys, steps: seq<Step>)
    requires steps != []
    ensures Run(s, steps) == Run(Do(s, steps[0]), steps[1..])
  {
  }

  lemma ThreeSteps(s: Sys, a: Step, b: Step, c: Step)
    ensures Run(s, [a, b, c]) == Do(Do(Do(s, a), b), c)
  {
    assert [a, b, c][1..] == [b, c] && [b, c][1..] == [c] && [c][1..] == [];
    assert Run(Do(Do(s, a), b), [c]) == Do(Do(Do(s, a), b), c);
  }

  lemma Begins(s: Sys, user: string, c: Uuid, forceNew: bool, s': Sys)
    requires s' == Do(s, Begin(user, c, forceNew))
    ensures s' == s.(starts := s.starts + [Start(user, c, forceNew, Looking)], clock := s.clock + 1)
  {
  }

  lemma Found(
      s: Sys, i: nat, user: string, c: Uuid, forceNew: bool, f: StartFaults, pick: Uuid, mint: bool, s': Sys)
    requires i < |s.starts| && s.starts[i] == Start(user, c, forceNew, Looking) && Finds(s.db.parts, user, c, pick)
    requires s' == Do(s, Find(i, pick, f.find != Fine || c == NIL)) && mint == Mints(s, user, c, forceNew, f)
    ensures s' == s.(clock := s.clock + 1,
      starts := s.starts[i := Start(user, c, forceNew, if mint then Making else Holding(pick, s.clock, None))])
  {
    if MostRecent(s.db.parts, user, c, pick) { MostRecentDecides(s.db.parts, user, c, s.now, pick); }
  }

  lemma Created(
      s: Sys, i: nat, user: string, c: Uuid, forceNew: bool, id: Uuid, f: StartFaults, mint: bool, s': Sys)
    requires i < |s.starts| && s.starts[i] == Start(user, c, forceNew, s.starts[i].pc)
    requires s.starts[i].pc.Making? <==> mint
    requires id !in s.minted && s' == Do(s, Create(i, id, f.create))
    ensures
      var row := T.Participant(user, c, s.now, s.now, None);
      var stored := Fits(s.db, c, id) && f.create != Refused;
      var pc :=
        if stored && f.create == Fine then Holding(id, s.clock, if s.shared then Some(row) else None) else Over;
      if mint then
        s' == s.(clock := s.clock + 1, starts := s.starts[i := Start(user, c, forceNew, pc)],
          minted := if stored then s.minted[id := Owner(user, c, i)] else s.minted,
          db := if stored && !s.shared then s.db.(parts := s.db.parts[id := row]) else s.db)
      else s' == s.(clock := s.clock + 1)
  {
  }

  lemma Replied(
      s0: Sys, s: Sys, i: nat, at: nat, user: string, c: Uuid, forceNew: bool, id: Uuid, f: StartFaults, pick: Uuid,
      mint: bool, s': Sys)
    requires i < |s.starts| && s' == Do(s, Reply(i, f.commit)) && s.given == s0.given && s.shared == s0.shared
    requires
      var row := T.Participant(user, c, s0.now, s0.now, None);
      var stored := Fits(s0.db, c, id) && f.create != Refused;
      && s.starts[i] == Start(user, c, forceNew,
           if !mint then Holding(pick, at, None)
           else if stored && f.create == Fine then Holding(id, at, if s.shared then Some(row) else None)
           else Over)
      && s.db == if mint && stored && !s.shared then s0.db.(parts := s0.db.parts[id := row]) else s0.db
    requires f.begin
    ensures EndedSo(s0, user, c, id, f, pick, mint, s')
  {
  }

  /** The tables and replies when such a call has ended. */
  ghost predicate EndedSo(
      s: Sys, user: string, c: Uuid, id: Uuid, f: StartFaults, pick: Uuid, mint: bool, s': Sys)
  {
    var stored := mint && Fits(s.db, c, id) && Lasts(s.shared, f.begin, f.create, f.commit);
    var ok := f.begin && f.commit == Fine && (mint ==> Fits(s.db, c, id) && f.create == Fine);
    && s'.db == (if stored then s.db.(parts := s.db.parts[id := T.Participant(user, c, s.now, s.now, None)]) else s.db)
    && (if ok then
          && |s'.given| == |s.given| + 1
          && var g := s'.given[|s.given|];
          && g.id == (if mint then id else pick) && g.user == user && g.conv == c
        else s'.given == s.given)
  }

  lemma StepsEndSo(
      s: Sys, user: string, c: Uuid, forceNew: bool, id: Uuid, f: StartFaults, pick: Uuid, s': Sys)
    requires id !in s.minted && f.begin && Finds(s.db.parts, user, c, pick)
    requires s' == Run(s, StartSteps(|s.starts|, user, c, forceNew, id, f, pick))
    ensures EndedSo(s, user, c, id, f, pick, Mints(s, user, c, forceNew, f), s')
  {
    hide Run, Do, Reusable, MostRecent, Active, Lasts, Fits, EndedSo;
    var i := |s.starts|;
    var steps := StartSteps(i, user, c, forceNew, id, f, pick);
    var s1 := Do(s, Begin(user, c, forceNew));
    var s2 := Do(s1, Find(i, pick, f.find != Fine || c == NIL));
    var s3 := Do(s2, Create(i, id, f.create));
    assert steps[1..] == [Find(i, pick, f.find != Fine || c == NIL), Create(i, id, f.create), Reply(i, f.commit)];
    RunCons(s, steps);
    ThreeSteps(s1, steps[1], steps[2], steps[3]);
    var mint := Mints(s, user, c, forceNew, f);
    Begins(s, user, c, forceNew, s1);
    Found(s1, i, user, c, forceNew, f, pick, mint, s2);
    Created(s2, i, user, c, forceNew, id, f, mint, s3);
    var at := if mint then s2.clock else s1.clock;
    Replied(s, s3, i, at, user, c, forceNew, id, f, pick, mint, s');
  }

  lemma Ticks(s: Sys, d: nat)
    ensures Do(s, Tick(d)) == s.(now := s.now + d, clock := s.clock + 1)
  {
  }

  /** After more than three minutes in which no row of the user was seen, a call mints. */
  lemma SilenceMints(s: Sys, user: string, c: Uuid, d: nat, pick: Uuid)
    requires d > 180_000 && Finds(s.db.parts, user, c, pick)
    requires forall p: Uuid | Active(s.db.parts, user, c, p) :: s.db.parts[p].lastSeen <= s.now
    ensures
      var i := |s.starts|;
      var s' := Run(s, [Tick(d), Begin(user, c, false), Find(i, pick, c == NIL)]);
      s'.now == s.now + d && s'.starts == s.starts + [Start(user, c, false, Making)]
  {
    hide Do, Effect, Run;
    var s1 := Do(s, Tick(d));
    var s2 := Do(s1, Begin(user, c, false));
    Ticks(s, d);
    ThreeSteps(s, Tick(d), Begin(user, c, false), Find(|s.starts|, pick, c == NIL));
    Begins(s1, user, c, false, s2);
    assert !Reusable(s2.db.parts, user, c, s2.now);
    Found(s2, |s.starts|, user, c, false, NO_START_FAULTS, pick, true, Do(s2, Find(|s.starts|, pick, c == NIL)));
  }

  // ------------------------------------------------------------------ leaving during a start

  /** A MarkLeft of id finds the row unleft and is executed. */
  predicate LeaveHits(s: Sys, id: Uuid) {
    match T.LeaveParticipant(s.db, id, s.now)
    case Ok(Some(_)) => true
    case _ => false
  }

  /** Step k of the run is such a MarkLeft. */
  ghost predicate LeaveDone(shared: bool, steps: seq<Step>, k: nat, id: Uuid) {
    k < |steps| && steps[k] == Leave(id) && LeaveHits(Reached(shared, steps[..k]), id)
  }

  lemma {:induction false} RunSnoc(s: Sys, steps: seq<Step>, step: Step)
    ensures Run(s, steps + [step]) == Do(Run(s, steps), step)
    decreases |steps|
  {
    if steps == [] {
      assert [step][1..] == [];
      assert [] + [step] == [step];
    } else {
      assert (steps + [step])[0] == steps[0] && (steps + [step])[1..] == steps[1..] + [step];
      RunSnoc(Do(s, steps[0]), steps[1..], step);
    }
  }

  /** A step marks id as left exactly when it is an executed leave of it. */
  lemma StepLeft(s: Sys, step: Step, s': Sys, id: Uuid)
    requires Inv(s) && s' == Do(s, step)
    ensures s'.clock == s.clock + 1
    ensures step == Leave(id) && LeaveHits(s, id) ==> id !in s.left && id in s'.left && s'.left[id] == s.clock
    ensures !(step == Leave(id) && LeaveHits(s, id)) ==>
      (id in s'.left <==> id in s.left) && (id in s.left ==> s'.left[id] == s.left[id])
  {
    if step.Leave? {
      assert id in s.db.parts ==> RowOk(id, s.db.parts[id], s.minted, s.left);
    } else if !OfStart(step) {
      OtherFrame(s, step, Effect(s, step));
    }
  }

  /** left is exactly the record of the leaves that were executed, and the clock counts the steps. */
  lemma {:induction false} LeftIff(shared: bool, steps: seq<Step>, id: Uuid)
    ensures
      var s := Reached(shared, steps);
      && s.clock == |steps|
      && (forall k: nat {:trigger LeaveDone(shared, steps, k, id)} ::
            LeaveDone(shared, steps, k, id) <==> id in s.left && s.left[id] == k)
    decreases |steps|
  {
    if steps != [] {
      var n := |steps| - 1;
      var before := steps[..n];
      var s, s' := Reached(shared, before), Reached(shared, steps);
      assert steps == before + [steps[n]];
      RunSnoc(Init(shared), before, steps[n]);
      RunOk(Init(shared), before);
      LeftIff(shared, before, id);
      StepLeft(s, steps[n], s', id);
      forall k: nat ensures LeaveDone(shared, steps, k, id) <==> id in s'.left && s'.left[id] == k {
        LeaveEarlier(shared, before, steps[n], k, id);
      }
    }
  }

  lemma LeaveEarlier(shared: bool, before: seq<Step>, step: Step, k: nat, id: Uuid)
    ensures k < |before| ==> (LeaveDone(shared, before + [step], k, id) <==> LeaveDone(shared, before, k, id))
    ensures k == |before| ==>
      (LeaveDone(shared, before + [step], k, id) <==> step == Leave(id) && LeaveHits(Reached(shared, before), id))
    ensures k > |before| ==> !LeaveDone(shared, before + [step], k, id)
    ensures k >= |before| ==> !LeaveDone(shared, before, k, id)
  {
    if k <= |before| { assert (before + [step])[..k] == before[..k]; }
    assert before[..|before|] == before;
  }

  /**
   Exactly when an identity is returned that has left: a MarkLeft of its row was executed between the
   moment StartSession chose it and the moment it replied. At no other time can that leave have been.
   */
  lemma ReturnedAfterLeavingIff(shared: bool, steps: seq<Step>, x: nat)
    requires x < |Reached(shared, steps).given|
    ensures
      var s := Reached(shared, steps);
      var g := s.given[x];
      && g.since < g.at < |steps|
      && (HasLeftBy(s, g.id, g.at) <==> exists k: nat :: g.since < k < g.at && LeaveDone(shared, steps, k, g.id))
      && (forall k: nat {:trigger LeaveDone(shared, steps, k, g.id)} | LeaveDone(shared, steps, k, g.id) :: g.since < k)
  {
    var s := Reached(shared, steps);
    RunOk(Init(shared), steps);
    var g := s.given[x];
    assert GivenOk(g, s);
    LeftIff(shared, steps, g.id);
    if HasLeftBy(s, g.id, g.at) {
      assert LeaveDone(shared, steps, s.left[g.id], g.id);
    }
  }

  ghost predicate HasLeftBy(s: Sys, id: Uuid, at: nat) { id in s.left && s.left[id] < at }

  lemma {:induction false} RunAppend(s: Sys, a: seq<Step>, b: seq<Step>)
    ensures Run(s, a + b) == Run(Run(s, a), b)
    decreases |a|
  {
    if a == [] {
      assert a + b == b;
    } else {
      assert (a + b)[0] == a[0] && (a + b)[1..] == a[1..] + b;
      RunAppend(Do(s, a[0]), a[1..], b);
    }
  }

  const JOIN: seq<Step> := [Find(0, NIL, false), Create(0, 1, Fine), Reply(0, Fine)]
  const AGAIN: seq<Step> := [Begin("u", 7, false), Find(1, 1, false), Leave(1)]

  const DONE := Start("u", 7, true, Over)
  const ROW := T.Participant("u", 7, 0, 0, None)

  /** The tables with conversation 7 and one participant. */
  function Table(row: T.Participant): T.Db { T.Db(map[7 := 0], map[], map[1 := row], map[]) }

  /** The state of the run in which "u" has joined as identity 1. */
  function Joined(shared: bool): Sys {
    Sys(shared, Table(ROW), map[1 := Owner("u", 7, 0)], map[], [DONE], [Given(1, "u", 7, 3, 4)], 5, 0)
  }

  lemma Joins(shared: bool, s: Sys)
    requires s == Do(Do(Init(shared), CreateConv(7)), Begin("u", 7, true))
    ensures Run(s, JOIN) == Joined(shared)
  {
    ThreeSteps(s, JOIN[0], JOIN[1], JOIN[2]);
    var s1 := Do(s, JOIN[0]);
    assert s1 == Sys(shared, T.Db(map[7 := 0], map[], map[], map[]), map[], map[],
                   [Start("u", 7, true, Making)], [], 3, 0);
    var s2 := Do(s1, JOIN[1]);
    Created(s1, 0, "u", 7, true, 1, NO_START_FAULTS, true, s2);
    var s3 := Do(s2, JOIN[2]);
    assert s3.starts == [DONE];
    assert s3.db.parts == map[1 := ROW];
    assert s3.minted == map[1 := Owner("u", 7, 0)];
  }

  lemma FindsAgain(s: Sys, s': Sys)
    requires s == Joined(s.shared).(starts := [DONE, Start("u", 7, false, Looking)], clock := 6)
    requires s' == Do(s, Find(1, 1, false))
    ensures s' == s.(starts := [DONE, Start("u", 7, false, Holding(1, 6, None))], clock := 7)
  {
    assert Active(s.db.parts, "u", 7, 1);
    assert MostRecent(s.db.parts, "u", 7, 1);
  }

  lemma LeavesNow(s: Sys, s': Sys)
    requires s == Joined(s.shared).(starts := [DONE, Start("u", 7, false, Holding(1, 6, None))], clock := 7)
    requires s' == Do(s, Leave(1))
    ensures s' == s.(db := Table(ROW.(leftAt := Some(0))), left := map[1 := 7], clock := 8)
  {
    assert s'.db.parts == map[1 := ROW.(leftAt := Some(0))];
    assert s'.left == map[1 := 7];
  }

  lemma RepliesLast(s: Sys, s': Sys)
    requires s.clock == 8 && |s.given| == 1
    requires s.starts == [DONE, Start("u", 7, false, Holding(1, 6, None))] && s' == Do(s, Reply(1, Fine))
    ensures s'.given == s.given + [Given(1, "u", 7, 6, 8)] && s'.left == s.left && s'.db == s.db
  {
  }

  /**
   A run that does it, with or without an effective transaction: somebody joins and then starts a second
   session that finds the same identity; the identity leaves; the second session is given it nevertheless.
   */
  lemma LeftThenReturned(shared: bool)
    ensures exists steps ::
      var s := Reached(shared, steps);
      && |s.given| == 2 && HasLeftBy(s, s.given[1].id, s.given[1].at)
      && s.given[1].id in s.db.parts && s.db.parts[s.given[1].id].leftAt.Some?
  {
    var start := [CreateConv(7), Begin("u", 7, true)];
    var steps := start + (JOIN + (AGAIN + [Reply(1, Fine)]));
    RunAppend(Init(shared), start, JOIN + (AGAIN + [Reply(1, Fine)]));
    assert start[1..] == [Begin("u", 7, true)] && start[1..][1..] == [];
    var s2 := Run(Init(shared), start);
    assert s2 == Do(Do(Init(shared), CreateConv(7)), Begin("u", 7, true));
    Joins(shared, s2);
    RunAppend(s2, JOIN, AGAIN + [Reply(1, Fine)]);
    EndsLeft(Joined(shared));
    var s := Reached(shared, steps);
    assert HasLeftBy(s, s.given[1].id, s.given[1].at);
  }

  lemma EndsLeft(s: Sys)
    requires s == Joined(s.shared)
    ensures
      var s' := Run(s, AGAIN + [Reply(1, Fine)]);
      && s'.given == [Given(1, "u", 7, 3, 4), Given(1, "u", 7, 6, 8)] && s'.left == map[1 := 7]
      && s'.db.parts == map[1 := ROW.(leftAt := Some(0))]
  {
    RunSnoc(s, AGAIN, Reply(1, Fine));
    ThreeSteps(s, AGAIN[0], AGAIN[1], AGAIN[2]);
    var s1 := Do(s, AGAIN[0]);
    assert s1.starts == [DONE, Start("u", 7, false, Looking)];
    var s2 := Do(s1, AGAIN[1]);
    FindsAgain(s1, s2);
    var s3 := Do(s2, AGAIN[2]);
    LeavesNow(s2, s3);
    RepliesLast(s3, Do(s3, Reply(1, Fine)));
  }
}
