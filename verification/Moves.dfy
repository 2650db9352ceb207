/** What one step of a handler can do, whichever step it is and whether it fails or not. */
module Moves {
  import opened Common
  import opened Machine

  /** How many stations a handler still has before it. */
  function Rank(pc: Pc): nat {
    match pc
    case AtBegin => 8
    case AtDraw => 7
    case AtInsert => 6
    case AtCommit => 5
    case AtBroadcast => 4
    case AtSendAck => 3
    case AtXAck => 2
    case AtXDel => 1
    case Halted => 0
  }

  /** j' is the same job at a later station. */
  predicate Passes(j: Job, j': Job) {
    && j'.conv == j.conv && j'.entry == j.entry && j'.payload == j.payload && j'.served == j.served
    && Rank(j'.pc) < Rank(j.pc)
  }

  ghost predicate Reaches(conns: set<nat>, served: set<nat>, served': set<nat>) {
    exists k :: k in conns && k !in served && served' == served + {k}
  }

  /** j' is the same job with one more connection reached. */
  ghost predicate Serves(j: Job, j': Job, conns: set<nat>) {
    j' == j.(served := j'.served) && j.pc == AtBroadcast && Reaches(conns, j.served, j'.served)
  }

  /** Job i alone has moved. */
  predicate Moved(s: Sys, s': Sys, i: nat) {
    i < |s.jobs| == |s'.jobs| && s'.jobs == s.jobs[i := s'.jobs[i]] && s'.conns.Keys == s.conns.Keys
  }

  /** Job i alone has moved, and it is nearer to its end. */
  ghost predicate Onward(s: Sys, s': Sys, i: nat) {
    && Moved(s, s', i)
    && (Passes(s.jobs[i], s'.jobs[i]) || Serves(s.jobs[i], s'.jobs[i], s.conns.Keys))
  }

  lemma DrawInTxOnward(cfg: Config, s: Sys, i: nat, f: Fault, s': Sys)
    requires cfg.shared && s' == DoDraw(cfg, s, i, f) && s' != s
    ensures Moved(s, s', i) && Passes(s.jobs[i], s'.jobs[i])
  {
  }

  lemma DrawAloneOnward(cfg: Config, s: Sys, i: nat, f: Fault, s': Sys)
    requires !cfg.shared && s' == DoDraw(cfg, s, i, f) && s' != s
    ensures Moved(s, s', i) && Passes(s.jobs[i], s'.jobs[i])
  {
  }

  lemma AbortOnward(s: Sys, i: nat, s': Sys)
    requires i < |s.jobs| && s.jobs[i].pc != Halted && s' == Abort(s, i)
    ensures Moved(s, s', i) && Passes(s.jobs[i], s'.jobs[i])
  {
  }

  lemma InsertInTx(cfg: Config, s: Sys, i: nat, f: Fault, s': Sys)
    requires cfg.shared && At(s, i, AtInsert) && s' == DoInsert(cfg, s, i, f)
    ensures s' == Abort(s, i) || s' == SetJob(s, i, s.jobs[i].(pc := AtCommit))
  {
  }

  lemma InsertInTxOnward(cfg: Config, s: Sys, i: nat, f: Fault, s': Sys)
    requires cfg.shared && At(s, i, AtInsert) && s' == DoInsert(cfg, s, i, f)
    ensures Moved(s, s', i) && Passes(s.jobs[i], s'.jobs[i])
  {
    hide DoInsert;
    InsertInTx(cfg, s, i, f, s');
    if s' == Abort(s, i) { AbortOnward(s, i, s'); }
  }

  lemma InsertAloneOnward(cfg: Config, s: Sys, i: nat, f: Fault, s': Sys)
    requires !cfg.shared && At(s, i, AtInsert) && s' == DoInsert(cfg, s, i, f)
    ensures Moved(s, s', i) && Passes(s.jobs[i], s'.jobs[i])
  {
  }

  lemma CommitOnward(cfg: Config, s: Sys, i: nat, f: Fault, s': Sys)
    requires s' == DoCommit(cfg, s, i, f) && s' != s
    ensures Moved(s, s', i) && Passes(s.jobs[i], s'.jobs[i])
  {
  }

  lemma CrashOnward(s: Sys, i: nat, s': Sys)
    requires At(s, i, Halted) ==> s.jobs[i].tx.None?
    requires s' == DoCrash(s, i) && s' != s
    ensures Moved(s, s', i) && Passes(s.jobs[i], s'.jobs[i])
  {
    assert s.jobs[i].pc == Halted ==> s'.jobs == s.jobs;
    if s.jobs[i].pc != Halted { AbortOnward(s, i, s'); }
  }

  lemma SendOnward(s: Sys, i: nat, k: nat, s': Sys)
    requires s' == DoSendTo(s, i, k) && s' != s
    ensures Onward(s, s', i)
  {
    assert Reaches(s.conns.Keys, s.jobs[i].served, s'.jobs[i].served);
  }

  lemma BeginOnward(s: Sys, i: nat, ok: bool, s': Sys)
    requires s' == DoBegin(s, i, ok) && s' != s
    ensures Moved(s, s', i) && Passes(s.jobs[i], s'.jobs[i])
  {
  }

  lemma EndOnward(s: Sys, i: nat, s': Sys)
    requires s' == DoEndBroadcast(s, i) || s' == DoSendAck(s, i)
    requires s' != s
    ensures Moved(s, s', i) && Passes(s.jobs[i], s'.jobs[i])
  {
  }

  lemma AckOnward(s: Sys, i: nat, f: Fault, s': Sys)
    requires s' == DoXAck(s, i, f) || s' == DoXDel(s, i, f)
    requires s' != s
    ensures Moved(s, s', i) && Passes(s.jobs[i], s'.jobs[i])
  {
  }

  /** A handler step that does anything takes its job onward. */
  lemma HandlerOnward(cfg: Config, s: Sys, step: Step, s': Sys)
    requires OfHandler(step) && s' == DoHandler(cfg, s, step) && s' != s
    requires At(s, step.i, Halted) ==> s.jobs[step.i].tx.None?
    ensures Onward(s, s', step.i)
  {
    match step
    case Begin(i, ok) => BeginOnward(s, i, ok, s');
    case DrawNumber(i, f) =>
      if cfg.shared { DrawInTxOnward(cfg, s, i, f, s'); } else { DrawAloneOnward(cfg, s, i, f, s'); }
    case InsertRow(i, f) =>
      if cfg.shared { InsertInTxOnward(cfg, s, i, f, s'); } else { InsertAloneOnward(cfg, s, i, f, s'); }
    case Commit(i, f) => CommitOnward(cfg, s, i, f, s');
    case SendTo(i, k) => SendOnward(s, i, k, s');
    case EndBroadcast(i) => EndOnward(s, i, s');
    case SendAck(i) => EndOnward(s, i, s');
    case XAck(i, f) => AckOnward(s, i, f, s');
    case XDel(i, f) => AckOnward(s, i, f, s');
    case Crash(i) => CrashOnward(s, i, s');
  }

  /** No other step but a delivery touches the jobs. */
  lemma OtherJobs(cfg: Config, s: Sys, step: Step, s': Sys)
    requires !OfHandler(step) && !step.Deliver? && s' == Do(cfg, s, step)
    ensures s'.jobs == s.jobs
  {
  }

  /** A handler step leaves participants, conversations and lives alone, and no counter goes. */
  ghost predicate LeavesAlone(s: Sys, s': Sys) {
    && s'.minted == s.minted && s'.lives == s.lives && s'.db.parts == s.db.parts && s'.db.convs == s.db.convs
    && forall c | c in s.db.counters :: c in s'.db.counters
  }

  lemma HandlerLeaves(cfg: Config, s: Sys, step: Step, s': Sys)
    requires OfHandler(step) && s' == DoHandler(cfg, s, step)
    ensures LeavesAlone(s, s')
  {
  }

  /** A row appears only under the number of a running job of its conversation. */
  ghost predicate RowsOf(s: Sys, s': Sys, m: Uuid) {
    || ((m in s'.db.msgs <==> m in s.db.msgs) && (m in s.db.msgs ==> s'.db.msgs[m] == s.db.msgs[m]))
    || (m < |s.jobs| && s.jobs[m].pc != Halted && m in s'.db.msgs && s'.db.msgs[m].conv == s.jobs[m].conv)
  }

  lemma InsertRows(cfg: Config, s: Sys, k: nat, f: Fault, s': Sys, m: Uuid)
    requires s' == DoInsert(cfg, s, k, f)
    ensures RowsOf(s, s', m)
  {
    if At(s, k, AtInsert) && cfg.shared {
      hide DoInsert;
      InsertInTx(cfg, s, k, f, s');
    }
  }

  lemma CommitRows(cfg: Config, s: Sys, k: nat, f: Fault, s': Sys, m: Uuid)
    requires s' == DoCommit(cfg, s, k, f)
    ensures RowsOf(s, s', m)
  {
    if !cfg.shared || f == Refused || !At(s, k, AtCommit) || s.jobs[k].tx.None? {
      assert s'.db.msgs == s.db.msgs;
    }
  }

  lemma HandlerRows(cfg: Config, s: Sys, step: Step, s': Sys, m: Uuid)
    requires OfHandler(step) && s' == DoHandler(cfg, s, step)
    ensures RowsOf(s, s', m)
  {
    if step.InsertRow? {
      InsertRows(cfg, s, step.i, step.f, s', m);
    } else if step.Commit? {
      CommitRows(cfg, s, step.i, step.f, s', m);
    } else {
      assert s'.db.msgs == s.db.msgs;
    }
  }

  // ------------------------------------------------------------------ counters

  predicate SameCounter(s: Sys, s': Sys, c: Uuid) {
    && (c in s'.db.counters <==> c in s.db.counters)
    && (c in s.db.counters ==> s'.db.counters[c] == s.db.counters[c])
  }

  lemma DrawElsewhere(cfg: Config, s: Sys, i: nat, f: Fault, s': Sys, c: Uuid)
    requires At(s, i, AtDraw) ==> s.jobs[i].conv != c
    requires s' == DoDraw(cfg, s, i, f)
    ensures SameCounter(s, s', c)
  {
  }

  lemma CommitElsewhere(cfg: Config, s: Sys, i: nat, f: Fault, s': Sys, c: Uuid)
    requires At(s, i, AtCommit) ==> s.jobs[i].conv != c
    requires s' == DoCommit(cfg, s, i, f)
    ensures SameCounter(s, s', c)
  {
  }

  lemma NoCounter(cfg: Config, s: Sys, step: Step, s': Sys)
    requires OfHandler(step) && !step.Commit? && !step.DrawNumber? && s' == DoHandler(cfg, s, step)
    ensures s'.db.counters == s.db.counters
  {
  }

  /** A handler of another conversation leaves the counter of c as it is. */
  lemma CounterElsewhere(cfg: Config, s: Sys, step: Step, s': Sys, c: Uuid)
    requires OfHandler(step) && s' == DoHandler(cfg, s, step)
    requires step.i < |s.jobs| ==> s.jobs[step.i].conv != c
    ensures SameCounter(s, s', c)
  {
    if step.DrawNumber? {
      DrawElsewhere(cfg, s, step.i, step.f, s', c);
    } else if step.Commit? {
      CommitElsewhere(cfg, s, step.i, step.f, s', c);
    } else {
      NoCounter(cfg, s, step, s');
    }
  }
}
