/**
 The connection index and the pipeline together, in one process: every room has a consumer loop with its own
 context, and nobody else reads. When handlers of one stream can overlap, and when they cannot.
 */
module Workers {
  import opened Common
  import opened Machine
  import opened Invariants
  import opened Moves
  import opened PipelineTheorems
  import opened TableSteps
  import StreamSteps
  import H = Hub
  import S = Streams

  /** The consumer loop of one context: whether its XREADGROUP is under way, and its last handler. */
  datatype Loop = Loop(asked: bool, job: Option<nat>)

  /** loops[n] belongs to context n of the hub; owner says which context started a handler. */
  datatype World = World(hub: H.Hub<nat>, sys: Sys, loops: seq<Loop>, owner: seq<nat>)

  function Start(): World { World(H.Empty(), INIT, [], []) }

  datatype Event =
    | Call(call: H.Call<nat>)
    | Ask(n: nat)
    | Read(n: nat, received: bool)
    | Other(step: Step)

  /** The handler of this loop is running. */
  predicate Handles(jobs: seq<Job>, loop: Loop) {
    loop.job.Some? && loop.job.value < |jobs| && jobs[loop.job.value].pc != Halted
  }

  predicate AtRest(jobs: seq<Job>, loop: Loop) { !loop.asked && !Handles(jobs, loop) }

  predicate Is(w: World, n: nat) { n < |w.loops| && n < |w.hub.contexts| }

  /** Whether handlers overlap is not decided by the machine here. */
  function Free(shared: bool): Config { Config(shared, false) }

  /** Loop n has read, which left the pipeline as sys. */
  function Taken(w: World, n: nat, sys: Sys): World
    requires Is(w, n)
  {
    if |sys.jobs| > |w.sys.jobs| then
      World(w.hub, sys, w.loops[n := Loop(false, Some(|w.sys.jobs|))], w.owner + [n])
    else w.(sys := sys, loops := w.loops[n := w.loops[n].(asked := false)])
  }

  /**
   A loop looks at its context only before it asks: a read that is under way when the context is cancelled can
   still bring an entry. The handler runs in the loop, so the next read comes after its end.
   */
  function Next(shared: bool, w: World, e: Event): World {
    match e
    case Call(call) =>
      var hub := H.Apply(w.hub, call);
      w.(hub := hub, loops := if |hub.contexts| > |w.loops| then w.loops + [Loop(false, None)] else w.loops)
    case Ask(n) =>
      if Is(w, n) && w.hub.contexts[n].cancels == 0 && AtRest(w.sys.jobs, w.loops[n])
      then w.(loops := w.loops[n := w.loops[n].(asked := true)])
      else w
    case Read(n, received) =>
      if Is(w, n) && w.loops[n].asked then
        Taken(w, n, DoDeliver(Free(shared), w.sys, w.hub.contexts[n].conv, received))
      else w
    case Other(step) => if step.Deliver? then w else w.(sys := Do(Free(shared), w.sys, step))
  }

  function After(shared: bool, w: World, events: seq<Event>): World
    decreases |events|
  {
    if events == [] then w else After(shared, Next(shared, w, events[0]), events[1..])
  }

  function Seen(shared: bool, events: seq<Event>): World { After(shared, Start(), events) }

  // ------------------------------------------------------------------ what every run keeps

  /** A running handler belongs to a loop of its conversation, which is doing nothing else. */
  ghost predicate OwnerOk(w: World, i: nat) {
    i < |w.sys.jobs| && i < |w.owner| ==>
      && Is(w, w.owner[i]) && w.hub.contexts[w.owner[i]].conv == w.sys.jobs[i].conv
      && (w.sys.jobs[i].pc != Halted ==> w.loops[w.owner[i]] == Loop(false, Some(i)))
  }

  ghost predicate LoopOk(w: World, n: nat) {
    n < |w.loops| ==>
      && (w.loops[n].job.Some? ==> w.loops[n].job.value < |w.sys.jobs|)
      && (w.loops[n].asked ==> !Handles(w.sys.jobs, w.loops[n]))
  }

  /** A room gets a new context only after its earlier ones were cancelled. */
  ghost predicate Superseded(contexts: seq<H.Context>, n: nat, m: nat) {
    n < m < |contexts| && contexts[n].conv == contexts[m].conv ==> contexts[n].cancels > 0
  }

  ghost predicate WorldOk(shared: bool, w: World) {
    && Inv(Free(shared), w.sys) && H.RoomsOk(w.hub)
    && |w.loops| == |w.hub.contexts| && |w.owner| == |w.sys.jobs|
    && (forall i: nat {:trigger OwnerOk(w, i)} :: OwnerOk(w, i))
    && (forall n: nat {:trigger LoopOk(w, n)} :: LoopOk(w, n))
    && (forall n: nat, m: nat {:trigger Superseded(w.hub.contexts, n, m)} :: Superseded(w.hub.contexts, n, m))
  }

  /** Contexts keep their room, and a cancelled one stays cancelled; at most one is new. */
  ghost predicate Later(contexts: seq<H.Context>, contexts': seq<H.Context>) {
    && |contexts| <= |contexts'| <= |contexts| + 1
    && forall n {:trigger contexts'[n]} | 0 <= n < |contexts| ::
         contexts'[n].conv == contexts[n].conv && contexts'[n].cancels >= contexts[n].cancels
  }

  lemma CancelLater(contexts: seq<H.Context>, n: nat)
    ensures Later(contexts, H.Cancel(contexts, n)) && |H.Cancel(contexts, n)| == |contexts|
  {
  }

  lemma RegisterLater(h: H.Hub<nat>, conv: Uuid, sender: Uuid, c: nat)
    ensures
      var contexts := H.Register(h, conv, sender, c).contexts;
      contexts == if conv in h.rooms then h.contexts else h.contexts + [H.Context(conv, 0)]
  {
  }

  lemma UnregisterLater(h: H.Hub<nat>, conv: Uuid, sender: Uuid)
    ensures
      var contexts := H.Unregister(h, conv, sender).contexts;
      contexts == h.contexts || (conv in h.workers && contexts == H.Cancel(h.contexts, h.workers[conv]))
  {
  }

  lemma CallLater(h: H.Hub<nat>, call: H.Call<nat>, h': H.Hub<nat>)
    requires h' == H.Apply(h, call)
    ensures Later(h.contexts, h'.contexts)
    ensures |h'.contexts| > |h.contexts| ==>
      && call.Reg? && call.conv !in h.rooms && h'.contexts == h.contexts + [H.Context(call.conv, 0)]
  {
    hide H.Register, H.Unregister, H.Cancel;
    match call
    case Reg(conv, sender, c) => RegisterLater(h, conv, sender, c);
    case Unreg(conv, sender) =>
      UnregisterLater(h, conv, sender);
      if conv in h.workers { CancelLater(h.contexts, h.workers[conv]); }
  }

  /** All contexts of a room that does not exist are cancelled. */
  lemma EmptyCancelled(h: H.Hub<nat>, conv: Uuid, n: nat)
    requires H.RoomsOk(h) && conv !in h.rooms && n < |h.contexts| && h.contexts[n].conv == conv
    ensures h.contexts[n].cancels > 0
  {
    assert H.CtxOk(h.workers, h.contexts[n], n);
  }

  lemma CallOk(shared: bool, w: World, call: H.Call<nat>, w': World)
    requires WorldOk(shared, w) && w' == Next(shared, w, Call(call))
    ensures WorldOk(shared, w')
  {
    H.ApplyRooms(w.hub, call);
    CallLater(w.hub, call, w'.hub);
    CallLoops(w, w'.hub, w');
    forall n: nat, m: nat ensures Superseded(w'.hub.contexts, n, m) {
      CallSupersedes(w, call, w'.hub.contexts, n, m);
    }
  }

  lemma CallLoops(w: World, hub: H.Hub<nat>, w': World)
    requires |w.loops| == |w.hub.contexts| && Later(w.hub.contexts, hub.contexts)
    requires forall i: nat {:trigger OwnerOk(w, i)} :: OwnerOk(w, i)
    requires forall n: nat {:trigger LoopOk(w, n)} :: LoopOk(w, n)
    requires w' == w.(hub := hub, loops := w'.loops)
    requires w'.loops == w.loops || w'.loops == w.loops + [Loop(false, None)]
    ensures forall i: nat {:trigger OwnerOk(w', i)} :: OwnerOk(w', i)
    ensures forall n: nat {:trigger LoopOk(w', n)} :: LoopOk(w', n)
  {
    forall i: nat ensures OwnerOk(w', i) {
      assert OwnerOk(w, i);
    }
    forall n: nat ensures LoopOk(w', n) {
      assert LoopOk(w, n);
    }
  }

  lemma CallSupersedes(w: World, call: H.Call<nat>, contexts: seq<H.Context>, n: nat, m: nat)
    requires H.RoomsOk(w.hub) && Later(w.hub.contexts, contexts) && Superseded(w.hub.contexts, n, m)
    requires |contexts| > |w.hub.contexts| ==>
      call.conv !in w.hub.rooms && contexts == w.hub.contexts + [H.Context(call.conv, 0)]
    ensures Superseded(contexts, n, m)
  {
    if n < m == |w.hub.contexts| && m < |contexts| && w.hub.contexts[n].conv == call.conv {
      EmptyCancelled(w.hub, call.conv, n);
    }
  }

  lemma AskOk(shared: bool, w: World, n: nat, w': World)
    requires WorldOk(shared, w) && w' == Next(shared, w, Ask(n))
    ensures WorldOk(shared, w')
  {
    if w' != w {
      forall i: nat ensures OwnerOk(w', i) {
        assert OwnerOk(w, i);
      }
      forall m: nat ensures LoopOk(w', m) {
        assert LoopOk(w, m);
      }
    }
  }

  /** What a delivery does to the jobs. */
  lemma DeliverJobs(shared: bool, s: Sys, c: Uuid, received: bool, s': Sys)
    requires s' == DoDeliver(Free(shared), s, c, received)
    ensures OneMore(s.jobs, s'.jobs, c)
  {
  }

  lemma ReadOk(shared: bool, w: World, n: nat, received: bool, sys: Sys, w': World)
    requires WorldOk(shared, w) && Is(w, n) && w.loops[n].asked
    requires sys == DoDeliver(Free(shared), w.sys, w.hub.contexts[n].conv, received) && w' == Taken(w, n, sys)
    ensures WorldOk(shared, w')
  {
    DeliverOk(shared, w.sys, w.hub.contexts[n].conv, received, sys);
    DeliverJobs(shared, w.sys, w.hub.contexts[n].conv, received, sys);
    ReadLoops(w, n, sys, w');
  }

  lemma DeliverOk(shared: bool, s: Sys, c: Uuid, received: bool, s': Sys)
    requires Inv(Free(shared), s) && s' == DoDeliver(Free(shared), s, c, received)
    ensures Inv(Free(shared), s')
  {
    StreamSteps.DeliverOk(Free(shared), s, c, received);
  }

  /** The jobs after a delivery of c: the same, or one more at its beginning. */
  ghost predicate OneMore(jobs: seq<Job>, jobs': seq<Job>, c: Uuid) {
    jobs' == jobs
    || (|jobs'| == |jobs| + 1 && jobs <= jobs' && jobs'[|jobs|].conv == c && jobs'[|jobs|].pc == AtBegin)
  }

  lemma ReadLoops(w: World, n: nat, sys: Sys, w': World)
    requires |w.loops| == |w.hub.contexts| && |w.owner| == |w.sys.jobs| && Is(w, n) && w.loops[n].asked
    requires forall i: nat {:trigger OwnerOk(w, i)} :: OwnerOk(w, i)
    requires forall m: nat {:trigger LoopOk(w, m)} :: LoopOk(w, m)
    requires OneMore(w.sys.jobs, sys.jobs, w.hub.contexts[n].conv) && w' == Taken(w, n, sys)
    ensures forall i: nat {:trigger OwnerOk(w', i)} :: OwnerOk(w', i)
    ensures forall m: nat {:trigger LoopOk(w', m)} :: LoopOk(w', m)
  {
    assert LoopOk(w, n);
    forall i: nat ensures OwnerOk(w', i) {
      assert OwnerOk(w, i);
    }
    forall m: nat ensures LoopOk(w', m) {
      assert LoopOk(w, m);
    }
  }

  /** Steps other than deliveries start no handler and revive none. */
  ghost predicate Wanes(jobs: seq<Job>, jobs': seq<Job>) {
    && |jobs'| == |jobs|
    && forall i {:trigger jobs'[i]} | 0 <= i < |jobs| ::
         jobs'[i].conv == jobs[i].conv && (jobs[i].pc == Halted ==> jobs'[i].pc == Halted)
  }

  lemma OnwardWanes(s: Sys, s': Sys, i: nat)
    requires Onward(s, s', i)
    ensures Wanes(s.jobs, s'.jobs)
  {
  }

  lemma StepWanes(shared: bool, s: Sys, step: Step, s': Sys)
    requires Inv(Free(shared), s) && !step.Deliver? && s' == Do(Free(shared), s, step)
    ensures Wanes(s.jobs, s'.jobs)
  {
    if !OfHandler(step) {
      OtherJobs(Free(shared), s, step, s');
    } else if s' != s {
      assert step.i < |s.jobs| ==> PcOk(shared, s.jobs[step.i]);
      HandlerOnward(Free(shared), s, step, s');
      OnwardWanes(s, s', step.i);
    }
  }

  lemma OtherOk(shared: bool, w: World, step: Step, w': World)
    requires WorldOk(shared, w) && !step.Deliver? && w' == Next(shared, w, Other(step))
    ensures WorldOk(shared, w')
  {
    StepOk(Free(shared), w.sys, step);
    StepWanes(shared, w.sys, step, w'.sys);
    WaneLoops(w, w'.sys, w');
  }

  lemma WaneLoops(w: World, sys: Sys, w': World)
    requires |w.owner| == |w.sys.jobs| && Wanes(w.sys.jobs, sys.jobs) && w' == w.(sys := sys)
    requires forall i: nat {:trigger OwnerOk(w, i)} :: OwnerOk(w, i)
    requires forall n: nat {:trigger LoopOk(w, n)} :: LoopOk(w, n)
    ensures forall i: nat {:trigger OwnerOk(w', i)} :: OwnerOk(w', i)
    ensures forall n: nat {:trigger LoopOk(w', n)} :: LoopOk(w', n)
  {
    forall i: nat ensures OwnerOk(w', i) {
      assert OwnerOk(w, i);
    }
    forall n: nat ensures LoopOk(w', n) {
      assert LoopOk(w, n);
    }
  }

  lemma NextOk(shared: bool, w: World, e: Event, w': World)
    requires WorldOk(shared, w) && w' == Next(shared, w, e)
    ensures WorldOk(shared, w')
  {
    match e
    case Call(call) => CallOk(shared, w, call, w');
    case Ask(n) => AskOk(shared, w, n, w');
    case Read(n, received) =>
      if Is(w, n) && w.loops[n].asked {
        ReadOk(shared, w, n, received, DoDeliver(Free(shared), w.sys, w.hub.contexts[n].conv, received), w');
      }
    case Other(step) => if !step.Deliver? { OtherOk(shared, w, step, w'); }
  }

  lemma StartOk(shared: bool)
    ensures WorldOk(shared, Start())
  {
    InitInv(Free(shared));
  }

  // ------------------------------------------------------------------ who rests

  /** All loops of c but the latest are at rest, and will stay so. */
  ghost predicate EarlierRest(w: World, c: Uuid) {
    forall n: nat, m: nat {:trigger Pair(w, n, m, c)} | Pair(w, n, m, c) :: AtRest(w.sys.jobs, w.loops[n])
  }

  predicate Pair(w: World, n: nat, m: nat, c: Uuid) {
    n < m && Is(w, n) && Is(w, m) && w.hub.contexts[n].conv == c && w.hub.contexts[m].conv == c
  }

  /** Somebody enters the empty room c while a loop of an earlier context is still reading or handling. */
  ghost predicate Reenters(w: World, e: Event, c: Uuid) {
    && e.Call? && e.call.Reg? && e.call.conv == c && c !in w.hub.rooms
    && exists n: nat :: Unrested(w, n, c)
  }

  predicate Unrested(w: World, n: nat, c: Uuid) {
    Is(w, n) && w.hub.contexts[n].conv == c && !AtRest(w.sys.jobs, w.loops[n])
  }

  lemma ReadLeavesRest(w: World, m: nat, sys: Sys, n: nat)
    requires Is(w, n) && Is(w, m) && m != n && OneMore(w.sys.jobs, sys.jobs, w.hub.contexts[m].conv)
    requires LoopOk(w, n) && AtRest(w.sys.jobs, w.loops[n])
    ensures AtRest(sys.jobs, Taken(w, m, sys).loops[n])
  {
  }

  /** A cancelled loop that has come to rest never does anything again. */
  lemma RestStays(shared: bool, w: World, e: Event, w': World, n: nat)
    requires WorldOk(shared, w) && w' == Next(shared, w, e) && Is(w, n)
    requires w.hub.contexts[n].cancels > 0 && AtRest(w.sys.jobs, w.loops[n])
    ensures Is(w', n) && AtRest(w'.sys.jobs, w'.loops[n])
  {
    assert LoopOk(w, n);
    match e
    case Call(call) => CallLater(w.hub, call, w'.hub);
    case Ask(m) =>
    case Read(m, received) =>
      if Is(w, m) && w.loops[m].asked {
        var sys := DoDeliver(Free(shared), w.sys, w.hub.contexts[m].conv, received);
        DeliverJobs(shared, w.sys, w.hub.contexts[m].conv, received, sys);
        ReadLeavesRest(w, m, sys, n);
      }
    case Other(step) => if !step.Deliver? { StepWanes(shared, w.sys, step, w'.sys); }
  }

  lemma ContextsLater(shared: bool, w: World, e: Event, w': World)
    requires w' == Next(shared, w, e)
    ensures Later(w.hub.contexts, w'.hub.contexts)
  {
    if e.Call? { CallLater(w.hub, e.call, w'.hub); }
  }

  /** Before the event the loop was cancelled and at rest. */
  lemma PairRested(shared: bool, w: World, e: Event, w': World, c: Uuid, n: nat, m: nat)
    requires WorldOk(shared, w) && w' == Next(shared, w, e) && EarlierRest(w, c) && !Reenters(w, e, c)
    requires Later(w.hub.contexts, w'.hub.contexts) && Pair(w', n, m, c)
    ensures Is(w, n) && w.hub.contexts[n].cancels > 0 && AtRest(w.sys.jobs, w.loops[n])
  {
    assert w'.hub.contexts[n].conv == c;
    if m < |w.hub.contexts| {
      assert w'.hub.contexts[m].conv == c;
      assert Pair(w, n, m, c) && Superseded(w.hub.contexts, n, m);
    } else {
      assert e.Call?;
      CallLater(w.hub, e.call, w'.hub);
      assert !Unrested(w, n, c);
      EmptyCancelled(w.hub, c, n);
    }
  }

  lemma EarlierRestNext(shared: bool, w: World, e: Event, w': World, c: Uuid)
    requires WorldOk(shared, w) && w' == Next(shared, w, e) && EarlierRest(w, c) && !Reenters(w, e, c)
    ensures EarlierRest(w', c)
  {
    ContextsLater(shared, w, e, w');
    forall n: nat, m: nat {:trigger Pair(w', n, m, c)} | Pair(w', n, m, c) ensures AtRest(w'.sys.jobs, w'.loops[n]) {
      PairRested(shared, w, e, w', c, n, m);
      RestStays(shared, w, e, w', n);
    }
  }

  /** Nobody re-enters c too early in this run. */
  ghost predicate Patient(shared: bool, w: World, events: seq<Event>, c: Uuid)
    decreases |events|
  {
    events == [] || (!Reenters(w, events[0], c) && Patient(shared, Next(shared, w, events[0]), events[1..], c))
  }

  lemma {:induction false} PatientRests(shared: bool, w: World, events: seq<Event>, c: Uuid)
    requires WorldOk(shared, w) && EarlierRest(w, c) && Patient(shared, w, events, c)
    ensures WorldOk(shared, After(shared, w, events)) && EarlierRest(After(shared, w, events), c)
    decreases |events|
  {
    if events != [] {
      var w1 := Next(shared, w, events[0]);
      NextOk(shared, w, events[0], w1);
      EarlierRestNext(shared, w, events[0], w1, c);
      PatientRests(shared, w1, events[1..], c);
    }
  }

  // ------------------------------------------------------------------ overlapping handlers

  /** Two handlers of c are running. */
  ghost predicate Overlap(jobs: seq<Job>, c: Uuid) {
    exists i: nat, j: nat :: i < j && RunsFor(jobs, i, c) && RunsFor(jobs, j, c)
  }

  predicate RunsFor(jobs: seq<Job>, i: nat, c: Uuid) {
    i < |jobs| && jobs[i].conv == c && jobs[i].pc != Halted
  }

  function Lower(n: nat, m: nat): nat { if n <= m then n else m }

  function Upper(n: nat, m: nat): nat { if n <= m then m else n }

  lemma RestedOwners(shared: bool, w: World, c: Uuid)
    requires WorldOk(shared, w) && EarlierRest(w, c)
    ensures !Overlap(w.sys.jobs, c)
  {
    forall i: nat, j: nat | i < j && RunsFor(w.sys.jobs, i, c) && RunsFor(w.sys.jobs, j, c) ensures false {
      assert OwnerOk(w, i) && OwnerOk(w, j);
      assert w.owner[i] != w.owner[j];
      assert Pair(w, Lower(w.owner[i], w.owner[j]), Upper(w.owner[i], w.owner[j]), c);
    }
  }

  /** A loop that reads finds no handler of its conversation running. */
  lemma ReaderAlone(shared: bool, w: World, n: nat)
    requires WorldOk(shared, w) && Is(w, n) && w.loops[n].asked && EarlierRest(w, w.hub.contexts[n].conv)
    ensures !Busy(w.sys.jobs, w.hub.contexts[n].conv)
  {
    var c := w.hub.contexts[n].conv;
    if Busy(w.sys.jobs, c) {
      var i :| 0 <= i < |w.sys.jobs| && w.sys.jobs[i].conv == c && w.sys.jobs[i].pc != Halted;
      assert OwnerOk(w, i);
      assert w.owner[i] != n;
      assert Pair(w, Lower(n, w.owner[i]), Upper(n, w.owner[i]), c);
    }
  }

  /**
   In every run of one process, two handlers of one stream run at the same time only if, at some earlier
   moment, somebody entered the empty room while a loop of one of its cancelled contexts was still reading or
   handling.
   */
  lemma OverlapNeedsReentry(shared: bool, events: seq<Event>, c: Uuid)
    requires Overlap(Seen(shared, events).sys.jobs, c)
    ensures exists k ::
      0 <= k < |events| && Reenters(Seen(shared, events[..k]), events[k], c)
  {
    StartOk(shared);
    if Patient(shared, Start(), events, c) {
      PatientRests(shared, Start(), events, c);
      RestedOwners(shared, Seen(shared, events), c);
    } else {
      var k := Impatient(shared, Start(), events, c);
    }
  }

  lemma {:induction false} Impatient(shared: bool, w: World, events: seq<Event>, c: Uuid) returns (k: nat)
    requires !Patient(shared, w, events, c)
    ensures k < |events| && Reenters(After(shared, w, events[..k]), events[k], c)
    decreases |events|
  {
    if Reenters(w, events[0], c) {
      k := 0;
    } else {
      var h := Impatient(shared, Next(shared, w, events[0]), events[1..], c);
      k := h + 1;
      assert events[..k][0] == events[0] && events[..k][1..] == events[1..][..h];
    }
  }

  lemma ReceivedRuns(shared: bool, s: Sys, c: Uuid, s': Sys)
    requires Inv(Free(shared), s) && c in s.streams && S.XReadGroup(s.streams[c]).Some?
    requires s' == DoDeliver(Free(shared), s, c, true)
    ensures s.jobs < s'.jobs && RunsFor(s'.jobs, |s.jobs|, c)
  {
    StreamSteps.OwnStream(s, c);
    S.XReadGroupOk(s.streams[c]);
    assert |s'.jobs| == |s.jobs| + 1;
    DeliverJobs(shared, s, c, true, s');
  }

  lemma NewLoop(shared: bool, w: World, call: H.Call<nat>, w': World)
    requires |w.loops| == |w.hub.contexts| && call.Reg? && call.conv !in w.hub.rooms
    requires w' == Next(shared, w, Call(call))
    ensures w'.loops == w.loops + [Loop(false, None)] && w'.sys == w.sys
    ensures w'.hub.contexts == w.hub.contexts + [H.Context(call.conv, 0)]
  {
  }

  /** The new loop of a re-entered room has read an entry. */
  lemma NewLoopReads(shared: bool, w: World, call: H.Call<nat>, c: Uuid, w3: World)
    requires WorldOk(shared, w) && call.Reg? && call.conv == c && c !in w.hub.rooms
    requires c in w.sys.streams && S.XReadGroup(w.sys.streams[c]).Some?
    requires
      var m := |w.hub.contexts|;
      w3 == Next(shared, Next(shared, Next(shared, w, Call(call)), Ask(m)), Read(m, true))
    ensures w.sys.jobs < w3.sys.jobs && RunsFor(w3.sys.jobs, |w.sys.jobs|, c)
  {
    hide Inv, H.RoomsOk, DoDeliver;
    var m := |w.hub.contexts|;
    var w1 := Next(shared, w, Call(call));
    NewLoop(shared, w, call, w1);
    var w2 := Next(shared, w1, Ask(m));
    assert w2.loops[m].asked && w2.hub == w1.hub && w2.sys == w.sys;
    ReceivedRuns(shared, w.sys, c, DoDeliver(Free(shared), w.sys, c, true));
    assert w3 == Taken(w2, m, DoDeliver(Free(shared), w.sys, c, true));
  }

  /**
   And then they can: whenever somebody enters the empty room while an old handler is still running and an
   entry is unread, the new loop's first read makes two handlers run.
   */
  lemma ReentryOverlaps(shared: bool, w: World, e: Event, c: Uuid, i: nat)
    requires WorldOk(shared, w) && Reenters(w, e, c) && RunsFor(w.sys.jobs, i, c)
    requires c in w.sys.streams && S.XReadGroup(w.sys.streams[c]).Some?
    ensures
      var m := |w.hub.contexts|;
      Overlap(After(shared, w, [e, Ask(m), Read(m, true)]).sys.jobs, c)
  {
    hide Inv, H.RoomsOk, DoDeliver;
    var m := |w.hub.contexts|;
    var events := [e, Ask(m), Read(m, true)];
    assert events[1..] == [Ask(m), Read(m, true)] && events[1..][1..] == [Read(m, true)] && events[1..][1..][1..] == [];
    var w3 := Next(shared, Next(shared, Next(shared, w, e), Ask(m)), Read(m, true));
    assert After(shared, w, events) == w3 by {
      assert After(shared, Next(shared, Next(shared, w, e), Ask(m)), [Read(m, true)]) == w3;
    }
    NewLoopReads(shared, w, e.call, c, w3);
    assert RunsFor(w3.sys.jobs, i, c);
  }

  /** Otherwise the pipeline is that of one handler at a time. */
  function StepsOf(shared: bool, w: World, e: Event): seq<Step> {
    match e
    case Read(n, received) =>
      if Is(w, n) && w.loops[n].asked then [Deliver(w.hub.contexts[n].conv, received)] else []
    case Other(step) => if step.Deliver? then [] else [step]
    case _ => []
  }

  /** The steps of the machine in this run. */
  function Trace(shared: bool, w: World, events: seq<Event>): seq<Step>
    decreases |events|
  {
    if events == [] then []
    else StepsOf(shared, w, events[0]) + Trace(shared, Next(shared, w, events[0]), events[1..])
  }

  lemma SerialStep(shared: bool, w: World, e: Event, w': World)
    requires WorldOk(shared, w) && w' == Next(shared, w, e) && forall c :: EarlierRest(w, c)
    ensures w'.sys == Run(Config(shared, true), w.sys, StepsOf(shared, w, e))
  {
    hide Inv, DoDeliver;
    var steps := StepsOf(shared, w, e);
    if steps != [] {
      OneStep(Config(shared, true), w.sys, steps[0]);
      assert steps == [steps[0]];
      if e.Read? {
        ReaderAlone(shared, w, e.n);
        SerialRead(shared, w.sys, w.hub.contexts[e.n].conv, e.received);
      } else {
        SerialOther(shared, w.sys, e.step);
      }
    }
  }

  lemma OneStep(cfg: Config, s: Sys, step: Step)
    ensures Run(cfg, s, [step]) == Do(cfg, s, step)
  {
    assert [step][1..] == [];
  }

  lemma SerialRead(shared: bool, s: Sys, c: Uuid, received: bool)
    requires !Busy(s.jobs, c)
    ensures DoDeliver(Config(shared, true), s, c, received) == DoDeliver(Free(shared), s, c, received)
  {
  }

  lemma SerialOther(shared: bool, s: Sys, step: Step)
    requires !step.Deliver?
    ensures Do(Config(shared, true), s, step) == Do(Free(shared), s, step)
  {
  }

  lemma {:induction false} SerialAfter(shared: bool, w: World, events: seq<Event>)
    requires WorldOk(shared, w) && (forall c :: EarlierRest(w, c)) && forall c :: Patient(shared, w, events, c)
    ensures After(shared, w, events).sys == Run(Config(shared, true), w.sys, Trace(shared, w, events))
    decreases |events|
  {
    if events != [] {
      var w1, rest := Next(shared, w, events[0]), events[1..];
      NextOk(shared, w, events[0], w1);
      SerialStep(shared, w, events[0], w1);
      forall c ensures EarlierRest(w1, c) && Patient(shared, w1, rest, c) {
        assert Patient(shared, w, events, c);
        EarlierRestNext(shared, w, events[0], w1, c);
      }
      SerialAfter(shared, w1, rest);
      RunAppend(Config(shared, true), w.sys, StepsOf(shared, w, events[0]), Trace(shared, w1, rest));
    }
  }

  /**
   If no room is re-entered too early, what one process does to the tables, streams and connections is a run
   of the machine with one handler at a time per stream: everything proved for such runs holds of it.
   */
  lemma PatientIsSerial(shared: bool, events: seq<Event>)
    requires forall c :: Patient(shared, Start(), events, c)
    ensures Seen(shared, events).sys == Reached(Config(shared, true), Trace(shared, Start(), events))
  {
    StartOk(shared);
    assert forall c :: EarlierRest(Start(), c);
    SerialAfter(shared, Start(), events);
  }

  // ------------------------------------------------------------------ after the cancellation

  /** How many handlers loop n has started. */
  function Taking(owner: seq<nat>, n: nat): nat {
    if owner == [] then 0
    else Taking(owner[..|owner| - 1], n) + if owner[|owner| - 1] == n then 1 else 0
  }

  /** Those, and one more if it is reading. */
  function MayTake(w: World, n: nat): nat
    requires n < |w.loops|
  {
    Taking(w.owner, n) + if w.loops[n].asked then 1 else 0
  }

  lemma OneMoreTaken(owner: seq<nat>, m: nat, n: nat)
    ensures Taking(owner + [m], n) == Taking(owner, n) + if m == n then 1 else 0
  {
    assert (owner + [m])[..|owner|] == owner;
  }

  lemma CancelledNext(shared: bool, w: World, e: Event, w': World, n: nat)
    requires WorldOk(shared, w) && w' == Next(shared, w, e) && n < |w.loops| && w.hub.contexts[n].cancels > 0
    ensures n < |w'.loops| && n < |w'.hub.contexts| && w'.hub.contexts[n].cancels > 0
    ensures MayTake(w', n) <= MayTake(w, n) && Taking(w.owner, n) <= Taking(w'.owner, n)
    ensures w.loops[n].asked && e.Read? && e.n == n ==> !w'.loops[n].asked
  {
    ContextsLater(shared, w, e, w');
    assert w'.hub.contexts[n].cancels >= w.hub.contexts[n].cancels;
    if e.Read? && Is(w, e.n) && w.loops[e.n].asked { OneMoreTaken(w.owner, e.n, n); }
  }

  /**
   After its cancellation the loop of a room starts at most one more handler, and that only if its read was
   already under way; once that read has ended, none.
   */
  lemma {:induction false} CancelledTakesOne(shared: bool, w: World, events: seq<Event>, n: nat)
    requires WorldOk(shared, w) && n < |w.loops| && w.hub.contexts[n].cancels > 0
    ensures
      var w' := After(shared, w, events);
      && n < |w'.loops|
      && Taking(w.owner, n) <= Taking(w'.owner, n) <= MayTake(w, n) <= Taking(w.owner, n) + 1
      && (w.loops[n].asked && (exists k :: 0 <= k < |events| && events[k].Read? && events[k].n == n) ==>
            !w'.loops[n].asked)
      && (!w.loops[n].asked ==> !w'.loops[n].asked && Taking(w'.owner, n) == Taking(w.owner, n))
    decreases |events|
  {
    if events != [] {
      var w1 := Next(shared, w, events[0]);
      CancelledNext(shared, w, events[0], w1, n);
      NextOk(shared, w, events[0], w1);
      CancelledTakesOne(shared, w1, events[1..], n);
      if exists k :: 0 <= k < |events| && events[k].Read? && events[k].n == n {
        var k :| 0 <= k < |events| && events[k].Read? && events[k].n == n;
        assert k > 0 ==> events[1..][k - 1] == events[k];
      }
    }
  }
}
