/**
  The table against the history: whatever the interleaving, every flow in the
  table is exactly what the flow's own code makes of the packets that were
  processed for it, one after the other, from the packet it was created for.
*/
module PipelineFlows {
  import opened Packets
  import opened FlowKey
  import opened FlowControl
  import opened Classifier
  import opened Meters
  import opened FlowModel
  import opened FlowLaws
  import opened Pipeline
  import opened PipelineInvariant
  import opened PipelineLives

  /** The packets processed for one flow. */
  function PacketsOf(ds: seq<Delivery>, id: nat): seq<Packet> {
    if ds == [] then []
    else PacketsOf(ds[..|ds| - 1], id) + if ds[|ds| - 1].flowId == id then [ds[|ds| - 1].packet] else []
  }

  /** What a flow's code makes of its packets, in memory that held `junk`. */
  ghost function Replay(env: Env, first: Packet, junk: Junk, ps: seq<Packet>): (r: FlowData)
    requires env.Valid()
    ensures ValidFlow(env, r)
  {
    FreshFlowIsValid(env, first, junk);
    FlowRun(env, FreshFlow(env, first, junk), ps)
  }

  /** The packets of a flow up to the one that finishes it; all of them, if none does. */
  function UpToEnd(first: Packet, ps: seq<Packet>): seq<Packet> {
    if ps == [] then []
    else
      var front := UpToEnd(first, ps[..|ps| - 1]);
      if FlowControl.Run(Fresh(first), front).state == Finished then front else ps
  }

  /** A flow is the replay of its packets; only a notified one has outlived its end. */
  ghost predicate Evolved(env: Env, first: Packet, junk: Junk, ps: seq<Packet>, f: FlowData)
    requires env.Valid()
  {
    var r := Replay(env, first, junk, ps);
    && f.meters == r.meters && f.verdict == r.verdict
    && if f.control.state == FinishedNotified then r.control.state == Finished && f.control == r.control.(state := FinishedNotified)
       else f.control == r.control && UpToEnd(first, ps) == ps
  }

  /** The entry under `h` has an origin with that key, and is its replay. */
  ghost predicate Replayed(s: Setup, m: Manager, h: Key)
    requires s.env.Valid() && h in m.flows
  {
    var Entry(id, f) := m.flows[h];
    && id in m.history.origin && KeyOf(m.history.origin[id]) == h
    && Evolved(s.env, m.history.origin[id], s.junk(id), PacketsOf(m.history.processed, id), f)
  }

  /** A packet was processed for a flow that exists and shares its key. */
  ghost predicate Addressed(t: History, d: Delivery) {
    d.flowId in t.origin && KeyOf(t.origin[d.flowId]) == KeyOf(d.packet)
  }

  /** A retired flow was recorded as its end left it, or as its last packet did before it was replaced or shut down. */
  ghost predicate RetiredInTime(t: History, id: nat)
    requires id in t.retired
  {
    && id in t.origin
    && t.retired[id] == FlowControl.Run(Fresh(t.origin[id]), UpToEnd(t.origin[id], PacketsOf(t.processed, id)))
  }

  /** A flow is on record as labelled exactly when its packets classify it. */
  ghost predicate LabelledRightly(s: Setup, t: History, id: nat)
    requires s.env.Valid()
  {
    id in t.labelled <==> id in t.origin && Replay(s.env, t.origin[id], s.junk(id), PacketsOf(t.processed, id)).verdict.classified
  }

  /** What the record says of flows is true of their packets. */
  ghost predicate TrueRecord(s: Setup, t: History)
    requires s.env.Valid()
  {
    && (forall i :: 0 <= i < |t.processed| ==> Addressed(t, t.processed[i]))
    && (forall id: nat :: id in t.retired ==> RetiredInTime(t, id))
    && (forall id: nat :: LabelledRightly(s, t, id))
  }

  ghost predicate Told(s: Setup, m: Manager) {
    && s.env.Valid()
    && (forall id: nat :: id in m.history.origin <==> id < m.nextId)
    && TrueRecord(s, m.history)
    && (forall h :: h in m.flows ==> Replayed(s, m, h))
  }

  // ---------- packets of a flow ----------

  lemma {:induction false} NoPacketsYet(ds: seq<Delivery>, id: nat)
    requires forall i :: 0 <= i < |ds| ==> ds[i].flowId != id
    ensures PacketsOf(ds, id) == []
  {
    if ds != [] {
      NoPacketsYet(ds[..|ds| - 1], id);
    }
  }

  lemma OnePacketMore(ds: seq<Delivery>, d: Delivery, id: nat)
    ensures PacketsOf(ds + [d], id) == PacketsOf(ds, id) + if d.flowId == id then [d.packet] else []
  {
    assert (ds + [d])[..|ds|] == ds;
  }

  lemma {:induction false} UpToEndIsAll(first: Packet, ps: seq<Packet>)
    ensures FlowControl.Run(Fresh(first), UpToEnd(first, ps)).state != Finished ==> UpToEnd(first, ps) == ps
  {
    hide FlowControl.Run;
    if ps != [] {
      UpToEndIsAll(first, ps[..|ps| - 1]);
    }
  }

  lemma EndStays(first: Packet, ps: seq<Packet>, p: Packet)
    ensures UpToEnd(first, ps + [p]) == if FlowControl.Run(Fresh(first), UpToEnd(first, ps)).state == Finished then UpToEnd(first, ps) else ps + [p]
  {
    hide FlowControl.Run;
    assert (ps + [p])[..|ps|] == ps;
  }

  /** A flow's packets up to its end are all those before the first packet that ends a flow, and that one. */
  lemma {:induction false} EndIsTheFirstEndingPacket(first: Packet, ps: seq<Packet>)
    ensures var u := UpToEnd(first, ps);
            && u <= ps
            && (forall i :: 0 <= i < |u| - 1 ==> !Ends(ps, i))
            && (u == ps || (u != [] && Ends(ps, |u| - 1)))
  {
    hide FlowControl.Run, Ends;
    if ps != [] {
      var front, rest := UpToEnd(first, ps[..|ps| - 1]), ps[..|ps| - 1];
      EndIsTheFirstEndingPacket(first, rest);
      UpToEndIsAll(first, rest);
      StateHasClosedForm(Fresh(first), front);
      forall i | 0 <= i < |rest| ensures Ends(ps, i) == Ends(rest, i) {
        EndsLocally(ps, rest, i);
      }
      forall i | 0 <= i < |front| ensures Ends(front, i) == Ends(rest, i) {
        EndsLocally(rest, front, i);
      }
    }
  }

  lemma EndsLocally(ps: seq<Packet>, qs: seq<Packet>, i: nat)
    requires qs <= ps && i < |qs|
    ensures Ends(ps, i) == Ends(qs, i)
  {
  }

  // ---------- the parts of a step ----------

  ghost predicate SameRecord(t: History, u: History) {
    u.origin == t.origin && u.processed == t.processed && u.retired == t.retired && u.labelled == t.labelled
  }

  /** Flows may be gone, and those left may be queued elsewhere; nothing else differs. */
  ghost predicate NoNewTale(m: Manager, r: Manager) {
    && r.nextId == m.nextId && SameRecord(m.history, r.history)
    && forall h :: h in r.flows ==>
                     && h in m.flows
                     && r.flows[h].id == m.flows[h].id && r.flows[h].flow.control == m.flows[h].flow.control
                     && r.flows[h].flow.meters == m.flows[h].flow.meters && r.flows[h].flow.verdict == m.flows[h].flow.verdict
  }

  lemma SameRecordIsTrue(s: Setup, t: History, u: History)
    requires s.env.Valid() && TrueRecord(s, t) && SameRecord(t, u)
    ensures TrueRecord(s, u)
  {
    hide TupleKey, KeyOf, Env.Valid, Replay, UpToEnd;
    forall i | 0 <= i < |u.processed| ensures Addressed(u, u.processed[i]) {
      assert Addressed(t, t.processed[i]);
    }
    forall id: nat | id in u.retired ensures RetiredInTime(u, id) {
      assert RetiredInTime(t, id);
    }
    forall id: nat ensures LabelledRightly(s, u, id) {
      assert LabelledRightly(s, t, id);
    }
  }

  lemma NoNewTaleIsTold(s: Setup, m: Manager, r: Manager)
    requires Told(s, m) && NoNewTale(m, r)
    ensures Told(s, r)
  {
    hide TupleKey, KeyOf, Env.Valid, Replay, UpToEnd, TrueRecord;
    SameRecordIsTrue(s, m.history, r.history);
    forall h | h in r.flows ensures Replayed(s, r, h) {
      assert h in m.flows && Replayed(s, m, h);
    }
  }

  lemma FreshFlowIsReplayed(env: Env, p: Packet, junk: Junk, f: FlowData)
    requires env.Valid() && f.control == Fresh(p) && f.meters == FreshMeters(env, junk) && f.verdict == FRESH_MATCH
    ensures Evolved(env, p, junk, [], f)
  {
    hide Env.Valid;
  }

  lemma FreshFlowIsUnlabelled(env: Env, p: Packet, junk: Junk)
    requires env.Valid()
    ensures !Replay(env, p, junk, []).verdict.classified
  {
    hide CoversMeter;
  }

  lemma InstallKeepsTale(s: Setup, m: Manager, p: Packet, caller: Caller)
    requires WellFormed(s, m) && (caller.Worker? ==> caller.index < s.workers)
    requires Told(s, m) && KeyOf(p) !in m.flows
    ensures Told(s, Install(s, m, p, caller))
  {
    hide TupleKey, WellFormed, Env.Valid, Evolved, Install, TrueRecord;
    var h, r := KeyOf(p), Install(s, m, p, caller);
    InstallEffect(s, m, p, caller);
    InstalledFlow(s, m, p, caller);
    NewOriginIsTrue(s, m, p);
    FreshFlowIsReplayed(s.env, p, s.junk(m.nextId), r.flows[h].flow);
    forall k | k in r.flows ensures Replayed(s, r, k) {
      if k != h {
        assert Replayed(s, m, k);
      }
    }
  }

  lemma NewOriginIsTrue(s: Setup, m: Manager, p: Packet)
    requires Told(s, m)
    ensures PacketsOf(m.history.processed, m.nextId) == []
    ensures TrueRecord(s, m.history.(origin := m.history.origin[m.nextId := p]))
  {
    hide TupleKey, KeyOf, Env.Valid, Evolved, UpToEnd, Replay, PacketsOf;
    var t, u := m.history, m.history.(origin := m.history.origin[m.nextId := p]);
    forall i | 0 <= i < |t.processed| ensures t.processed[i].flowId != m.nextId && Addressed(u, u.processed[i]) {
      assert Addressed(t, t.processed[i]);
    }
    NoPacketsYet(t.processed, m.nextId);
    FreshFlowIsUnlabelled(s.env, p, s.junk(m.nextId));
    forall id: nat | id in u.retired ensures RetiredInTime(u, id) {
      assert RetiredInTime(t, id);
    }
    forall id: nat ensures LabelledRightly(s, u, id) {
      assert LabelledRightly(s, t, id);
    }
  }

  lemma InstalledFlow(s: Setup, m: Manager, p: Packet, caller: Caller)
    requires WellFormed(s, m) && (caller.Worker? ==> caller.index < s.workers)
    ensures var f := Install(s, m, p, caller).flows[KeyOf(p)].flow;
            f.meters == FreshMeters(s.env, s.junk(m.nextId)) && f.verdict == FRESH_MATCH
  {
    hide TupleKey, WellFormed, FreshMeters;
  }

  lemma FlowsEndInTime(env: Env, first: Packet, junk: Junk, ps: seq<Packet>, f: FlowData)
    requires env.Valid() && Evolved(env, first, junk, ps, f)
    ensures f.control.state != FinishedNotified ==> f.control == FlowControl.Run(Fresh(first), UpToEnd(first, ps))
    ensures f.control.state == FinishedNotified ==> FlowControl.Run(Fresh(first), UpToEnd(first, ps)).state == Finished
  {
    hide FlowRun, FlowControl.Run, CoversMeter;
    FreshFlowIsValid(env, first, junk);
    ControlRunsAlone(env, FreshFlow(env, first, junk), ps);
    UpToEndIsAll(first, ps);
  }

  /** The entry of a flow in the record of retired ones. */
  function Recorded(m: Manager, h: Key): Manager
    requires h in m.flows
  {
    var Entry(id, f) := m.flows[h];
    if f.control.state == FinishedNotified then m
    else m.(history := m.history.(retired := m.history.retired[id := f.control]))
  }

  lemma RecordedInTime(s: Setup, m: Manager, h: Key)
    requires Told(s, m) && h in m.flows
    ensures Told(s, Recorded(m, h))
  {
    hide TupleKey, KeyOf, Env.Valid, Evolved, UpToEnd, Replay;
    var r, t, u := Recorded(m, h), m.history, Recorded(m, h).history;
    var Entry(id, f) := m.flows[h];
    assert Replayed(s, m, h);
    FlowsEndInTime(s.env, t.origin[id], s.junk(id), PacketsOf(t.processed, id), f);
    forall k | k in r.flows ensures Replayed(s, r, k) {
      assert Replayed(s, m, k);
    }
    forall i: nat | i in u.retired ensures RetiredInTime(u, i) {
      assert i == id || RetiredInTime(t, i);
    }
    forall i | 0 <= i < |u.processed| ensures Addressed(u, u.processed[i]) {
      assert Addressed(t, t.processed[i]);
    }
    forall id: nat ensures LabelledRightly(s, u, id) {
      assert LabelledRightly(s, t, id);
    }
  }

  lemma FinishKeepsTale(s: Setup, m: Manager, h: Key)
    requires Told(s, m) && h in m.flows
    ensures Told(s, Finish(s, m, h))
  {
    hide Told, Reports, WorthReporting;
    RecordedInTime(s, m, h);
    NoNewTaleIsTold(s, Recorded(m, h), Finish(s, m, h));
  }

  lemma GetFlowKeepsTale(s: Setup, m: Manager, p: Packet, caller: Caller)
    requires WellFormed(s, m) && (caller.Worker? ==> caller.index < s.workers) && Told(s, m)
    ensures Told(s, GetFlow(s, m, p, caller))
  {
    hide TupleKey, WellFormed, Install, Told, Expired;
    var h := KeyOf(p);
    if h !in m.flows {
      InstallKeepsTale(s, m, p, caller);
    } else if Expired(s.timeouts, m.flows[h].flow, p) {
      FinishKeepsTale(s, m, h);
      FinishKeepsWellFormed(s, m, h);
      InstallKeepsTale(s, Finish(s, m, h), p, caller);
    }
  }

  /** A flow's step does not look at queueing. */
  lemma StepIgnoresPlace(env: Env, f: FlowData, g: FlowData, p: Packet)
    requires env.Valid() && ValidFlow(env, f) && ValidFlow(env, g)
    requires f.control == g.control && f.meters == g.meters && f.verdict == g.verdict
    ensures var x, y := FlowStep(env, f, p), FlowStep(env, g, p);
            x.control == y.control && x.meters == y.meters && x.verdict == y.verdict
  {
    hide Env.Valid, ValidMeters, FlowControl.Step, MeasureEach, Round, Scores;
  }

  /** Once finished, a flow only counts its packets, marked or not. */
  lemma FinishedFlowsOnlyCount(env: Env, f: FlowData, p: Packet)
    requires env.Valid() && ValidFlow(env, f) && f.control.state in {Finished, FinishedNotified}
    ensures FlowStep(env, f, p) == f.(control := f.control.(overallPktCount := f.control.overallPktCount + 1, isFirstPacket := false))
  {
    hide Env.Valid, ValidMeters;
    StatesOnlyAdvance(f.control, p);
  }

  lemma EvolvesOneStep(env: Env, first: Packet, junk: Junk, ps: seq<Packet>, f: FlowData, p: Packet)
    requires env.Valid() && ValidFlow(env, f) && Evolved(env, first, junk, ps, f) && f.control.state != Finished
    ensures Evolved(env, first, junk, ps + [p], FlowStep(env, f, p))
    ensures Replay(env, first, junk, ps + [p]).verdict == FlowStep(env, f, p).verdict
    ensures f.control.state == FinishedNotified ==> UpToEnd(first, ps + [p]) == UpToEnd(first, ps)
  {
    hide Env.Valid, ValidFlow, FlowStep, FlowControl.Run;
    var r := Replay(env, first, junk, ps);
    assert (ps + [p])[..|ps|] == ps;
    assert Replay(env, first, junk, ps + [p]) == FlowStep(env, r, p);
    EndStays(first, ps, p);
    FlowsEndInTime(env, first, junk, ps, f);
    if f.control.state == FinishedNotified {
      FinishedFlowsOnlyCount(env, r, p);
      FinishedFlowsOnlyCount(env, f, p);
    } else {
      StepIgnoresPlace(env, f, r, p);
      StepMeasures(env, f, p);
      StatesOnlyAdvance(f.control, p);
    }
  }

  /** A packet is processed for its flow: the record and the flow advance together. */
  lemma FeedKeepsTale(s: Setup, m: Manager, p: Packet)
    requires WellFormed(s, m) && KeyOf(p) in m.flows && UniqueIds(m) && Told(s, m)
    requires m.flows[KeyOf(p)].flow.control.state != Finished
    requires m.flows[KeyOf(p)].id in m.history.retired ==> m.flows[KeyOf(p)].flow.control.state == FinishedNotified
    ensures Told(s, Feed(s, m, p))
  {
    hide TupleKey, WellFormed, FlowStep, Env.Valid, Evolved, Reports, PacketsOf, TrueRecord;
    var h, r, t := KeyOf(p), Feed(s, m, p), m.history;
    var Entry(id, f) := m.flows[h];
    var d := Delivery(p, id);
    WellFormedFlows(s, m, h);
    assert Replayed(s, m, h);
    EvolvesOneStep(s.env, t.origin[id], s.junk(id), PacketsOf(t.processed, id), f, p);
    OnePacketMore(t.processed, d, id);
    FeedKeepsRecord(s, m, p);
    forall k | k in r.flows ensures Replayed(s, r, k) {
      assert Replayed(s, m, k);
      OnePacketMore(t.processed, d, m.flows[k].id);
      assert PacketsOf(t.processed, m.flows[k].id) + [] == PacketsOf(t.processed, m.flows[k].id);
    }
  }

  lemma FeedKeepsRecord(s: Setup, m: Manager, p: Packet)
    requires WellFormed(s, m) && KeyOf(p) in m.flows && Told(s, m)
    requires m.flows[KeyOf(p)].flow.control.state != Finished
    requires m.flows[KeyOf(p)].id in m.history.retired ==> m.flows[KeyOf(p)].flow.control.state == FinishedNotified
    ensures TrueRecord(s, Feed(s, m, p).history)
  {
    hide TupleKey, WellFormed, FlowStep, Env.Valid, Reports, PacketsOf, Replay, UpToEnd, FlowControl.Run;
    var t, u := m.history, Feed(s, m, p).history;
    var Entry(id, f) := m.flows[KeyOf(p)];
    var d := Delivery(p, id);
    WellFormedFlows(s, m, KeyOf(p));
    assert Replayed(s, m, KeyOf(p));
    EvolvesOneStep(s.env, t.origin[id], s.junk(id), PacketsOf(t.processed, id), f, p);
    FlowStepKeepsPlace(s.env, f, p);
    assert LabelledRightly(s, t, id);
    forall i: nat ensures PacketsOf(u.processed, i) == PacketsOf(t.processed, i) + if i == id then [p] else [] {
      OnePacketMore(t.processed, d, i);
    }
    hide Feed;
    forall i: nat | i in u.retired ensures RetiredInTime(u, i) {
      assert RetiredInTime(t, i);
      assert PacketsOf(t.processed, i) + [] == PacketsOf(t.processed, i);
    }
    forall i: nat ensures LabelledRightly(s, u, i) {
      assert LabelledRightly(s, t, i);
      assert PacketsOf(t.processed, i) + [] == PacketsOf(t.processed, i);
    }
    forall i | 0 <= i < |u.processed| ensures Addressed(u, u.processed[i]) {
      if i < |t.processed| {
        assert Addressed(t, t.processed[i]);
      }
    }
  }

  /** A finished flow is marked as notified; it still is its replay. */
  lemma NotifyKeepsTale(s: Setup, m: Manager, h: Key)
    requires Told(s, m) && UniqueIds(m) && h in m.flows && m.flows[h].flow.control.state == Finished
    ensures Told(s, NotifyFinished(s, m, h)) && h in NotifyFinished(s, m, h).flows
    ensures NotifyFinished(s, m, h).flows[h].flow.control.state == FinishedNotified
  {
    hide TupleKey, KeyOf, Env.Valid, Replay, UpToEnd, Reports, WorthReporting, TrueRecord;
    var c, r := Recorded(m, h), NotifyFinished(s, m, h);
    RecordedInTime(s, m, h);
    SameRecordIsTrue(s, c.history, r.history);
    forall k | k in r.flows ensures Replayed(s, r, k) {
      assert Replayed(s, m, k);
    }
  }

  lemma DeleteKeepsTale(s: Setup, m: Manager, h: Key)
    requires Told(s, m) && h in m.flows && m.flows[h].flow.control.state == FinishedNotified
    ensures Told(s, DeleteFlow(m, h))
  {
    hide Told;
    NoNewTaleIsTold(s, m, DeleteFlow(m, h));
  }

  lemma RetireKeepsTale(s: Setup, m: Manager, h: Key)
    requires h in m.flows && Told(s, m) && UniqueIds(m)
    ensures Told(s, Retire(s, m, h))
  {
    hide NotifyFinished, Told, DeleteFlow, UniqueIds;
    match m.flows[h].flow.control.state
    case Finished =>
      NotifyKeepsTale(s, m, h);
      DeleteKeepsTale(s, NotifyFinished(s, m, h), h);
    case FinishedNotified =>
      DeleteKeepsTale(s, m, h);
    case _ =>
  }

  // ---------- the steps ----------

  lemma ProcessKeepsTale(s: Setup, m: Manager, p: Packet, caller: Caller)
    requires Inv(s, m, [p]) && (caller.Worker? ==> caller.index < s.workers) && Told(s, m) && Lives(s, m)
    ensures Told(s, ProcessPacket(s, m, p, caller))
  {
    hide TupleKey, WellFormed, UniqueIds, Routed, Placed, GetFlow, Feed, Retire, Told, Lived, Reported;
    WorkerFindsCountedFlow(s, m, p, caller);
    assert Marked(m, KeyOf(p));
    var m1 := Count(m, KeyOf(p), -1);
    UncountKeepsBase(s, m, p);
    NoNewTaleIsTold(s, m, m1);
    FeedKeepsTale(s, m1, p);
    FeedKeepsBase(s, m1, p);
    RetireKeepsTale(s, Feed(s, m1, p), KeyOf(p));
  }

  lemma LookupKeepsTale(s: Setup, m: Manager, p: Packet)
    requires Inv(s, m, []) && Told(s, m) && Lives(s, m)
    ensures WellFormed(s, Submit(m, p))
    ensures var g := GetFlow(s, Submit(m, p), p, Reader);
            Told(s, g) && Lives(s, g)
  {
    hide WellFormed, Placed, Routed, UniqueIds, GetFlow, Calm, Told, Lives, Numbered, KeyOf;
    SubmitKeepsInv(s, m, p);
    NoNewTaleIsTold(s, m, Submit(m, p));
    SameLivesAreLived(s, m, Submit(m, p));
    BaseIsNumbered(s, Submit(m, p), []);
    GetFlowKeepsTale(s, Submit(m, p), p, Reader);
    GetFlowKeepsLives(s, Submit(m, p), p, Reader);
  }

  lemma CountedKeepsTale(s: Setup, g: Manager, p: Packet, q: nat)
    requires Told(s, g) && KeyOf(p) in g.flows && q < |g.lines|
    ensures Told(s, Push(Count(g, KeyOf(p), 1), p, q)) && Told(s, Drop(Count(g, KeyOf(p), 1), p))
  {
    hide TupleKey, Told;
    NoNewTaleIsTold(s, g, Push(Count(g, KeyOf(p), 1), p, q));
    NoNewTaleIsTold(s, g, Drop(Count(g, KeyOf(p), 1), p));
  }

  lemma TakenKeepsTale(s: Setup, g: Manager, p: Packet)
    requires KeyOf(p) in g.flows && Inv(s, Count(g, KeyOf(p), 1), [p]) && Told(s, g) && Lives(s, g)
    ensures WellFormed(s, Take(Count(g, KeyOf(p), 1), p)) && Told(s, ProcessPacket(s, Take(Count(g, KeyOf(p), 1), p), p, Reader))
  {
    hide TupleKey, WellFormed, Placed, Routed, UniqueIds, ProcessPacket, Calm, Told, Lives;
    var c := Count(g, KeyOf(p), 1);
    SameTableInHand(s, c, Take(c, p), p);
    NoNewTaleIsTold(s, g, Take(c, p));
    SameLivesAreLived(s, g, Take(c, p));
    ProcessKeepsTale(s, Take(c, p), p, Reader);
  }

  lemma AddPacketKeepsTale(s: Setup, m: Manager, p: Packet)
    requires Inv(s, m, []) && Told(s, m) && Lives(s, m)
    ensures Told(s, AddPacket(s, m, p))
  {
    hide TupleKey, WellFormed, Placed, Routed, UniqueIds, GetFlow, ProcessPacket, Calm, Told, KeyOf, Lives, Push, Drop, Take;
    if m.shutdown {
      NoNewTaleIsTold(s, m, AddPacket(s, m, p));
    } else {
      AddPacketUnfolds(s, m, p);
      LookupKeepsTale(s, m, p);
      var h, g := KeyOf(p), GetFlow(s, Submit(m, p), p, Reader);
      if s.workers == 0 {
        TakenKeepsTale(s, g, p);
      } else {
        CountedKeepsTale(s, g, p, g.flows[h].flow.queueId);
      }
    }
  }

  lemma WorkKeepsTale(s: Setup, m: Manager, q: nat)
    requires Inv(s, m, []) && q < s.workers == |m.lines| && m.lines[q] != [] && Told(s, m) && Lives(s, m)
    ensures Told(s, Work(s, m, q))
  {
    hide TupleKey, Base, ProcessPacket, Calm, Told, Lives;
    SameLivesAreLived(s, m, Unload(m, q));
    UnloadKeepsInv(s, m, q);
    NoNewTaleIsTold(s, m, Unload(m, q));
    ProcessKeepsTale(s, Unload(m, q), m.lines[q][0], Worker(q));
  }

  lemma StartIsTold(s: Setup)
    requires s.env.Valid()
    ensures Told(s, Start(s))
  {
    hide Env.Valid;
    var m := Start(s);
    assert m.history.processed == [] && m.history.origin == map[] && m.history.retired == map[] && m.flows == map[];
  }
}
