/**
  The life of every flow: it is created once, retired once, reported to each
  observer once or never, labelled at most once, and leaves the table once.
*/
module PipelineLives {
  import opened Packets
  import opened FlowKey
  import opened FlowControl
  import opened FlowModel
  import opened Pipeline
  import opened PipelineInvariant
  import opened PipelineHistory

  function CallsTo(calls: seq<Report>, k: nat, id: nat): nat {
    multiset(calls)[Report(k, id)]
  }

  ghost predicate InTable(m: Manager, id: nat) {
    exists h :: h in m.flows && m.flows[h].id == id
  }

  /** A flow that was created is in the table or has left it, once, and it was retired before it left. */
  ghost predicate Lived(m: Manager, id: nat) {
    var t := m.history;
    && t.removed[id] == (if id < m.nextId && !InTable(m, id) then 1 else 0)
    && (id in t.removed ==> id in t.retired)
    && (id in t.retired || id in t.labelled ==> id < m.nextId)
  }

  /** What the table says of a flow is what happened to it. */
  ghost predicate Marked(m: Manager, h: Key)
    requires h in m.flows
  {
    var Entry(id, f) := m.flows[h];
    && (id in m.history.retired <==> f.control.state == FinishedNotified)
    && (id in m.history.labelled <==> f.verdict.classified)
  }

  /** Each finish observer hears once of each retired flow worth reporting, each classification
      observer once of each labelled flow, and nobody hears of anything else. */
  ghost predicate Reported(s: Setup, t: History, k: nat, id: nat) {
    && CallsTo(t.finishCalls, k, id) == (if k < s.finishObservers && id in t.retired && WorthReporting(t.retired[id]) then 1 else 0)
    && CallsTo(t.classifyCalls, k, id) == (if k < s.classifyObservers && id in t.labelled then 1 else 0)
  }

  ghost predicate Lives(s: Setup, m: Manager) {
    && (forall id: nat :: Lived(m, id))
    && (forall h :: h in m.flows ==> Marked(m, h))
    && (forall k: nat, id: nat :: Reported(s, m.history, k, id))
  }

  /** Different entries have different numbers, all given out already. */
  ghost predicate Numbered(m: Manager) {
    UniqueIds(m) && forall h :: h in m.flows ==> m.flows[h].id < m.nextId
  }

  lemma BaseIsNumbered(s: Setup, m: Manager, hand: seq<Packet>)
    requires Base(s, m, hand)
    ensures Numbered(m) && WellFormed(s, m)
  {
    hide TupleKey, WellFormed, Routed, UniqueIds, OfKey;
    forall h | h in m.flows ensures m.flows[h].id < m.nextId {
      assert Placed(s, m, hand, h);
    }
  }

  // ---------- the parts of a step ----------

  /** The same flows, in the same condition, with the same record. */
  ghost predicate SameLives(m: Manager, r: Manager) {
    && r.nextId == m.nextId
    && r.history.removed == m.history.removed && r.history.retired == m.history.retired && r.history.labelled == m.history.labelled
    && r.history.finishCalls == m.history.finishCalls && r.history.classifyCalls == m.history.classifyCalls
    && r.flows.Keys == m.flows.Keys
    && forall h :: h in m.flows ==>
                     && r.flows[h].id == m.flows[h].id && r.flows[h].flow.control.state == m.flows[h].flow.control.state
                     && r.flows[h].flow.verdict == m.flows[h].flow.verdict
  }

  lemma SameLivesAreLived(s: Setup, m: Manager, r: Manager)
    requires Lives(s, m) && SameLives(m, r)
    ensures Lives(s, r)
  {
    hide Reported;
    forall id ensures Lived(r, id) {
      assert Lived(m, id);
      SameFlowsInTable(m, r, id);
    }
    forall h | h in r.flows ensures Marked(r, h) {
      assert h in m.flows && Marked(m, h);
    }
    forall k, id ensures Reported(s, r.history, k, id) {
      assert Reported(s, m.history, k, id);
      SameReports(s, m.history, r.history, k, id);
    }
  }

  lemma SameFlowsInTable(m: Manager, r: Manager, id: nat)
    requires r.flows.Keys == m.flows.Keys && forall h :: h in m.flows ==> r.flows[h].id == m.flows[h].id
    ensures InTable(r, id) == InTable(m, id)
  {
    if h :| h in m.flows && m.flows[h].id == id {
      assert h in r.flows && r.flows[h].id == id;
    }
    if h :| h in r.flows && r.flows[h].id == id {
      assert h in m.flows && m.flows[h].id == id;
    }
  }

  lemma SameReports(s: Setup, t: History, u: History, k: nat, id: nat)
    requires Reported(s, t, k, id)
    requires u.retired == t.retired && u.labelled == t.labelled && u.finishCalls == t.finishCalls && u.classifyCalls == t.classifyCalls
    ensures Reported(s, u, k, id)
  {
  }

  lemma InstallKeepsLives(s: Setup, m: Manager, p: Packet, caller: Caller)
    requires WellFormed(s, m) && (caller.Worker? ==> caller.index < s.workers)
    requires Lives(s, m) && KeyOf(p) !in m.flows
    ensures Lives(s, Install(s, m, p, caller))
  {
    hide TupleKey, WellFormed, Install, Reported;
    var h, r := KeyOf(p), Install(s, m, p, caller);
    InstallEffect(s, m, p, caller);
    forall id ensures Lived(r, id) {
      assert Lived(m, id);
      NewFlowIsInTable(m, r, h, id);
    }
    forall k | k in r.flows ensures Marked(r, k) {
      if k == h {
        assert Lived(m, m.nextId);
      } else {
        assert Marked(m, k);
      }
    }
    forall k, id ensures Reported(s, r.history, k, id) {
      assert Reported(s, m.history, k, id);
      SameReports(s, m.history, r.history, k, id);
    }
  }

  lemma NewFlowIsInTable(m: Manager, r: Manager, h: Key, id: nat)
    requires h !in m.flows && h in r.flows && r.flows == m.flows[h := r.flows[h]]
    ensures InTable(r, id) == (InTable(m, id) || id == r.flows[h].id)
  {
    if k :| k in m.flows && m.flows[k].id == id {
      assert k in r.flows && r.flows[k].id == id;
    }
    if k :| k in r.flows && r.flows[k].id == id {
      assert k == h || (k in m.flows && m.flows[k].id == id);
    }
  }

  lemma ReportsCount(n: nat, id: nat, k: nat, id': nat)
    ensures multiset(Reports(n, id))[Report(k, id')] == if k < n && id' == id then 1 else 0
    decreases n
  {
    if n > 0 {
      ReportsCount(n - 1, id, k, id');
      assert Reports(n, id) == Reports(n - 1, id) + [Report(n - 1, id)];
    } else {
      assert Reports(n, id) == [];
    }
  }

  lemma CallsAdd(calls: seq<Report>, more: seq<Report>, k: nat, id: nat)
    ensures CallsTo(calls + more, k, id) == CallsTo(calls, k, id) + CallsTo(more, k, id)
  {
    assert multiset(calls + more) == multiset(calls) + multiset(more);
  }

  lemma NotifyKeepsLives(s: Setup, m: Manager, h: Key)
    requires Lives(s, m) && Numbered(m) && h in m.flows
    ensures Lives(s, NotifyFinished(s, m, h))
  {
    hide WorthReporting, Reported, Reports, CallsTo;
    var r := NotifyFinished(s, m, h);
    var Entry(id, f) := m.flows[h];
    if f.control.state != FinishedNotified {
      assert Marked(m, h);
      forall i ensures Lived(r, i) {
        assert Lived(m, i);
        SameFlowsInTable(m, r, i);
      }
      forall k | k in r.flows ensures Marked(r, k) {
        assert Marked(m, k);
      }
      forall k, i ensures Reported(s, r.history, k, i) {
        assert Reported(s, m.history, k, i);
        NotifyReports(s, m.history, r.history, id, f.control, k, i);
      }
    }
  }

  lemma NotifyReports(s: Setup, t: History, u: History, id: nat, c: Control, k: nat, i: nat)
    requires Reported(s, t, k, i) && id !in t.retired
    requires u.retired == t.retired[id := c] && u.labelled == t.labelled && u.classifyCalls == t.classifyCalls
    requires u.finishCalls == t.finishCalls + if WorthReporting(c) then Reports(s.finishObservers, id) else []
    ensures Reported(s, u, k, i)
  {
    hide WorthReporting, Reports;
    ReportsCount(s.finishObservers, id, k, i);
    CallsAdd(t.finishCalls, Reports(s.finishObservers, id), k, i);
    assert t.finishCalls + [] == t.finishCalls;
  }

  lemma RemoveKeepsLives(s: Setup, m: Manager, h: Key)
    requires Lives(s, m) && Numbered(m) && h in m.flows && m.flows[h].flow.control.state == FinishedNotified
    ensures Lives(s, Remove(m, h))
  {
    hide Reported;
    var r, id := Remove(m, h), m.flows[h].id;
    assert Marked(m, h);
    forall i ensures Lived(r, i) {
      assert Lived(m, i);
      RemovedFlowIsGone(m, r, h, i);
    }
    forall k | k in r.flows ensures Marked(r, k) {
      assert Marked(m, k);
    }
    forall k, i ensures Reported(s, r.history, k, i) {
      assert Reported(s, m.history, k, i);
      SameReports(s, m.history, r.history, k, i);
    }
  }

  lemma RemovedFlowIsGone(m: Manager, r: Manager, h: Key, i: nat)
    requires h in m.flows && UniqueIds(m) && r.flows == m.flows - {h}
    ensures InTable(r, i) == (InTable(m, i) && i != m.flows[h].id)
    ensures InTable(m, m.flows[h].id)
  {
    if k :| k in m.flows && m.flows[k].id == i && k != h {
      assert k in r.flows && r.flows[k].id == i;
    }
    if k :| k in r.flows && r.flows[k].id == i {
      assert k in m.flows && m.flows[k].id == i;
    }
  }

  lemma NotifyKeepsNumbers(s: Setup, m: Manager, h: Key)
    requires Numbered(m) && h in m.flows
    ensures var r := NotifyFinished(s, m, h);
            && Numbered(r) && h in r.flows && r.flows[h].flow.control.state == FinishedNotified
            && r.flows[h].flow.pktsInQueue == m.flows[h].flow.pktsInQueue
  {
    hide WorthReporting, Reports;
  }

  lemma FinishKeepsLives(s: Setup, m: Manager, h: Key)
    requires Lives(s, m) && Numbered(m) && h in m.flows
    ensures Lives(s, Finish(s, m, h)) && Numbered(Finish(s, m, h))
  {
    hide NotifyFinished, Lives, Numbered;
    NotifyKeepsLives(s, m, h);
    NotifyKeepsNumbers(s, m, h);
    RemoveKeepsLives(s, NotifyFinished(s, m, h), h);
    RemoveKeepsNumbers(NotifyFinished(s, m, h), h);
  }

  lemma RemoveKeepsNumbers(m: Manager, h: Key)
    requires Numbered(m) && h in m.flows
    ensures Numbered(Remove(m, h))
  {
  }

  lemma GetFlowKeepsLives(s: Setup, m: Manager, p: Packet, caller: Caller)
    requires WellFormed(s, m) && (caller.Worker? ==> caller.index < s.workers) && Numbered(m) && Lives(s, m)
    ensures Lives(s, GetFlow(s, m, p, caller))
  {
    hide TupleKey, WellFormed, Install, Numbered, Lives, Expired;
    var h := KeyOf(p);
    if h !in m.flows {
      InstallKeepsLives(s, m, p, caller);
    } else if Expired(s.timeouts, m.flows[h].flow, p) {
      FinishKeepsLives(s, m, h);
      FinishKeepsWellFormed(s, m, h);
      InstallKeepsLives(s, Finish(s, m, h), p, caller);
    }
  }

  /** Only a flow that the packet classifies gains a label, and every observer hears of it. */
  lemma FeedKeepsLives(s: Setup, m: Manager, p: Packet)
    requires WellFormed(s, m) && KeyOf(p) in m.flows && Numbered(m) && Lives(s, m)
    ensures Lives(s, Feed(s, m, p)) && Numbered(Feed(s, m, p))
  {
    hide TupleKey, WellFormed, FlowStep, FlowControl.Step, Reported, Reports, CallsTo;
    var h, r := KeyOf(p), Feed(s, m, p);
    var Entry(id, f) := m.flows[h];
    WellFormedFlows(s, m, h);
    var g := FlowStep(s.env, f, p);
    FlowStepKeepsPlace(s.env, f, p);
    FlowStepKeepsRetirement(f.control, p);
    assert Marked(m, h);
    forall i ensures Lived(r, i) {
      assert Lived(m, i);
      SameFlowsInTable(m, r, i);
    }
    forall k | k in r.flows ensures Marked(r, k) {
      assert Marked(m, k);
    }
    forall k, i ensures Reported(s, r.history, k, i) {
      assert Reported(s, m.history, k, i);
      FeedReports(s, m.history, r.history, id, g.verdict.classified && !f.verdict.classified, k, i);
    }
  }

  lemma FlowStepKeepsRetirement(c: Control, p: Packet)
    ensures FlowControl.Step(c, p).state == FinishedNotified <==> c.state == FinishedNotified
  {
    StatesOnlyAdvance(c, p);
  }

  lemma FeedReports(s: Setup, t: History, u: History, id: nat, announce: bool, k: nat, i: nat)
    requires Reported(s, t, k, i) && (announce ==> id !in t.labelled)
    requires u.retired == t.retired && u.finishCalls == t.finishCalls
    requires u.labelled == t.labelled + if announce then {id} else {}
    requires u.classifyCalls == t.classifyCalls + if announce then Reports(s.classifyObservers, id) else []
    ensures Reported(s, u, k, i)
  {
    hide WorthReporting, Reports;
    ReportsCount(s.classifyObservers, id, k, i);
    CallsAdd(t.classifyCalls, Reports(s.classifyObservers, id), k, i);
    assert t.classifyCalls + [] == t.classifyCalls;
  }

  lemma RetireKeepsLives(s: Setup, m: Manager, h: Key)
    requires h in m.flows && Numbered(m) && Lives(s, m)
    ensures Lives(s, Retire(s, m, h))
  {
    hide NotifyFinished, Lives, Numbered, SameLives;
    match m.flows[h].flow.control.state
    case Finished =>
      NotifyKeepsLives(s, m, h);
      NotifyKeepsNumbers(s, m, h);
      DeleteKeepsLives(s, NotifyFinished(s, m, h), h);
    case FinishedNotified =>
      DeleteKeepsLives(s, m, h);
    case _ =>
  }

  lemma DeleteKeepsLives(s: Setup, m: Manager, h: Key)
    requires h in m.flows && Numbered(m) && Lives(s, m) && m.flows[h].flow.control.state == FinishedNotified
    ensures Lives(s, DeleteFlow(m, h))
  {
    hide Lives, Numbered;
    if HasPackets(m.flows[h].flow) {
      SameLivesAreLived(s, m, DeleteFlow(m, h));
    } else {
      RemoveKeepsLives(s, m, h);
    }
  }

  // ---------- the steps ----------

  lemma ProcessKeepsLives(s: Setup, m: Manager, p: Packet, caller: Caller)
    requires Base(s, m, [p]) && (caller.Worker? ==> caller.index < s.workers) && Lives(s, m)
    ensures Lives(s, ProcessPacket(s, m, p, caller))
  {
    hide TupleKey, WellFormed, UniqueIds, Routed, Placed, GetFlow, Feed, Retire, Lives, Numbered;
    WorkerFindsCountedFlow(s, m, p, caller);
    var m1 := Count(m, KeyOf(p), -1);
    UncountKeepsBase(s, m, p);
    BaseIsNumbered(s, m1, []);
    SameLivesAreLived(s, m, m1);
    FeedKeepsLives(s, m1, p);
    RetireKeepsLives(s, Feed(s, m1, p), KeyOf(p));
  }

  lemma AddPacketKeepsLives(s: Setup, m: Manager, p: Packet)
    requires Base(s, m, []) && Lives(s, m)
    ensures Lives(s, AddPacket(s, m, p))
  {
    hide TupleKey, WellFormed, Placed, Routed, UniqueIds, GetFlow, ProcessPacket, Lives, Numbered, KeyOf;
    if m.shutdown {
      SameLivesAreLived(s, m, AddPacket(s, m, p));
    } else {
      AddPacketParts(s, m, p);
      SameLivesAreLived(s, m, Submit(m, p));
      BaseIsNumbered(s, Submit(m, p), []);
      GetFlowKeepsLives(s, Submit(m, p), p, Reader);
      var h, g := KeyOf(p), GetFlow(s, Submit(m, p), p, Reader);
      var c := Count(g, h, 1);
      hide AddPacket;
      if s.workers == 0 {
        SameTable(s, c, Take(c, p), [p]);
        SameLivesAreLived(s, g, Take(c, p));
        ProcessKeepsLives(s, Take(c, p), p, Reader);
      } else if |Queue(c, c.flows[h].flow.queueId)| < s.capacity {
        SameLivesAreLived(s, g, Push(c, p, c.flows[h].flow.queueId));
      } else {
        SameLivesAreLived(s, g, Drop(c, p));
      }
    }
  }

  lemma WorkKeepsLives(s: Setup, m: Manager, q: nat)
    requires Base(s, m, []) && q < s.workers == |m.lines| && m.lines[q] != [] && Lives(s, m)
    ensures Lives(s, Work(s, m, q))
  {
    hide TupleKey, WellFormed, Placed, Routed, UniqueIds, ProcessPacket, Lives;
    UnloadKeepsBase(s, m, q);
    SameLivesAreLived(s, m, Unload(m, q));
    ProcessKeepsLives(s, Unload(m, q), m.lines[q][0], Worker(q));
  }

  lemma StartIsLived(s: Setup)
    ensures Lives(s, Start(s))
  {
  }
}
