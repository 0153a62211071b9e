/**
  The other place where the steps of `Pipeline` are too coarse.  In the code a worker
  holds no lock while it processes a packet (src/common/src/FlowManager.cpp,
  processPacket): it feeds the flow, reads the flow's state, has the flow reported,
  and takes the lock again to delete by hash whatever the table then has.  Here these
  are three steps, with any steps of other threads in between; the theorems say when
  that is as good as one step.
*/
module PipelineSettling {
  import opened Packets
  import opened FlowKey
  import opened FlowControl
  import opened FlowModel
  import opened Pipeline
  import opened PipelineInvariant
  import opened PipelineHistory
  import opened PipelineLives
  import opened PipelineRuns
  import opened PipelineRace

  /** The worker's first part: the flow of its packet has taken the packet. */
  ghost function FeedPart(s: Setup, m: Manager, q: nat): (r: Manager)
    requires Base(s, m, []) && q < s.workers == |m.lines| && m.lines[q] != []
    ensures Base(s, r, []) && KeyOf(m.lines[q][0]) in r.flows
  {
    hide TupleKey, WellFormed, UniqueIds, Routed, Placed, GetFlow, Feed, Unload;
    var p, popped := m.lines[q][0], Unload(m, q);
    UnloadKeepsBase(s, m, q);
    BaseIsWellFormed(s, popped, [p]);
    WorkerFindsCountedFlow(s, popped, p, Worker(q));
    UncountKeepsBase(s, popped, p);
    var m1 := Count(GetFlow(s, popped, p, Worker(q)), KeyOf(p), -1);
    BaseIsWellFormed(s, m1, []);
    FeedKeepsBase(s, m1, p);
    Feed(s, m1, p)
  }

  /** The entry under a key is the flow that the worker has in its hands. */
  predicate Present(m: Manager, h: Key, id: nat) {
    h in m.flows && m.flows[h].id == id
  }

  /** The worker finds its flow over.  A flow that has left the table is: whoever took it out had it reported. */
  predicate FoundOver(m: Manager, h: Key, id: nat) {
    Present(m, h, id) ==> Over(m.flows[h].flow.control.state)
  }

  /** The second part: a flow that is over is reported, unless it has been. */
  ghost function ReportPart(s: Setup, m: Manager, h: Key, id: nat): (r: Manager)
    requires Base(s, m, [])
    ensures Base(s, r, [])
  {
    hide TupleKey, WellFormed, UniqueIds, Routed, Placed, NotifyFinished;
    if Present(m, h, id) && Over(m.flows[h].flow.control.state) then
      NotifyKeepsBase(s, m, h);
      NotifyFinished(s, m, h)
    else m
  }

  /** The third part: unless packets still wait for the flow in hand, its key leaves the table. */
  function DeletePart(m: Manager, h: Key, id: nat): Manager {
    if h !in m.flows then m
    else if Present(m, h, id) then DeleteFlow(m, h)
    else Remove(m, h)
  }

  /** What the other threads may do while worker q processes a packet. */
  predicate IsOfOthers(a: Action, q: nat) {
    a != Look(q) && a != Fetch(q) && a != Serve(q)
  }

  ghost function InBetween(s: Setup, m: Manager, q: nat, steps: seq<Action>): (r: Manager)
    requires Base(s, m, []) && q < s.workers
    ensures Base(s, r, [])
  {
    hide Base, Enabled, Next;
    if steps == [] then m
    else
      var r, a := InBetween(s, m, q, steps[..|steps| - 1]), steps[|steps| - 1];
      BaseIsWellFormed(s, r, []);
      if IsOfOthers(a, q) && Enabled(s, r, a) then
        NextKeepsBase(s, r, a);
        Next(s, r, a)
      else r
  }

  /** The three parts, the other threads' steps between the first two, and those between the last two. */
  ghost function ServeSlowly(s: Setup, m: Manager, q: nat, steps: seq<Action>, more: seq<Action>): Manager
    requires Base(s, m, []) && q < s.workers == |m.lines| && m.lines[q] != []
  {
    var h, fed := KeyOf(m.lines[q][0]), FeedPart(s, m, q);
    var id := fed.flows[h].id;
    var found := InBetween(s, fed, q, steps);
    if FoundOver(found, h, id) then DeletePart(InBetween(s, ReportPart(s, found, h, id), q, more), h, id) else found
  }

  // ---------- the parts keep table and queues in agreement ----------

  lemma NotifyKeepsBase(s: Setup, m: Manager, h: Key)
    requires Base(s, m, []) && h in m.flows
    ensures Base(s, NotifyFinished(s, m, h), [])
  {
    hide TupleKey, WellFormed, UniqueIds, Routed, Placed, WorthReporting, Reports;
    StateChangeKeepsBase(s, m, h, FinishedNotified);
    if m.flows[h].flow.control.state != FinishedNotified {
      SameTable(s, SetFlow(m, h, SetState(m.flows[h].flow, FinishedNotified)), NotifyFinished(s, m, h), []);
    }
  }

  lemma WorkIsFeedThenRetire(s: Setup, m: Manager, q: nat)
    requires Base(s, m, []) && q < s.workers == |m.lines| && m.lines[q] != []
    ensures WellFormed(s, m) && Work(s, m, q) == Retire(s, FeedPart(s, m, q), KeyOf(m.lines[q][0]))
  {
    hide TupleKey, WellFormed, UniqueIds, Routed, Placed, GetFlow, Feed, Retire;
    BaseIsWellFormed(s, m, []);
  }

  lemma WorkKeepsBase(s: Setup, m: Manager, q: nat)
    requires Base(s, m, []) && q < s.workers == |m.lines| && m.lines[q] != []
    ensures WellFormed(s, m) && Base(s, Work(s, m, q), [])
  {
    hide Base, Work, FeedPart, Retire, KeyOf;
    WorkIsFeedThenRetire(s, m, q);
    RetireKeepsBase(s, FeedPart(s, m, q), KeyOf(m.lines[q][0]));
  }

  /** The reader's call on a key, whatever it does there: the entry that it leaves is the one that was there,
      or a new one in its place, if there was none or it had to be replaced. */
  lemma AddedEntry(s: Setup, m: Manager, p: Packet)
    requires Base(s, m, []) && !m.shutdown && s.workers > 0
    ensures WellFormed(s, m) && Base(s, AddPacket(s, m, p), [])
    ensures var r, h := AddPacket(s, m, p), KeyOf(p);
            && h in r.flows && r.flows == m.flows[h := r.flows[h]]
            && if h in m.flows && !Expired(s.timeouts, m.flows[h].flow, p) then
                 var f := r.flows[h].flow;
                 && r.flows[h] == Entry(m.flows[h].id, m.flows[h].flow.(pktsInQueue := f.pktsInQueue))
                 && f.pktsInQueue >= m.flows[h].flow.pktsInQueue && r.nextId == m.nextId
               else
                 r.flows[h].id == m.nextId && r.flows[h].flow.control == Fresh(p) && r.nextId == m.nextId + 1
  {
    hide TupleKey, WellFormed, Placed, Routed, UniqueIds, GetFlow, ProcessPacket, KeyOf;
    BaseIsWellFormed(s, m, []);
    AddPacketParts(s, m, p);
    BaseIsWellFormed(s, Submit(m, p), []);
    LookupEffect(s, Submit(m, p), p);
    var h, g := KeyOf(p), GetFlow(s, Submit(m, p), p, Reader);
    var c := Count(g, h, 1);
    hide AddPacket;
    if |Queue(c, c.flows[h].flow.queueId)| < s.capacity {
      PushKeepsBase(s, c, p, c.flows[h].flow.queueId);
    } else {
      DropUndoesCount(g, p);
      SameTable(s, g, Drop(c, p), []);
    }
  }

  lemma AddedTooLate(s: Setup, m: Manager, p: Packet)
    requires WellFormed(s, m) && m.shutdown
    ensures AddPacket(s, m, p) == Accept(Submit(m, p), p)
  {
    hide WellFormed, TupleKey;
  }

  lemma LookupEffect(s: Setup, m: Manager, p: Packet)
    requires WellFormed(s, m)
    ensures var r, h := GetFlow(s, m, p, Reader), KeyOf(p);
            && h in r.flows && r.flows == m.flows[h := r.flows[h]]
            && if h in m.flows && !Expired(s.timeouts, m.flows[h].flow, p) then r == m
               else r.flows[h].id == m.nextId && r.flows[h].flow.control == Fresh(p) && r.nextId == m.nextId + 1
  {
    hide TupleKey, WellFormed, Install, Expired, Finish;
    var h := KeyOf(p);
    if h !in m.flows {
      InstallEffect(s, m, p, Reader);
    } else if Expired(s.timeouts, m.flows[h].flow, p) {
      FinishEffect(s, m, h);
      FinishKeepsWellFormed(s, m, h);
      InstallEffect(s, Finish(s, m, h), p, Reader);
    }
  }

  lemma NextKeepsBase(s: Setup, m: Manager, a: Action)
    requires Base(s, m, []) && Enabled(s, m, a) && s.workers > 0
    ensures WellFormed(s, m) && Base(s, Next(s, m, a), [])
  {
    hide WellFormed, Routed, UniqueIds, Placed, AddPacket, Work, Finish, Expired, KeyOf;
    BaseIsWellFormed(s, m, []);
    match a
    case Add(p) =>
      if m.shutdown {
        AddedTooLate(s, m, p);
        SameTable(s, m, AddPacket(s, m, p), []);
      } else {
        AddedEntry(s, m, p);
      }
    case Serve(q) => WorkKeepsBase(s, m, q);
    case Settle(h) => FinishKeepsBase(s, m, h);
    case _ => SameTable(s, m, Next(s, m, a), []);
  }

  // ---------- the flow in the worker's hands ----------

  /** While a worker has a flow in its hands, the table and the queues agree and the account of lives is in
      order; that flow alone may be over without packets.  If it is in the table, it is where it was, still
      pinned to this worker's queue, and has taken no packet. */
  ghost predicate Held(s: Setup, m: Manager, h: Key, id: nat, q: nat, c: Control) {
    && Base(s, m, []) && Lives(s, m) && id < m.nextId
    && forall k :: k in m.flows ==>
                     if m.flows[k].id == id then k == h && m.flows[k].flow.queueId == q && m.flows[k].flow.control == c
                     else Calm(m.flows[k].flow)
  }

  /** A step takes the flow under a key out of the table: a packet for which that flow has expired, or the
      final call. */
  predicate TakesOut(s: Setup, m: Manager, a: Action, h: Key)
    requires h in m.flows
  {
    match a
    case Add(p) => !m.shutdown && KeyOf(p) == h && Expired(s.timeouts, m.flows[h].flow, p)
    case Settle(k) => k == h
    case _ => false
  }

  /** What feeding does to the table. */
  lemma FedFlow(s: Setup, m: Manager, q: nat)
    requires Base(s, m, []) && q < s.workers == |m.lines| && m.lines[q] != []
    ensures var p, r, h := m.lines[q][0], FeedPart(s, m, q), KeyOf(m.lines[q][0]);
            && h in m.flows && m.flows[h].flow.queueId == q
            && r.flows == m.flows[h := r.flows[h]] && r.flows[h].id == m.flows[h].id && r.flows[h].flow.queueId == q
            && r.flows[h].flow.control == FlowControl.Step(m.flows[h].flow.control, p)
            && r.flows[h].flow.pktsInQueue == m.flows[h].flow.pktsInQueue - 1
            && r.lines == m.lines[q := m.lines[q][1..]] && r.nextId == m.nextId
            && r.shutdown == m.shutdown && r.closing == m.closing
  {
    hide TupleKey, WellFormed, UniqueIds, Routed, Placed, Feed, FlowStep, FlowControl.Step;
    var p, popped := m.lines[q][0], Unload(m, q);
    UnloadKeepsBase(s, m, q);
    UnloadKeepsRouted(m, q);
    BaseIsWellFormed(s, popped, [p]);
    WorkerFindsCountedFlow(s, popped, p, Worker(q));
    UncountKeepsBase(s, popped, p);
    var m1 := Count(popped, KeyOf(p), -1);
    FeedEffect(s, m1, p);
    WellFormedFlows(s, m1, KeyOf(p));
    FlowStepKeepsPlace(s.env, m1.flows[KeyOf(p)].flow, p);
  }

  lemma FeedingKeepsLives(s: Setup, m: Manager, q: nat)
    requires Base(s, m, []) && Lives(s, m) && q < s.workers == |m.lines| && m.lines[q] != []
    ensures Lives(s, FeedPart(s, m, q))
  {
    hide TupleKey, WellFormed, UniqueIds, Routed, Placed, Lives, Feed, Numbered;
    var p, popped := m.lines[q][0], Unload(m, q);
    UnloadKeepsBase(s, m, q);
    BaseIsWellFormed(s, popped, [p]);
    WorkerFindsCountedFlow(s, popped, p, Worker(q));
    UncountKeepsBase(s, popped, p);
    var m1 := Count(popped, KeyOf(p), -1);
    BaseIsNumbered(s, m1, []);
    SameLivesAreLived(s, m, m1);
    FeedKeepsLives(s, m1, p);
  }

  lemma FeedIsHeld(s: Setup, m: Manager, q: nat)
    requires Inv(s, m, []) && Lives(s, m) && q < s.workers == |m.lines| && m.lines[q] != []
    ensures var h, fed := KeyOf(m.lines[q][0]), FeedPart(s, m, q);
            Held(s, fed, h, fed.flows[h].id, q, fed.flows[h].flow.control)
  {
    hide Base, FeedPart, Lives, Calm, KeyOf, UniqueIds, FlowControl.Step, Unload;
    FedFlow(s, m, q);
    FeedingKeepsLives(s, m, q);
    BaseIsNumbered(s, m, []);
    OneHolds(m, FeedPart(s, m, q), KeyOf(m.lines[q][0]));
  }

  lemma OneHolds(m: Manager, r: Manager, h: Key)
    requires Numbered(m) && h in m.flows && r.nextId == m.nextId && r.flows.Keys == m.flows.Keys
    requires r.flows[h].id == m.flows[h].id && forall k :: k in m.flows && k != h ==> r.flows[k] == m.flows[k]
    ensures r.flows[h].id < r.nextId && forall k :: k in r.flows && r.flows[k].id == r.flows[h].id ==> k == h
  {
  }

  lemma ReportIsHeld(s: Setup, m: Manager, h: Key, id: nat, q: nat, c: Control)
    requires Held(s, m, h, id, q, c) && FoundOver(m, h, id)
    ensures var r := ReportPart(s, m, h, id);
            Held(s, r, h, id, q, c.(state := FinishedNotified)) && (Present(r, h, id) <==> Present(m, h, id))
  {
    hide Base, Lives, Calm, WorthReporting, Reports, Numbered;
    BaseIsNumbered(s, m, []);
    if Present(m, h, id) {
      NotifyKeepsLives(s, m, h);
    }
  }

  // ---------- one step of another thread ----------

  lemma AddWhileHeld(s: Setup, m: Manager, p: Packet, h: Key, id: nat, q: nat, c: Control)
    requires Held(s, m, h, id, q, c) && s.workers > 0
    ensures WellFormed(s, m)
    ensures var r := AddPacket(s, m, p);
            && Held(s, r, h, id, q, c)
            && (Present(r, h, id) <==> Present(m, h, id) && !TakesOut(s, m, Add(p), h))
  {
    hide Base, Lives, AddPacket, KeyOf, WellFormed, Expired;
    BaseIsWellFormed(s, m, []);
    AddPacketKeepsLives(s, m, p);
    if m.shutdown {
      AddedTooLate(s, m, p);
      SameTable(s, m, AddPacket(s, m, p), []);
    } else {
      AddedEntry(s, m, p);
    }
  }

  /** One step for a worker that serves another queue. */
  lemma ServeWhileHeld(s: Setup, m: Manager, k: nat, h: Key, id: nat, q: nat, c: Control)
    requires Held(s, m, h, id, q, c) && k != q && k < s.workers == |m.lines| && m.lines[k] != []
    ensures WellFormed(s, m)
    ensures var r := Work(s, m, k);
            Held(s, r, h, id, q, c) && (Present(r, h, id) <==> Present(m, h, id))
  {
    hide TupleKey, WellFormed, UniqueIds, Routed, Placed, Lives, ProcessPacket, FlowControl.Step;
    WorkKeepsBase(s, m, k);
    WorkKeepsLives(s, m, k);
    ServedFlow(s, m, k);
    UnloadKeepsBase(s, m, k);
    var p, popped := m.lines[k][0], Unload(m, k);
    ProcessChangesOneEntry(s, popped, p, Worker(k));
    assert m.flows[KeyOf(p)].id != id;
  }

  lemma FinishWhileHeld(s: Setup, m: Manager, k: Key, h: Key, id: nat, q: nat, c: Control)
    requires Held(s, m, h, id, q, c) && k in m.flows && !HasPackets(m.flows[k].flow)
    ensures var r := Finish(s, m, k);
            Held(s, r, h, id, q, c) && (Present(r, h, id) <==> Present(m, h, id) && k != h)
  {
    hide Base, Lives, Calm, Finish, Numbered;
    BaseIsNumbered(s, m, []);
    FinishKeepsBase(s, m, k);
    FinishKeepsLives(s, m, k);
    FinishEffect(s, m, k);
  }

  lemma SameTableIsHeld(s: Setup, m: Manager, r: Manager, h: Key, id: nat, q: nat, c: Control)
    requires Held(s, m, h, id, q, c) && SameBut(m, r)
    ensures Held(s, r, h, id, q, c)
  {
    hide Base, Lives, Calm;
    SameTable(s, m, r, []);
    SameLivesAreLived(s, m, r);
  }

  lemma StepWhileHeld(s: Setup, m: Manager, a: Action, h: Key, id: nat, q: nat, c: Control)
    requires Held(s, m, h, id, q, c) && q < s.workers && IsOfOthers(a, q) && Enabled(s, m, a)
    ensures WellFormed(s, m)
    ensures var r := Next(s, m, a);
            Held(s, r, h, id, q, c) && (Present(r, h, id) <==> Present(m, h, id) && !TakesOut(s, m, a, h))
  {
    hide Held, Base, WellFormed, AddPacket, Work, Finish, KeyOf, Expired;
    HeldIsBase(s, m, h, id, q, c);
    BaseIsWellFormed(s, m, []);
    match a
    case Add(p) => AddWhileHeld(s, m, p, h, id, q, c);
    case Serve(k) => ServeWhileHeld(s, m, k, h, id, q, c);
    case Settle(k) => FinishWhileHeld(s, m, k, h, id, q, c);
    case _ => SameTableIsHeld(s, m, Next(s, m, a), h, id, q, c);
  }

  /** One of the steps finds the flow in the table and takes it out. */
  ghost predicate TakenOut(s: Setup, m: Manager, q: nat, steps: seq<Action>, h: Key, id: nat)
    requires Base(s, m, []) && q < s.workers
  {
    exists i :: 0 <= i < |steps| && StepTakesOut(s, InBetween(s, m, q, steps[..i]), q, steps[i], h, id)
  }

  ghost predicate StepTakesOut(s: Setup, m: Manager, q: nat, a: Action, h: Key, id: nat) {
    Present(m, h, id) && IsOfOthers(a, q) && Enabled(s, m, a) && TakesOut(s, m, a, h)
  }

  lemma TakenOutByTheLast(s: Setup, m: Manager, q: nat, steps: seq<Action>, h: Key, id: nat)
    requires Base(s, m, []) && q < s.workers && steps != []
    ensures var n := |steps| - 1;
            TakenOut(s, m, q, steps, h, id) <==>
              TakenOut(s, m, q, steps[..n], h, id) || StepTakesOut(s, InBetween(s, m, q, steps[..n]), q, steps[n], h, id)
  {
    hide Base, InBetween, StepTakesOut;
    var n := |steps| - 1;
    assert forall i :: 0 <= i <= n ==> steps[..n][..i] == steps[..i];
    if i :| 0 <= i < |steps| && StepTakesOut(s, InBetween(s, m, q, steps[..i]), q, steps[i], h, id) {
      assert i < n ==> steps[..n][i] == steps[i];
    }
    if i :| 0 <= i < n && StepTakesOut(s, InBetween(s, m, q, steps[..n][..i]), q, steps[..n][i], h, id) {
      assert steps[..n][i] == steps[i];
    }
  }

  /** Whatever the other threads do, nothing but these steps takes the flow out, and it is as it was. */
  lemma {:induction false} StaysHeld(s: Setup, m: Manager, q: nat, steps: seq<Action>, h: Key, id: nat, c: Control)
    requires Held(s, m, h, id, q, c) && q < s.workers
    ensures Base(s, m, []) && Held(s, InBetween(s, m, q, steps), h, id, q, c)
    ensures Present(InBetween(s, m, q, steps), h, id) <==> Present(m, h, id) && !TakenOut(s, m, q, steps, h, id)
  {
    hide Held, Base, Next, Enabled, TakenOut;
    HeldIsBase(s, m, h, id, q, c);
    if steps == [] {
      assert !TakenOut(s, m, q, steps, h, id) by { NothingTakesOut(s, m, q, h, id); }
    } else {
      var r, a := InBetween(s, m, q, steps[..|steps| - 1]), steps[|steps| - 1];
      StaysHeld(s, m, q, steps[..|steps| - 1], h, id, c);
      TakenOutByTheLast(s, m, q, steps, h, id);
      if IsOfOthers(a, q) && Enabled(s, r, a) {
        StepWhileHeld(s, r, a, h, id, q, c);
      }
    }
  }

  lemma HeldIsBase(s: Setup, m: Manager, h: Key, id: nat, q: nat, c: Control)
    requires Held(s, m, h, id, q, c)
    ensures Base(s, m, [])
  {
    hide Base;
  }

  lemma NothingTakesOut(s: Setup, m: Manager, q: nat, h: Key, id: nat)
    requires Base(s, m, []) && q < s.workers
    ensures !TakenOut(s, m, q, [], h, id)
  {
    hide Base;
  }

  // ---------- when slow serving is as good as a step ----------

  /** With nothing in between the three parts are the one step. */
  lemma AtOnceIsServe(s: Setup, m: Manager, q: nat)
    requires Base(s, m, []) && q < s.workers == |m.lines| && m.lines[q] != []
    ensures WellFormed(s, m) && ServeSlowly(s, m, q, [], []) == Work(s, m, q)
  {
    hide Base, Work, FeedPart, KeyOf;
    WorkIsFeedThenRetire(s, m, q);
  }

  lemma DeletionAgrees(s: Setup, m: Manager, h: Key, id: nat, q: nat, c: Control)
    requires Held(s, m, h, id, q, c) && c.state == FinishedNotified && (h in m.flows ==> m.flows[h].id == id)
    ensures var r := DeletePart(m, h, id);
            Inv(s, r, []) && Lives(s, r)
  {
    hide Base, Lives, Calm, Numbered;
    BaseIsNumbered(s, m, []);
    if h in m.flows {
      RetireKeepsInv(s, m, h);
      DeleteKeepsLives(s, m, h);
    }
  }

  /** A flow that came in the place of the one in hand is thrown out unreported, with its packets queued or not. */
  lemma DeletionDisagrees(s: Setup, m: Manager, h: Key, id: nat, q: nat, c: Control)
    requires Held(s, m, h, id, q, c) && h in m.flows && m.flows[h].id != id
    ensures var r := DeletePart(m, h, id);
            !(Inv(s, r, []) && Lives(s, r))
  {
    hide TupleKey, WellFormed, UniqueIds, Reported;
    var r, other, f := DeletePart(m, h, id), m.flows[h].id, m.flows[h].flow;
    assert Placed(s, m, [], h) && Calm(f) && Marked(m, h);
    NothingOfKeyAtAll();
    if Inv(s, r, []) && Lives(s, r) {
      assert Lived(r, other) && other in r.history.removed;
      assert f.control.state == FinishedNotified;
      NothingQueuedUnder(s, r, h);
      if 0 <= f.queueId < |m.lines| {
        NothingOfKey(m.lines[f.queueId], h);
      }
      assert false;
    }
  }

  /** A worker feeds the flow of its packet; the others do what they will; it reads the flow's state, and, if
      the flow is over, has it reported; the others go on; it deletes by hash.  Table and queues agree, and
      every flow has the one life it should have, if and only if the table does not have another flow under
      that key by then. */
  lemma ServingSlowlyAgreesIff(s: Setup, m: Manager, q: nat, steps: seq<Action>, more: seq<Action>)
    requires Inv(s, m, []) && Lives(s, m) && q < s.workers == |m.lines| && m.lines[q] != []
    ensures var h, fed, r := KeyOf(m.lines[q][0]), FeedPart(s, m, q), ServeSlowly(s, m, q, steps, more);
            var id := fed.flows[h].id;
            var found := InBetween(s, fed, q, steps);
            var last := InBetween(s, ReportPart(s, found, h, id), q, more);
            Inv(s, r, []) && Lives(s, r) <==> !FoundOver(found, h, id) || h !in last.flows || last.flows[h].id == id
  {
    hide Base, Lives, Calm, Held, FeedPart, ReportPart, InBetween, DeletePart, KeyOf, Unload;
    var h, fed, r := KeyOf(m.lines[q][0]), FeedPart(s, m, q), ServeSlowly(s, m, q, steps, more);
    var id, f := fed.flows[h].id, fed.flows[h].flow;
    FeedIsHeld(s, m, q);
    StaysHeld(s, fed, q, steps, h, id, f.control);
    var found := InBetween(s, fed, q, steps);
    if FoundOver(found, h, id) {
      ReportIsHeld(s, found, h, id, q, f.control);
      StaysHeld(s, ReportPart(s, found, h, id), q, more, h, id, f.control.(state := FinishedNotified));
      var last := InBetween(s, ReportPart(s, found, h, id), q, more);
      if h in last.flows && last.flows[h].id != id {
        DeletionDisagrees(s, last, h, id, q, f.control.(state := FinishedNotified));
      } else {
        DeletionAgrees(s, last, h, id, q, f.control.(state := FinishedNotified));
      }
    } else {
      HeldAndCalm(s, found, h, id, q, f.control);
    }
  }

  lemma HeldAndCalm(s: Setup, m: Manager, h: Key, id: nat, q: nat, c: Control)
    requires Held(s, m, h, id, q, c) && !FoundOver(m, h, id)
    ensures Inv(s, m, []) && Lives(s, m)
  {
    hide Base, Lives;
  }

  /** The flow that the worker fed leaves the table in between if and only if a packet comes for which it has
      expired, or the final call finishes it; whatever else is done, it stays there with its state. */
  lemma FedFlowStaysIff(s: Setup, m: Manager, q: nat, steps: seq<Action>)
    requires Inv(s, m, []) && Lives(s, m) && q < s.workers == |m.lines| && m.lines[q] != []
    ensures var h, fed := KeyOf(m.lines[q][0]), FeedPart(s, m, q);
            var Entry(id, f) := fed.flows[h];
            var r := InBetween(s, fed, q, steps);
            && (Present(r, h, id) <==> !TakenOut(s, fed, q, steps, h, id))
            && (Present(r, h, id) ==> r.flows[h].flow.control == f.control)
  {
    hide Base, Lives, Calm, FeedPart, InBetween, KeyOf, TakenOut;
    var h, fed := KeyOf(m.lines[q][0]), FeedPart(s, m, q);
    FeedIsHeld(s, m, q);
    StaysHeld(s, fed, q, steps, h, fed.flows[h].id, fed.flows[h].flow.control);
  }

  /** The final call leaves the flow alone, and a packet under its key is no later than the timeouts allow
      after the flow's last data packet; for TCP, the timeout is not 0. */
  predicate Punctual(t: Timeouts, c: Control, h: Key, a: Action) {
    match a
    case Add(p) =>
      KeyOf(p) == h ==>
        if p.IsUdp() then p.seconds - c.lastSeconds <= t.udp else t.tcp > 0 && p.seconds - c.lastSeconds <= t.tcpCloseWait
    case Settle(k) => k != h
    case _ => true
  }

  ghost predicate AllPunctual(t: Timeouts, c: Control, h: Key, steps: seq<Action>) {
    forall i :: 0 <= i < |steps| ==> Punctual(t, c, h, steps[i])
  }

  lemma PunctualStepsTakeNothingOut(s: Setup, m: Manager, q: nat, steps: seq<Action>, h: Key, id: nat, c: Control)
    requires Held(s, m, h, id, q, c) && q < s.workers && AllPunctual(s.timeouts, c, h, steps)
    ensures Base(s, m, []) && !TakenOut(s, m, q, steps, h, id)
  {
    hide Base, InBetween, Held, Punctual, StepTakesOut;
    HeldIsBase(s, m, h, id, q, c);
    forall i | 0 <= i < |steps| ensures !StepTakesOut(s, InBetween(s, m, q, steps[..i]), q, steps[i], h, id) {
      StaysHeld(s, m, q, steps[..i], h, id, c);
      PunctualStepTakesNothingOut(s, InBetween(s, m, q, steps[..i]), q, steps[i], h, id, c);
    }
  }

  lemma PunctualStepTakesNothingOut(s: Setup, m: Manager, q: nat, a: Action, h: Key, id: nat, c: Control)
    requires Held(s, m, h, id, q, c) && Punctual(s.timeouts, c, h, a)
    ensures !StepTakesOut(s, m, q, a, h, id)
  {
    hide Base, Lives, Calm, KeyOf, Enabled;
  }

  /** So the two agree as long as the packets that come in between are punctual. */
  lemma PunctualPacketsDoNoHarm(s: Setup, m: Manager, q: nat, steps: seq<Action>, more: seq<Action>)
    requires Inv(s, m, []) && Lives(s, m) && q < s.workers == |m.lines| && m.lines[q] != []
    requires var h, fed := KeyOf(m.lines[q][0]), FeedPart(s, m, q);
             AllPunctual(s.timeouts, fed.flows[h].flow.control, h, steps + more)
    ensures var r := ServeSlowly(s, m, q, steps, more);
            Inv(s, r, []) && Lives(s, r)
  {
    hide Base, Lives, Calm, Held, FeedPart, ReportPart, InBetween, ServeSlowly, KeyOf, Unload, TakenOut, Punctual;
    var h, fed := KeyOf(m.lines[q][0]), FeedPart(s, m, q);
    var id, f := fed.flows[h].id, fed.flows[h].flow;
    var c := f.control.(state := FinishedNotified);
    assert AllPunctual(s.timeouts, f.control, h, steps) by {
      assert forall i :: 0 <= i < |steps| ==> steps[i] == (steps + more)[i];
    }
    assert AllPunctual(s.timeouts, c, h, more) by {
      forall i | 0 <= i < |more| ensures Punctual(s.timeouts, c, h, more[i]) {
        assert more[i] == (steps + more)[|steps| + i];
        StateIsNoMatter(s.timeouts, f.control, h, more[i]);
      }
    }
    FeedIsHeld(s, m, q);
    StaysHeld(s, fed, q, steps, h, id, f.control);
    PunctualStepsTakeNothingOut(s, fed, q, steps, h, id, f.control);
    var found := InBetween(s, fed, q, steps);
    if FoundOver(found, h, id) {
      ReportIsHeld(s, found, h, id, q, f.control);
      StaysHeld(s, ReportPart(s, found, h, id), q, more, h, id, c);
      PunctualStepsTakeNothingOut(s, ReportPart(s, found, h, id), q, more, h, id, c);
    }
    ServingSlowlyAgreesIff(s, m, q, steps, more);
  }

  lemma StateIsNoMatter(t: Timeouts, c: Control, h: Key, a: Action)
    requires Punctual(t, c, h, a)
    ensures Punctual(t, c.(state := FinishedNotified), h, a)
  {
    hide KeyOf;
  }
}
