/**
  When the final call returns (src/common/src/FlowManager.cpp, finished and
  processPackets).  Its first loop waits for empty queues, its second loop waits,
  with the table's lock held, for flows without packets; workers stop popping once
  they have seen a shutdown, and need that lock for every lookup.
*/
module PipelineEnding {
  import opened Packets
  import opened FlowKey
  import opened FlowControl
  import opened FlowModel
  import opened Pipeline
  import opened PipelineInvariant
  import opened PipelineHistory
  import opened PipelineRuns

  /** A worker that holds a packet has it at the head of its line; while the final call holds the lock,
      the queues stay as empty as it found them. */
  ghost predicate Staged(s: Setup, m: Manager) {
    && |m.stages| == |m.lines| == s.workers
    && (forall q: nat :: Holding(m, q) ==> m.lines[q] != [])
    && (m.closing ==> forall q :: 0 <= q < |m.lines| ==> Queue(m, q) == [])
  }

  /** The reader's call adds its packet to one line at most, and after a shutdown to none. */
  lemma AddedLines(s: Setup, m: Manager, p: Packet)
    requires Inv(s, m, [])
    ensures WellFormed(s, m)
    ensures var r := AddPacket(s, m, p);
            && Grown(m, r)
            && (m.shutdown ==> r.flows == m.flows && r.history.processed == m.history.processed)
  {
    hide WellFormed, Placed, Routed, UniqueIds, ProcessPacket, GetFlow, Calm, KeyOf;
    InvIsWellFormed(s, m, []);
    AddPacketTraffic(s, m, p);
  }

  /** Some packets came, or none. */
  ghost predicate Grown(m: Manager, r: Manager) {
    && SameFlags(m, r) && |r.lines| == |m.lines| && (m.shutdown ==> r.lines == m.lines)
    && forall q :: 0 <= q < |m.lines| ==> m.lines[q] <= r.lines[q]
  }

  /** What another worker has in its queue does not change when one moves. */
  lemma QueuesElsewhere(m: Manager, r: Manager, q: nat)
    requires |r.lines| == |m.lines| && |r.stages| == |m.stages|
    requires forall k: nat :: k < |m.stages| && k != q ==> r.stages[k] == m.stages[k]
    requires forall k: nat :: k < |m.lines| && k != q ==> r.lines[k] == m.lines[k]
    ensures forall k: nat :: k != q ==> (Holding(r, k) <==> Holding(m, k))
    ensures forall k: nat :: k < |m.lines| && k != q ==> Queue(r, k) == Queue(m, k)
  {
  }

  lemma GrownStaysStaged(s: Setup, m: Manager, r: Manager)
    requires Grown(m, r) && Staged(s, m) && (!m.closing || m.shutdown)
    ensures Staged(s, r)
  {
    forall q: nat | Holding(r, q) ensures r.lines[q] != [] {
      assert Holding(m, q);
      assert m.lines[q] != [] && m.lines[q] <= r.lines[q];
    }
    if m.closing {
      QueuesElsewhere(m, r, |m.lines|);
    }
  }

  lemma NextKeepsStaged(s: Setup, m: Manager, a: Action)
    requires Inv(s, m, []) && Enabled(s, m, a) && Staged(s, m)
    ensures WellFormed(s, m) && Staged(s, Next(s, m, a))
  {
    hide WellFormed, Placed, Routed, UniqueIds, AddPacket, ProcessPacket, GetFlow, Finish, Calm, KeyOf;
    InvIsWellFormed(s, m, []);
    match a
    case Add(p) =>
      AddedLines(s, m, p);
      GrownStaysStaged(s, m, AddPacket(s, m, p));
    case Serve(q) =>
      UnloadKeepsInv(s, m, q);
      ProcessTraffic(s, Unload(m, q), m.lines[q][0], Worker(q));
    case Settle(h) =>
      FinishTraffic(s, m, h);
      QueuesElsewhere(m, Finish(s, m, h), |m.lines|);
    case Look(q) =>
      QueuesElsewhere(m, GetReady(m, q), q);
      assert Queue(GetReady(m, q), q) == Queue(m, q);
    case Fetch(q) =>
      QueuesElsewhere(m, Pop(m, q), q);
      assert Queue(m, q) == m.lines[q];
    case _ => QueuesElsewhere(m, Next(s, m, a), |m.lines|);
  }

  lemma {:induction false} EveryRunIsStaged(s: Setup, run: seq<Action>)
    requires s.env.Valid()
    ensures Staged(s, After(s, run))
  {
    hide Inv, Next, Enabled, Staged;
    if run == [] {
      StartIsStaged(s);
    } else {
      var m, a := After(s, run[..|run| - 1]), run[|run| - 1];
      EveryRunIsStaged(s, run[..|run| - 1]);
      if Enabled(s, m, a) {
        NextKeepsStaged(s, m, a);
      }
    }
  }

  lemma StartIsStaged(s: Setup)
    ensures Staged(s, Start(s))
  {
  }

  /** A queue will be empty: it is, or its worker goes on, or what is in it is the one packet that its
      worker has set out to pop. */
  predicate WillDrain(m: Manager, q: nat)
    requires q < |m.lines|
  {
    Queue(m, q) == [] || !m.shutdown || (|Queue(m, q)| == 1 && q < |m.stages| && m.stages[q] == Ready)
  }

  /** The final call can return, if it is made: before it has taken the lock, every queue will be empty;
      afterwards no packet is in any worker's hands. */
  ghost predicate CanReturn(m: Manager) {
    if m.closing then Quiet(m) else forall q :: 0 <= q < |m.lines| ==> WillDrain(m, q)
  }

  /** The final call returns after `rest` more steps. */
  ghost predicate Returns(s: Setup, run: seq<Action>, rest: seq<Action>)
    requires s.env.Valid()
  {
    Enabled(s, After(s, run + rest), Return)
  }

  // ---------- a way out ----------

  lemma NoStepMore(s: Setup, run: seq<Action>, a: Action)
    requires s.env.Valid() && !Enabled(s, After(s, run), a)
    ensures After(s, run + [a]) == After(s, run)
  {
    hide Inv, Next, Enabled;
    assert (run + [a])[..|run|] == run;
  }

  /** Serving a worker's packet leaves one packet fewer, and its queue as it was. */
  lemma ServingShortensLines(s: Setup, m: Manager, q: nat)
    requires Inv(s, m, []) && Enabled(s, m, Serve(q))
    ensures WellFormed(s, m)
    ensures var r := Next(s, m, Serve(q));
            && r.lines == m.lines[q := m.lines[q][1..]] && r.stages == m.stages[q := Idle]
            && r.shutdown == m.shutdown && r.closing == m.closing && TotalLength(r.lines) == TotalLength(m.lines) - 1
  {
    hide Base, Calm, ProcessPacket, AllQueued, TotalLength;
    InvIsWellFormed(s, m, []);
    UnloadKeepsInv(s, m, q);
    ProcessTraffic(s, Unload(m, q), m.lines[q][0], Worker(q));
    PopRemoves(m.lines, q);
    QueueLengths(m.lines);
    QueueLengths(Unload(m, q).lines);
  }

  /** The other queues will still drain; the mover's own is left to be shown. */
  lemma DrainsElsewhere(m: Manager, r: Manager, q: nat)
    requires !m.closing && CanReturn(m) && r.shutdown == m.shutdown
    requires q < |m.lines| == |r.lines| == |m.stages| == |r.stages| && WillDrain(r, q)
    requires forall k: nat :: k < |m.stages| && k != q ==> r.stages[k] == m.stages[k]
    requires forall k: nat :: k < |m.lines| && k != q ==> r.lines[k] == m.lines[k]
    ensures forall k :: 0 <= k < |r.lines| ==> WillDrain(r, k)
  {
    QueuesElsewhere(m, r, q);
    forall k | 0 <= k < |r.lines| ensures WillDrain(r, k) {
      if k != q {
        assert WillDrain(m, k) && Queue(r, k) == Queue(m, k);
      }
    }
  }

  /** A worker that goes on keeps the way out open. */
  lemma MovingOn(s: Setup, m: Manager, q: nat)
    requires Inv(s, m, []) && Staged(s, m) && q < |m.lines| && m.lines[q] != [] && !m.closing && CanReturn(m)
    ensures WellFormed(s, m)
    ensures var a := match m.stages[q] case Idle => Look(q) case Ready => Fetch(q) case Busy => Serve(q);
            && Enabled(s, m, a) && !Next(s, m, a).closing && CanReturn(Next(s, m, a))
            && (!a.Serve? ==> Next(s, m, a).lines == m.lines && Next(s, m, a).stages == m.stages[q := if a.Look? then Ready else Busy])
  {
    hide Inv, Work, AddPacket, Finish;
    InvIsWellFormed(s, m, []);
    assert WillDrain(m, q);
    match m.stages[q]
    case Idle =>
      QueuesElsewhere(m, GetReady(m, q), q);
      DrainsElsewhere(m, GetReady(m, q), q);
    case Ready =>
      QueuesElsewhere(m, Pop(m, q), q);
      DrainsElsewhere(m, Pop(m, q), q);
    case Busy =>
      ServingShortensLines(s, m, q);
      DrainsElsewhere(m, Next(s, m, Serve(q)), q);
  }

  /** A worker with packets in its line that will drain gets one of them served. */
  lemma {:induction false} OnePacketServed(s: Setup, run: seq<Action>, q: nat) returns (rest: seq<Action>)
    requires s.env.Valid() && q < |After(s, run).lines| && After(s, run).lines[q] != []
    requires !After(s, run).closing && CanReturn(After(s, run))
    ensures var m, r := After(s, run), After(s, run + rest);
            !r.closing && CanReturn(r) && TotalLength(r.lines) == TotalLength(m.lines) - 1
    decreases var m := After(s, run); if q < |m.stages| then (match m.stages[q] case Idle => 2 case Ready => 1 case Busy => 0) else 3
  {
    hide Inv, After, TotalLength, Next, Enabled, CanReturn;
    var m := After(s, run);
    EveryRunIsStaged(s, run);
    MovingOn(s, m, q);
    match m.stages[q]
    case Busy =>
      rest := [Serve(q)];
      ServingShortensLines(s, m, q);
      OneStepMore(s, run, Serve(q));
    case Ready =>
      OneStepMore(s, run, Fetch(q));
      rest := OnePacketServed(s, run + [Fetch(q)], q);
      assert run + [Fetch(q)] + rest == run + ([Fetch(q)] + rest);
      rest := [Fetch(q)] + rest;
    case Idle =>
      OneStepMore(s, run, Look(q));
      rest := OnePacketServed(s, run + [Look(q)], q);
      assert run + [Look(q)] + rest == run + ([Look(q)] + rest);
      rest := [Look(q)] + rest;
  }

  lemma {:induction false} AllCanBeSettled(s: Setup, run: seq<Action>) returns (rest: seq<Action>)
    requires s.env.Valid() && After(s, run).closing && Quiet(After(s, run))
    ensures Returns(s, run, rest)
    decreases After(s, run).flows.Keys
  {
    hide After, Base, Calm, Finish;
    var m := After(s, run);
    if m.flows == map[] {
      rest := [];
      assert run + [] == run;
    } else {
      var h :| h in m.flows;
      QuietFlowsCountNothing(s, m, h);
      OneStepMore(s, run, Settle(h));
      FinishEffect(s, m, h);
      rest := AllCanBeSettled(s, run + [Settle(h)]);
      assert run + [Settle(h)] + rest == run + ([Settle(h)] + rest);
      rest := [Settle(h)] + rest;
    }
  }

  lemma {:induction false} WayOut(s: Setup, run: seq<Action>) returns (rest: seq<Action>)
    requires s.env.Valid() && CanReturn(After(s, run))
    ensures Returns(s, run, rest)
    decreases TotalLength(After(s, run).lines)
  {
    hide Inv, After, TotalLength, Work, AddPacket, Finish, Returns;
    var m := After(s, run);
    if Quiet(m) {
      if m.closing {
        rest := AllCanBeSettled(s, run);
      } else {
        OneStepMore(s, run, Close);
        rest := AllCanBeSettled(s, run + [Close]);
        ReturnsLater(s, run, [Close], rest);
        rest := [Close] + rest;
      }
    } else {
      var q :| 0 <= q < |m.lines| && m.lines[q] != [];
      var first := OnePacketServed(s, run, q);
      rest := WayOut(s, run + first);
      ReturnsLater(s, run, first, rest);
      rest := first + rest;
    }
  }

  lemma ReturnsLater(s: Setup, run: seq<Action>, first: seq<Action>, rest: seq<Action>)
    requires s.env.Valid() && Returns(s, run + first, rest)
    ensures Returns(s, run, first + rest)
  {
    hide After, Enabled;
    assert run + first + rest == run + (first + rest);
  }

  // ---------- no way out ----------

  /** A queue that will not drain stays one, whatever its worker does. */
  lemma NeverDrains(m: Manager, r: Manager, q: nat)
    requires q < |m.lines| == |r.lines| == |m.stages| == |r.stages| && !WillDrain(m, q) && r.shutdown
    requires || (r.lines[q] == m.lines[q] && (r.stages[q] == m.stages[q] || (m.stages[q] == Ready && r.stages[q] == Busy)))
             || (Holding(m, q) && r.lines[q] == m.lines[q][1..] && r.stages[q] == Idle)
    ensures !WillDrain(r, q)
  {
  }

  lemma StuckStaysStuck(s: Setup, m: Manager, a: Action)
    requires Inv(s, m, []) && Enabled(s, m, a) && Staged(s, m) && !CanReturn(m)
    ensures WellFormed(s, m) && !CanReturn(Next(s, m, a))
  {
    hide WellFormed, Placed, Routed, UniqueIds, AddPacket, Work, GetFlow, Finish, Calm, KeyOf, TotalLength, Queue, WillDrain;
    InvIsWellFormed(s, m, []);
    if a.Add? {
      AddedLines(s, m, a.packet);
    } else if a.Serve? {
      ServingShortensLines(s, m, a.queue);
    } else if a.Settle? {
      FinishTraffic(s, m, a.key);
    }
    if m.closing {
      StuckCannotReturn(s, m);
      var q :| 0 <= q < |m.lines| && m.lines[q] != [];
      assert Next(s, m, a).lines[q] != [];
    } else {
      var q: nat :| q < |m.lines| && !WillDrain(m, q);
      SomethingStays(m, q);
      NeverDrains(m, Next(s, m, a), q);
    }
  }

  /** A packet that is in somebody's hands has its flow in the table. */
  lemma StuckCannotReturn(s: Setup, m: Manager)
    requires Inv(s, m, []) && !CanReturn(m)
    ensures !Enabled(s, m, Return)
  {
    hide WellFormed, Placed, UniqueIds, Calm, KeyOf;
    if m.closing {
      var q :| 0 <= q < |m.lines| && m.lines[q] != [];
      assert KeyOf(m.lines[q][0]) in m.flows;
    }
  }

  lemma SomethingStays(m: Manager, q: nat)
    requires q < |m.lines| && !WillDrain(m, q)
    ensures m.shutdown && Queue(m, q) != [] && m.lines[q] != []
  {
  }

  lemma {:induction false} StuckForGood(s: Setup, run: seq<Action>, rest: seq<Action>)
    requires s.env.Valid() && !CanReturn(After(s, run))
    ensures !CanReturn(After(s, run + rest))
    decreases |rest|
  {
    hide Inv, After, CanReturn, Enabled, Next, Staged;
    if rest == [] {
      assert run + rest == run;
    } else {
      var so, a := run + rest[..|rest| - 1], rest[|rest| - 1];
      StuckForGood(s, run, rest[..|rest| - 1]);
      assert so + [a] == run + rest;
      EveryRunIsStaged(s, so);
      if Enabled(s, After(s, so), a) {
        OneStepMore(s, so, a);
        StuckStaysStuck(s, After(s, so), a);
      } else {
        NoStepMore(s, so, a);
      }
    }
  }

  lemma QuietOnceClosed(s: Setup, m: Manager)
    requires Staged(s, m) && m.closing
    ensures CanReturn(m) <==> forall q: nat :: !Holding(m, q)
  {
    forall q: nat | q < |m.lines| && m.lines[q] != [] ensures Holding(m, q) {
      assert Queue(m, q) == [];
    }
  }

  /** From wherever a run has got to, the final call can return, whatever the threads do in between, if
      and only if: before it has taken the lock, there was no shutdown, or every queue is empty but for
      a packet that its worker is about to pop; once it has the lock, no worker holds a packet. */
  lemma FinalCallCanReturnIff(s: Setup, run: seq<Action>)
    requires s.env.Valid()
    ensures (exists rest :: Returns(s, run, rest)) <==> CanReturn(After(s, run))
    ensures After(s, run).closing ==> (CanReturn(After(s, run)) <==> forall q: nat :: !Holding(After(s, run), q))
  {
    hide After, Inv, Next, TotalLength, Returns, CanReturn, Enabled;
    EveryRunIsStaged(s, run);
    if After(s, run).closing {
      QuietOnceClosed(s, After(s, run));
    }
    if CanReturn(After(s, run)) {
      var rest := WayOut(s, run);
    } else {
      forall rest ensures !Returns(s, run, rest) {
        StuckForGood(s, run, rest);
        DoesNotReturn(s, run, rest);
      }
    }
  }

  lemma DoesNotReturn(s: Setup, run: seq<Action>, rest: seq<Action>)
    requires s.env.Valid() && !CanReturn(After(s, run + rest))
    ensures !Returns(s, run, rest)
  {
    hide After, Inv, CanReturn, Enabled;
    StuckCannotReturn(s, After(s, run + rest));
  }

  /** With the lock held by the final call and a packet by a worker, nothing is processed any more: the call
      waits for the packet's flow, which stays in the table, and the worker for the lock. */
  lemma {:induction false} HeldPacketDeadlocks(s: Setup, run: seq<Action>, rest: seq<Action>, q: nat)
    requires s.env.Valid() && After(s, run).closing && Holding(After(s, run), q)
    ensures var m, r := After(s, run), After(s, run + rest);
            && r.closing && Holding(r, q) && r.lines == m.lines && r.history.processed == m.history.processed
            && q < |m.lines| && m.lines[q] != [] && KeyOf(m.lines[q][0]) in r.flows && HasPackets(r.flows[KeyOf(m.lines[q][0])].flow)
    decreases |rest|
  {
    hide Inv, After, Enabled, Next, Staged, HasPackets, KeyOf, Holding;
    if rest == [] {
      assert run + rest == run;
    } else {
      var so, a := run + rest[..|rest| - 1], rest[|rest| - 1];
      HeldPacketDeadlocks(s, run, rest[..|rest| - 1], q);
      assert so + [a] == run + rest;
      EveryRunIsStaged(s, so);
      if Enabled(s, After(s, so), a) {
        OneStepMore(s, so, a);
        NobodyMoves(s, After(s, so), a, q);
      } else {
        NoStepMore(s, so, a);
      }
    }
    EveryRunIsStaged(s, run + rest);
    HeldPacketIsCounted(s, After(s, run + rest), q);
  }

  lemma HeldPacketIsCounted(s: Setup, m: Manager, q: nat)
    requires Inv(s, m, []) && Staged(s, m) && Holding(m, q)
    ensures q < |m.lines| && m.lines[q] != [] && KeyOf(m.lines[q][0]) in m.flows && HasPackets(m.flows[KeyOf(m.lines[q][0])].flow)
  {
    hide TupleKey, WellFormed, UniqueIds;
    var h := KeyOf(m.lines[q][0]);
    assert Placed(s, m, [], h);
    SomethingOfKey(m.lines[q], 0);
    NothingOfKeyAtAll();
  }

  lemma NobodyMoves(s: Setup, m: Manager, a: Action, q: nat)
    requires Inv(s, m, []) && Enabled(s, m, a) && Staged(s, m) && m.closing && Holding(m, q)
    ensures WellFormed(s, m)
    ensures var r := Next(s, m, a);
            r.closing && Holding(r, q) && r.lines == m.lines && r.history.processed == m.history.processed
  {
    hide WellFormed, Placed, UniqueIds, Work, GetFlow, Finish, Calm, KeyOf, ProcessPacket;
    InvIsWellFormed(s, m, []);
    assert m.lines[q] != [] && KeyOf(m.lines[q][0]) in m.flows;
    if a.Add? {
      AddedLines(s, m, a.packet);
    } else if a.Settle? {
      FinishTraffic(s, m, a.key);
    }
  }
}
