/**
  Runs: the reader's calls, the workers' steps, a shutdown and the final call, in
  any interleaving.  The theorems here are about every state any run can reach.
*/
module PipelineRuns {
  import opened Packets
  import opened FlowKey
  import opened FlowControl
  import opened Classifier
  import opened Meters
  import opened FlowModel
  import opened FlowLaws
  import opened Pipeline
  import opened PipelineInvariant
  import opened PipelineHistory
  import opened PipelineLives
  import opened PipelineFlows

  datatype Action =
    | Add(packet: Packet)         // the reader submits a packet
    | Look(queue: nat)            // a worker tests the shutdown flag
    | Fetch(queue: nat)           // it looks for a packet in its queue
    | Serve(queue: nat)           // it processes the packet it holds
    | ShutDown
    | Close                       // the final call has seen every queue empty, and takes the table's lock
    | Settle(key: Key)            // it finishes a flow, whose packets it has waited for
    | Return                      // no flow is left

  /** Between `Close` and `Return` the final call holds the lock that every lookup needs. */
  ghost predicate Enabled(s: Setup, m: Manager, a: Action) {
    match a
    case Add(_) => !m.closing || m.shutdown
    case Look(q) => q < s.workers == |m.stages| && m.stages[q] == Idle && !m.shutdown
    case Fetch(q) => q < s.workers == |m.lines| == |m.stages| && m.stages[q] == Ready
    case Serve(q) => q < s.workers == |m.lines| && Holding(m, q) && m.lines[q] != [] && !m.closing
    case ShutDown => true
    case Close => !m.closing && forall q :: 0 <= q < |m.lines| ==> Queue(m, q) == []
    case Settle(h) => m.closing && h in m.flows && !HasPackets(m.flows[h].flow)
    case Return => m.closing && m.flows == map[]
  }

  ghost function Next(s: Setup, m: Manager, a: Action): Manager
    requires WellFormed(s, m) && Enabled(s, m, a)
  {
    match a
    case Add(p) => AddPacket(s, m, p)
    case Look(q) => GetReady(m, q)
    case Fetch(q) => Pop(m, q)
    case Serve(q) => Work(s, m, q)
    case ShutDown => m.(shutdown := true)
    case Close => m.(closing := true)
    case Settle(h) => Finish(s, m, h)
    case Return => m.(closing := false)
  }

  /** All but the flags and the workers' places is the same. */
  ghost predicate SameBut(m: Manager, r: Manager) {
    r == m.(stages := r.stages, shutdown := r.shutdown, closing := r.closing)
  }

  /** The manager after a run.  An action that is not enabled waits for good: it does nothing. */
  ghost function After(s: Setup, run: seq<Action>): (m: Manager)
    requires s.env.Valid()
    ensures Inv(s, m, [])
  {
    hide WellFormed, Placed, Routed, UniqueIds, Enabled, Next;
    if run == [] then
      StartKeepsInv(s);
      Start(s)
    else
      var m, a := After(s, run[..|run| - 1]), run[|run| - 1];
      if Enabled(s, m, a) then
        NextKeepsInv(s, m, a);
        Next(s, m, a)
      else m
  }

  lemma NextKeepsInv(s: Setup, m: Manager, a: Action)
    requires Inv(s, m, []) && Enabled(s, m, a)
    ensures Inv(s, Next(s, m, a), [])
  {
    hide Base, AddPacket, Work, Finish, Calm;
    InvIsWellFormed(s, m, []);
    match a
    case Add(p) => AddPacketKeepsInv(s, m, p);
    case Serve(q) => WorkKeepsInv(s, m, q);
    case Settle(h) => FinishKeepsInv(s, m, h);
    case _ => SameTableInv(s, m, Next(s, m, a));
  }

  lemma OneStepMore(s: Setup, run: seq<Action>, a: Action)
    requires s.env.Valid() && Enabled(s, After(s, run), a)
    ensures WellFormed(s, After(s, run)) && After(s, run + [a]) == Next(s, After(s, run), a)
  {
    hide Inv, Next, Enabled;
    assert (run + [a])[..|run|] == run;
    InvIsWellFormed(s, After(s, run), []);
  }

  ghost predicate Reachable(s: Setup, m: Manager)
    requires s.env.Valid()
  {
    exists run :: After(s, run) == m
  }

  /** What is true of every run is true of a manager that takes one enabled step after another. */
  lemma StepsStayReachable(s: Setup, m: Manager, a: Action)
    requires s.env.Valid() && Reachable(s, m) && Enabled(s, m, a)
    ensures WellFormed(s, m) && Reachable(s, Next(s, m, a))
  {
    hide Inv, Next, Enabled, WellFormed;
    var run :| After(s, run) == m;
    InvIsWellFormed(s, m, []);
    assert (run + [a])[..|run|] == run;
    assert After(s, run + [a]) == Next(s, m, a);
  }

  /** So is a manager whose final call has finished flows without packets, in any order. */
  lemma {:induction false} FinishingStaysReachable(s: Setup, m: Manager, order: seq<Key>)
    requires s.env.Valid() && Reachable(s, m) && m.closing
    requires forall i :: 0 <= i < |order| ==> order[i] in m.flows && !HasPackets(m.flows[order[i]].flow)
    requires forall i, j :: 0 <= i < j < |order| ==> order[i] != order[j]
    ensures Reachable(s, FinishAll(s, m, order))
    decreases |order|
  {
    hide Reachable, Finish, HasPackets;
    if order != [] {
      StepsStayReachable(s, m, Settle(order[0]));
      FinishEffect(s, m, order[0]);
      FinishingStaysReachable(s, Finish(s, m, order[0]), order[1..]);
    }
  }

  // ---------- the books are kept over every run ----------

  lemma NextBalances(s: Setup, m: Manager, a: Action)
    requires Inv(s, m, []) && Enabled(s, m, a) && Balanced(m, [])
    ensures Balanced(Next(s, m, a), [])
  {
    hide Base, AddPacket, Work, Finish, Calm, AllQueued;
    match a
    case Add(p) => AddPacketBalances(s, m, p);
    case Serve(q) => WorkBalances(s, m, q);
    case Settle(h) => FinishTraffic(s, m, h);
    case _ =>
  }

  lemma NextKeepsOrder(s: Setup, m: Manager, a: Action, h: Key)
    requires Inv(s, m, []) && Enabled(s, m, a) && Sequenced(m, [], h)
    ensures Sequenced(Next(s, m, a), [], h)
  {
    hide Base, AddPacket, Work, Finish, Calm, DeliveriesOf, OfKey;
    InvIsWellFormed(s, m, []);
    match a
    case Add(p) => AddPacketKeepsOrder(s, m, p, h);
    case Serve(q) => WorkKeepsOrder(s, m, q, h);
    case Settle(k) => FinishKeepsOrder(s, m, k, h);
    case _ => SameOrder(m, Next(s, m, a), h);
  }

  lemma SameOrder(m: Manager, r: Manager, h: Key)
    requires SameBut(m, r) && Sequenced(m, [], h)
    ensures Sequenced(r, [], h)
  {
    hide DeliveriesOf, OfKey;
    assert Waiting(r, h) == Waiting(m, h);
  }

  lemma SameTold(s: Setup, m: Manager, r: Manager)
    requires SameBut(m, r) && Lives(s, m) && Told(s, m)
    ensures Lives(s, r) && Told(s, r)
  {
    hide Lives, Told;
    SameLivesAreLived(s, m, r);
    NoNewTaleIsTold(s, m, r);
  }

  lemma NextKeepsLives(s: Setup, m: Manager, a: Action)
    requires Inv(s, m, []) && Enabled(s, m, a) && Lives(s, m) && Told(s, m)
    ensures Lives(s, Next(s, m, a)) && Told(s, Next(s, m, a))
  {
    hide WellFormed, Routed, UniqueIds, Placed, AddPacket, Work, Finish, Calm, Lives, Told, Numbered;
    match a
    case Add(p) =>
      AddPacketKeepsLives(s, m, p);
      AddPacketKeepsTale(s, m, p);
    case Serve(q) =>
      WorkKeepsLives(s, m, q);
      WorkKeepsTale(s, m, q);
    case Settle(h) =>
      BaseIsNumbered(s, m, []);
      FinishKeepsLives(s, m, h);
      FinishKeepsTale(s, m, h);
    case _ => SameTold(s, m, Next(s, m, a));
  }

  lemma {:induction false} EveryRunIsBalanced(s: Setup, run: seq<Action>)
    requires s.env.Valid()
    ensures Balanced(After(s, run), [])
  {
    hide Inv, Next, Enabled, Balanced;
    if run == [] {
      NothingBalances(s);
    } else {
      var m, a := After(s, run[..|run| - 1]), run[|run| - 1];
      EveryRunIsBalanced(s, run[..|run| - 1]);
      if Enabled(s, m, a) {
        InvIsWellFormed(s, m, []);
        NextBalances(s, m, a);
      }
    }
  }

  lemma NothingBalances(s: Setup)
    ensures Balanced(Start(s), [])
  {
    NothingIn(Start(s).lines);
  }

  lemma {:induction false} EveryRunIsInOrder(s: Setup, run: seq<Action>, h: Key)
    requires s.env.Valid()
    ensures Sequenced(After(s, run), [], h)
  {
    hide Inv, Next, Enabled, Sequenced;
    if run == [] {
      NothingIsInOrder(s, h);
    } else {
      var m, a := After(s, run[..|run| - 1]), run[|run| - 1];
      EveryRunIsInOrder(s, run[..|run| - 1], h);
      if Enabled(s, m, a) {
        InvIsWellFormed(s, m, []);
        NextKeepsOrder(s, m, a, h);
      }
    }
  }

  lemma NothingIsInOrder(s: Setup, h: Key)
    ensures Sequenced(Start(s), [], h)
  {
    TagNothing(0);
  }

  lemma {:induction false} EveryRunIsTold(s: Setup, run: seq<Action>)
    requires s.env.Valid()
    ensures Lives(s, After(s, run)) && Told(s, After(s, run))
  {
    hide Inv, Next, Enabled, Lives, Told;
    if run == [] {
      StartIsLived(s);
      StartIsTold(s);
    } else {
      var m, a := After(s, run[..|run| - 1]), run[|run| - 1];
      EveryRunIsTold(s, run[..|run| - 1]);
      if Enabled(s, m, a) {
        InvIsWellFormed(s, m, []);
        NextKeepsLives(s, m, a);
      }
    }
  }

  // ---------- what that means ----------

  /** The table and the workers' lines agree: an entry sits under its own flow's hash; its packet count is the
      number of packets with that hash that are queued or in a worker's hands; all of them are in the line of
      the worker the flow is pinned to. */
  lemma TableMatchesQueues(s: Setup, run: seq<Action>)
    requires s.env.Valid()
    ensures var m := After(s, run);
            && (forall h :: h in m.flows ==>
                              var f := m.flows[h].flow;
                              && h == Key(FlowHash(f.control.tuple))
                              && f.pktsInQueue == if 0 <= f.queueId < |m.lines| then |OfKey(m.lines[f.queueId], h)| else 0)
            && (forall q, i :: 0 <= q < |m.lines| && 0 <= i < |m.lines[q]| ==>
                                 KeyOf(m.lines[q][i]) in m.flows && m.flows[KeyOf(m.lines[q][i])].flow.queueId == q)
  {
    hide FlowHash, WellFormed, UniqueIds, OfKey, KeyOf;
    var m := After(s, run);
    NothingOfKeyAtAll();
    forall h | h in m.flows ensures h == Key(FlowHash(m.flows[h].flow.control.tuple)) && m.flows[h].flow.pktsInQueue == |Waiting(m, h)| {
      assert Placed(s, m, [], h);
    }
  }

  /** The first delivery under `h` that was taken and not processed yet is `d`. */
  predicate NextInLine(t: History, h: Key, d: Delivery) {
    var taken, processed := DeliveriesOf(t.taken, h), DeliveriesOf(t.processed, h);
    |processed| < |taken| && taken[|processed|] == d
  }

  /** The worker that looks up the flow of a packet it has popped gets the flow that counted the packet when
      it was queued: the lookup creates and replaces nothing, and the flow's number is the one under
      which the packet was taken. */
  lemma WorkersFindTheCountedFlow(s: Setup, run: seq<Action>, q: nat)
    requires s.env.Valid() && q < s.workers && Enabled(s, After(s, run), Serve(q))
    ensures var m := After(s, run);
            var p, popped := m.lines[q][0], Unload(m, q);
            && WellFormed(s, popped) && GetFlow(s, popped, p, Worker(q)) == popped
            && KeyOf(p) in m.flows && m.flows[KeyOf(p)].flow.queueId == q
            && NextInLine(m.history, KeyOf(p), Delivery(p, m.flows[KeyOf(p)].id))
  {
    hide TupleKey, After, UniqueIds, Placed, GetFlow, Calm, NextInLine, WellFormed;
    var m := After(s, run);
    var p := m.lines[q][0];
    UnloadKeepsRouted(m, q);
    UnloadKeepsInv(s, m, q);
    WorkerFindsCountedFlow(s, Unload(m, q), p, Worker(q));
    EveryRunIsInOrder(s, run, KeyOf(p));
    FirstWaitingIsNext(m, q);
  }

  lemma FirstWaitingIsNext(m: Manager, q: nat)
    requires q < |m.lines| && m.lines[q] != []
    requires var h := KeyOf(m.lines[q][0]); h in m.flows && m.flows[h].flow.queueId == q && Sequenced(m, [], h)
    ensures var p := m.lines[q][0]; NextInLine(m.history, KeyOf(p), Delivery(p, m.flows[KeyOf(p)].id))
  {
    hide TupleKey, DeliveriesOf;
    var p := m.lines[q][0];
    NothingOfKeyAtAll();
    assert OfKey(m.lines[q], KeyOf(p)) == [p] + OfKey(m.lines[q][1..], KeyOf(p));
  }

  /** At the end of every step no flow in the table is in FINISHED or FINISHING, and one in
      FINISHED_NOTIFIED is only there because packets of it are still queued or in its worker's hands. */
  lemma NoFinishedFlowLingers(s: Setup, run: seq<Action>, h: Key)
    requires s.env.Valid() && h in After(s, run).flows
    ensures var m := After(s, run);
            var f := m.flows[h].flow;
            && f.control.state !in {Finishing, Finished}
            && (f.control.state == FinishedNotified ==> s.workers > 0 && OfKey(m.lines[f.queueId], h) != [])
  {
    hide TupleKey, WellFormed, UniqueIds, Routed, OfKey;
    assert Placed(s, After(s, run), [], h);
    WellFormedFlows(s, After(s, run), h);
    NothingOfKeyAtAll();
  }

  /** A TCP flow is replaced by a lookup exactly when the TCP timeout is 0, nothing of it is queued,
      and the clock has moved: for no timeout of a second or more, and never after close-wait. */
  lemma TcpFlowsExpireOnlyAtTimeoutZero(s: Setup, run: seq<Action>, p: Packet)
    requires s.env.Valid() && KeyOf(p) in After(s, run).flows && p.IsTcp()
    ensures var f := After(s, run).flows[KeyOf(p)].flow;
            Expired(s.timeouts, f, p) <==> s.timeouts.tcp == 0 && f.pktsInQueue <= 0 && p.seconds != f.control.lastSeconds
  {
    hide TupleKey, Base;
  }

  /** Every submitted packet has been accepted once, or dropped once, or is queued or in a worker's hands, once. */
  lemma EveryPacketHasOneFate(s: Setup, run: seq<Action>)
    requires s.env.Valid()
    ensures var t, lines := After(s, run).history, After(s, run).lines;
            && multiset(t.submitted) == multiset(t.accepted) + multiset(t.dropped) + AllQueued(lines)
            && |t.submitted| == |t.accepted| + |t.dropped| + TotalLength(lines)
  {
    hide After, AllQueued;
    EveryRunIsBalanced(s, run);
    var t, lines := After(s, run).history, After(s, run).lines;
    QueueLengths(lines);
    assert |multiset(t.submitted)| == |multiset(t.accepted)| + |multiset(t.dropped)| + |AllQueued(lines)|;
  }

  // ---------- order ----------

  function PacketsIn(ds: seq<Delivery>): (ps: seq<Packet>)
    ensures |ps| == |ds|
  {
    seq(|ds|, i requires 0 <= i < |ds| => ds[i].packet)
  }

  /** `a` is `b` with some packets left out. */
  predicate Subsequence(a: seq<Packet>, b: seq<Packet>) {
    a == []
    || (b != [] && (|| (a[|a| - 1] == b[|b| - 1] && Subsequence(a[..|a| - 1], b[..|b| - 1]))
                    || Subsequence(a, b[..|b| - 1])))
  }

  lemma SubsequenceGrows(a: seq<Packet>, b: seq<Packet>, p: Packet)
    requires Subsequence(a, b)
    ensures Subsequence(a, b + [p]) && Subsequence(a + [p], b + [p])
  {
    assert (b + [p])[..|b|] == b && (a + [p])[..|a|] == a;
  }

  lemma {:induction false} SubsequencesChain(a: seq<Packet>, b: seq<Packet>, c: seq<Packet>)
    requires Subsequence(a, b) && Subsequence(b, c)
    ensures Subsequence(a, c)
    decreases |b| + |c|
  {
    if a != [] {
      var b', c' := b[..|b| - 1], c[..|c| - 1];
      if b[|b| - 1] == c[|c| - 1] && Subsequence(b', c') {
        if a[|a| - 1] == b[|b| - 1] && Subsequence(a[..|a| - 1], b') {
          SubsequencesChain(a[..|a| - 1], b', c');
        } else {
          SubsequencesChain(a, b', c');
        }
      } else {
        SubsequencesChain(a, b, c');
      }
    }
  }

  lemma {:induction false} EverySequenceIsItsOwn(a: seq<Packet>)
    ensures Subsequence(a, a)
  {
    if a != [] {
      EverySequenceIsItsOwn(a[..|a| - 1]);
    }
  }

  lemma PacketsInAppend(ds: seq<Delivery>, d: Delivery)
    ensures PacketsIn(ds + [d]) == PacketsIn(ds) + [d.packet]
  {
  }

  lemma {:induction false} OneKeyIsASubsequence(ds: seq<Delivery>, h: Key)
    ensures Subsequence(PacketsIn(DeliveriesOf(ds, h)), PacketsIn(ds))
  {
    hide KeyOf, Subsequence, PacketsIn;
    if ds == [] {
      EverySequenceIsItsOwn(PacketsIn(ds));
    } else {
      var n := |ds| - 1;
      OneKeyIsASubsequence(ds[..n], h);
      SubsequenceGrows(PacketsIn(DeliveriesOf(ds[..n], h)), PacketsIn(ds[..n]), ds[n].packet);
      PacketsInAppend(ds[..n], ds[n]);
      assert ds[..n] + [ds[n]] == ds;
      PacketsInAppend(DeliveriesOf(ds[..n], h), ds[n]);
      assert DeliveriesOf(ds[..n], h) + [] == DeliveriesOf(ds[..n], h);
    }
  }

  lemma {:induction false} PrefixIsASubsequence(a: seq<Packet>, b: seq<Packet>)
    requires a <= b
    ensures Subsequence(a, b)
    decreases |b|
  {
    if a == b {
      EverySequenceIsItsOwn(a);
    } else {
      PrefixIsASubsequence(a, b[..|b| - 1]);
    }
  }

  lemma AddPacketTakesInOrder(s: Setup, m: Manager, p: Packet)
    requires Inv(s, m, []) && Subsequence(PacketsIn(m.history.taken), m.history.submitted)
    ensures var t := AddPacket(s, m, p).history; Subsequence(PacketsIn(t.taken), t.submitted)
  {
    hide Inv, WellFormed, AddPacket, Subsequence, GetFlow, KeyOf;
    InvIsWellFormed(s, m, []);
    AddPacketTraffic(s, m, p);
    var t, u := m.history, AddPacket(s, m, p).history;
    SubsequenceGrows(PacketsIn(t.taken), t.submitted, p);
    if u.taken != t.taken {
      assert PacketsIn(u.taken) == PacketsIn(t.taken) + [p];
    }
  }

  lemma NextTakesInOrder(s: Setup, m: Manager, a: Action)
    requires Inv(s, m, []) && Enabled(s, m, a) && Subsequence(PacketsIn(m.history.taken), m.history.submitted)
    ensures var t := Next(s, m, a).history; Subsequence(PacketsIn(t.taken), t.submitted)
  {
    hide Base, AddPacket, Finish, Calm, Subsequence, ProcessPacket;
    match a
    case Add(p) => AddPacketTakesInOrder(s, m, p);
    case Serve(q) =>
      UnloadKeepsInv(s, m, q);
      ProcessTraffic(s, Unload(m, q), m.lines[q][0], Worker(q));
    case Settle(h) => FinishTraffic(s, m, h);
    case _ =>
  }

  lemma {:induction false} EveryRunTakesInOrder(s: Setup, run: seq<Action>)
    requires s.env.Valid()
    ensures var t := After(s, run).history; Subsequence(PacketsIn(t.taken), t.submitted)
  {
    hide Inv, Next, Enabled, Subsequence;
    if run == [] {
      EverySequenceIsItsOwn([]);
      assert PacketsIn([]) == [];
    } else {
      var m, a := After(s, run[..|run| - 1]), run[|run| - 1];
      EveryRunTakesInOrder(s, run[..|run| - 1]);
      if Enabled(s, m, a) {
        InvIsWellFormed(s, m, []);
        NextTakesInOrder(s, m, a);
      }
    }
  }

  /** Packets with the same hash are processed in the order in which they were submitted, dropped ones
      aside, however often their flow is deleted, created again and pinned elsewhere: those processed
      are the first of those taken, and each by the flow that counted it. */
  lemma PacketsOfAKeyStayInOrder(s: Setup, run: seq<Action>, h: Key)
    requires s.env.Valid()
    ensures var t := After(s, run).history;
            && DeliveriesOf(t.processed, h) <= DeliveriesOf(t.taken, h)
            && Subsequence(PacketsIn(DeliveriesOf(t.processed, h)), t.submitted)
  {
    hide After, DeliveriesOf, Subsequence, Waiting;
    var t := After(s, run).history;
    EveryRunIsInOrder(s, run, h);
    EveryRunTakesInOrder(s, run);
    OneKeyIsASubsequence(t.taken, h);
    PrefixIsASubsequence(PacketsIn(DeliveriesOf(t.processed, h)), PacketsIn(DeliveriesOf(t.taken, h)));
    SubsequencesChain(PacketsIn(DeliveriesOf(t.processed, h)), PacketsIn(DeliveriesOf(t.taken, h)), PacketsIn(t.taken));
    SubsequencesChain(PacketsIn(DeliveriesOf(t.processed, h)), PacketsIn(t.taken), t.submitted);
  }

  // ---------- the life of a flow ----------

  /** When the final call returns, the table is empty.  Every flow ever created has left it exactly
      once, after entering FINISHED_NOTIFIED; each finish observer heard of it exactly once, if by its
      end it had a data packet and enough packets over all, and otherwise never. */
  lemma EveryFlowIsSettledOnce(s: Setup, run: seq<Action>, id: nat, k: nat)
    requires s.env.Valid() && Enabled(s, After(s, run), Return)
    ensures var m := After(s, run + [Return]);
            var t := m.history;
            && m.flows == map[]
            && t.removed[id] == (if id < m.nextId then 1 else 0)
            && (id < m.nextId ==>
                  && id in t.origin && id in t.retired
                  && t.retired[id] == FlowControl.Run(Fresh(t.origin[id]), UpToEnd(t.origin[id], PacketsOf(t.processed, id))))
            && CallsTo(t.finishCalls, k, id) == (if id < m.nextId && k < s.finishObservers && WorthReporting(t.retired[id]) then 1 else 0)
  {
    hide Inv, Enabled, After, Lives, Told, WorthReporting, FlowControl.Run, UpToEnd, PacketsOf, CallsTo;
    NothingAfterReturn(s, run);
    EveryRunIsTold(s, run + [Return]);
    GoneFlowIsSettled(s, After(s, run + [Return]), id, k);
  }

  lemma NothingAfterReturn(s: Setup, run: seq<Action>)
    requires s.env.Valid() && Enabled(s, After(s, run), Return)
    ensures After(s, run + [Return]).flows == map[]
  {
    hide Inv, After, AddPacket, Work, Finish, KeyOf;
    OneStepMore(s, run, Return);
  }

  lemma GoneFlowIsSettled(s: Setup, m: Manager, id: nat, k: nat)
    requires Lives(s, m) && Told(s, m) && m.flows == map[]
    ensures var t := m.history;
            && t.removed[id] == (if id < m.nextId then 1 else 0)
            && (id < m.nextId ==>
                  && id in t.origin && id in t.retired
                  && t.retired[id] == FlowControl.Run(Fresh(t.origin[id]), UpToEnd(t.origin[id], PacketsOf(t.processed, id))))
            && CallsTo(t.finishCalls, k, id) == (if id < m.nextId && k < s.finishObservers && WorthReporting(t.retired[id]) then 1 else 0)
  {
    hide WorthReporting, FlowControl.Run, UpToEnd, Replay, Replayed, LabelledRightly;
    assert Lived(m, id) && Reported(s, m.history, k, id);
    if id < m.nextId {
      assert RetiredInTime(m.history, id);
    }
  }

  /** At any time, a flow that is still in the table is the replay of the packets processed for it. */
  lemma TableHoldsReplays(s: Setup, run: seq<Action>, h: Key)
    requires s.env.Valid() && h in After(s, run).flows
    ensures var m := After(s, run);
            var Entry(id, f) := m.flows[h];
            && id in m.history.origin && KeyOf(m.history.origin[id]) == h
            && Evolved(s.env, m.history.origin[id], s.junk(id), PacketsOf(m.history.processed, id), f)
  {
    hide After, KeyOf, TrueRecord, Evolved, Lives;
    EveryRunIsTold(s, run);
    assert Replayed(s, After(s, run), h);
  }

  /** The scores of a flow's data packets. */
  ghost function RoundsOf(env: Env, first: Packet, junk: Junk, ps: seq<Packet>): seq<seq<Score>>
    requires env.Valid()
  {
    FreshFlowIsValid(env, first, junk);
    Rounds(env, FreshFlow(env, first, junk), ps)
  }

  /** One of a flow's data packets is decisive: at or past the defining limit and within the cut-off limit,
      a model scores under the threshold, or the best match so far is called in. */
  ghost predicate SomethingDecides(env: Env, first: Packet, junk: Junk, ps: seq<Packet>)
    requires env.Valid()
  {
    var rounds := RoundsOf(env, first, junk, ps);
    exists n :: 0 <= n <= |rounds| && Decides(env.Cfg(), rounds[..n])
  }

  /** A classification observer hears of a flow exactly once if one of the data packets processed for it
      was decisive, and otherwise never; whichever threads did the work. */
  lemma EveryLabelIsAnnouncedOnce(s: Setup, run: seq<Action>, id: nat, k: nat)
    requires s.env.Valid() && !s.env.config.learning && id < After(s, run).nextId
    ensures var t := After(s, run).history;
            && id in t.origin
            && CallsTo(t.classifyCalls, k, id) ==
                 if k < s.classifyObservers && SomethingDecides(s.env, t.origin[id], s.junk(id), PacketsOf(t.processed, id)) then 1 else 0
  {
    hide After, SomethingDecides, WorthReporting, Replayed, Replay, RetiredInTime, Addressed, Env.Valid, PacketsOf, CallsTo;
    EveryRunIsTold(s, run);
    var t := After(s, run).history;
    assert LabelledRightly(s, t, id) && Reported(s, t, k, id);
    LabelsFollowDecisions(s.env, t.origin[id], s.junk(id), PacketsOf(t.processed, id));
  }

  lemma LabelsFollowDecisions(env: Env, first: Packet, junk: Junk, ps: seq<Packet>)
    requires env.Valid() && !env.config.learning
    ensures Replay(env, first, junk, ps).verdict.classified <==> SomethingDecides(env, first, junk, ps)
  {
    hide Decides, CoversMeter, Names, FlowRun, Rounds, DecidesFirst;
    FlowIsClassifiedExactly(env, first, junk, ps);
    var rounds := RoundsOf(env, first, junk, ps);
    assert rounds == Rounds(env, FreshFlow(env, first, junk), ps);
    assert Replay(env, first, junk, ps) == FlowRun(env, FreshFlow(env, first, junk), ps);
  }
}
