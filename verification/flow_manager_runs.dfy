/**
  What the observers of a flow manager object have been told, flow object by flow
  object, after any run of its methods.
*/
module FlowManagerRuns {
  import opened FlowControl
  import opened FlowModel
  import opened Pipeline
  import opened PipelineLives
  import opened PipelineFlows
  import opened PipelineRuns
  import opened Flows
  import opened FlowManagers

  /** How often an observer was told of a flow object. */
  function ToldOf(notices: seq<Notice>, k: nat, f: Flow): nat {
    multiset(notices)[Notice(k, f)]
  }

  lemma NoticesAreCalls(manager: FlowManager, k: nat, f: Flow)
    requires manager.TableValid() && f in manager.numbers
    ensures ToldOf(manager.finishCalls, k, f) == CallsTo(manager.model.history.finishCalls, k, manager.numbers[f])
    ensures ToldOf(manager.classifyCalls, k, f) == CallsTo(manager.model.history.classifyCalls, k, manager.numbers[f])
    ensures manager.numbers[f] < manager.model.nextId
  {
    hide WellFormed, Owned, FlowManager.Holds;
    ToldAsReported(manager.finishCalls, manager.numbers, manager.model.history.finishCalls, k, f);
    ToldAsReported(manager.classifyCalls, manager.numbers, manager.model.history.classifyCalls, k, f);
  }

  /** Once the final call has emptied the table, each finish observer has been told of every flow object ever
      made: once, if the flow was worth reporting when its last relevant packet left it, and else never. */
  lemma EveryFlowObjectIsReportedOnce(manager: FlowManager, run: seq<Action>, k: nat, f: Flow)
    requires manager.TableValid() && f in manager.numbers && manager.setup.env.Valid()
    requires Enabled(manager.setup, After(manager.setup, run), Return)
    requires manager.model == After(manager.setup, run + [Return])
    ensures var t, id := manager.model.history, manager.numbers[f];
            && id in t.origin
            && var last := FlowControl.Run(Fresh(t.origin[id]), UpToEnd(t.origin[id], PacketsOf(t.processed, id)));
            ToldOf(manager.finishCalls, k, f) == if k < manager.setup.finishObservers && WorthReporting(last) then 1 else 0
  {
    hide FlowManager.TableValid, After, Enabled, WorthReporting, FlowControl.Run, UpToEnd, PacketsOf, CallsTo, ToldOf;
    NoticesAreCalls(manager, k, f);
    EveryFlowIsSettledOnce(manager.setup, run, manager.numbers[f], k);
  }

  /** At any time, each classification observer has been told of a flow object once, if one of the data packets
      processed for it was decisive, and else never. */
  lemma EveryFlowObjectIsAnnouncedOnce(manager: FlowManager, run: seq<Action>, k: nat, f: Flow)
    requires manager.TableValid() && f in manager.numbers && manager.setup.env.Valid() && !manager.setup.env.config.learning
    requires manager.model == After(manager.setup, run)
    ensures var s, t, id := manager.setup, manager.model.history, manager.numbers[f];
            && id in t.origin
            && ToldOf(manager.classifyCalls, k, f) ==
                 if k < s.classifyObservers && SomethingDecides(s.env, t.origin[id], s.junk(id), PacketsOf(t.processed, id)) then 1 else 0
  {
    hide FlowManager.TableValid, After, SomethingDecides, PacketsOf, CallsTo, ToldOf, Env.Valid;
    NoticesAreCalls(manager, k, f);
    EveryLabelIsAnnouncedOnce(manager.setup, run, manager.numbers[f], k);
  }
}
