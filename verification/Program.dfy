/** The assembled dispatcher program: one step for every event of the state machine, run on
    the shared objects. Any schedule of handler segments refines the run of DispatcherSpec
    for the same events, so the theorems about runs are theorems about the program. */
module Program {
  import opened Protocol
  import opened StateMachine
  import opened RoundRobin
  import opened TaskStorage
  import opened DispatcherLoop
  import opened Servicer
  import Spec = DispatcherSpec
  import Custody = DispatcherCustody
  import Runs = DispatcherRuns
  import Monitoring
  import Figures
  import Collector

  /** server.py: the parts share one store and one queue. */
  method Assemble(maxRetries: int) returns (d: DispatcherServicer)
    ensures fresh(d) && fresh(d.loop) && fresh(d.store) && fresh(d.queue) && fresh(d.ids) && fresh(d.loop.selector)
    ensures d.Valid() && d.loop.View() == Spec.Init(maxRetries) && d.store.objects == {}
  {
    var store := new TaskStore();
    var queue := new TaskQueue();
    var selector := new RoundRobinSelector();
    var loop := new DispatchLoop(store, queue, selector, maxRetries);
    var ids := new TaskIdCounter();
    d := new DispatcherServicer(loop, ids);
  }

  lemma StoreIsOk(d: DispatcherServicer)
    requires d.Valid()
    ensures Custody.StoreOk(d.loop.View())
  {
    SizesAgree(d.store);
    forall id | id in d.store.contents
      ensures d.store.contents[id].taskId == id
    {
      assert d.store.tasks[id] in d.store.objects;
    }
  }

  /** Every task reference that is queued, executing, asleep, delayed or called out is the
      very object the store maps its id to. */
  lemma HeldReferencesAreStored(d: DispatcherServicer, task: Task)
    requires d.Valid()
    requires || task in d.queue.items || task in d.loop.executing || task in d.loop.sleeping || task in d.loop.delayed
             || exists call :: call in d.loop.calls && call.task == task
    ensures task.taskId in d.store.tasks && d.store.tasks[task.taskId] == task
  {
    if call :| call in d.loop.calls && call.task == task {
      assert task in d.store.objects;
    }
  }

  lemma ServiceStep(s: Spec.Sys, e: Spec.Stamped)
    ensures e.event.Post? ==> Spec.Step(s, e) == Spec.PostTask(s, e.event.taskType, e.event.payload, e.now).0
    ensures e.event.ResultArrives? ==> Spec.Step(s, e) == Spec.ReturnResult(s, e.event.msg, e.now).0
  {
  }

  method PerformPost(d: DispatcherServicer, e: Spec.Stamped)
    requires d.Valid() && e.event.Post?
    modifies d.store, d.queue, d.ids
    ensures d.Valid() && d.loop.View() == Spec.Step(old(d.loop.View()), e)
    ensures forall t :: t in d.store.objects ==> t in old(d.store.objects) || fresh(t)
    ensures KeepsObjects(old(d.store.tasks), d.store.tasks)
  {
    ServiceStep(d.loop.View(), e);
    var _ := d.PostTask(e.event.taskType, e.event.payload, e.now);
  }

  method PerformResult(d: DispatcherServicer, e: Spec.Stamped)
    requires d.Valid() && e.event.ResultArrives?
    modifies d.loop`timers, d.loop`live, d.store`tasks, d.store`contents, d.store.objects
    ensures d.Valid() && d.loop.View() == Spec.Step(old(d.loop.View()), e)
    ensures d.store.tasks == old(d.store.tasks)
  {
    ServiceStep(d.loop.View(), e);
    var _ := d.ReturnResult(e.event.msg, e.now);
  }

  /** The threads and timers of the dispatch loop. */
  method PerformLoop(d: DispatcherServicer, e: Spec.Stamped)
    requires d.Valid() && !e.event.Post? && !e.event.ResultArrives?
    modifies d.loop, d.store`tasks, d.store`contents, d.queue, d.loop.selector, d.store.objects
    ensures d.loop.Valid() && d.loop.View() == Spec.Step(old(d.loop.View()), e)
    ensures d.store.tasks == old(d.store.tasks) && d.store.order == old(d.store.order)
  {
    d.loop.Perform(e);
  }

  method Perform(d: DispatcherServicer, e: Spec.Stamped)
    requires d.Valid()
    modifies d.loop, d.store, d.queue, d.ids, d.loop.selector, d.store.objects
    ensures d.Valid() && d.loop.View() == Spec.Step(old(d.loop.View()), e)
    ensures forall t :: t in d.store.objects ==> t in old(d.store.objects) || fresh(t)
    ensures KeepsObjects(old(d.store.tasks), d.store.tasks)
  {
    if e.event.Post? {
      PerformPost(d, e);
    } else if e.event.ResultArrives? {
      PerformResult(d, e);
    } else {
      PerformLoop(d, e);
    }
  }

  /** The step i of a schedule. */
  method Advance(d: DispatcherServicer, ghost s: Spec.Sys, es: seq<Spec.Stamped>, i: nat)
    requires d.Valid() && i < |es| && d.loop.View() == Spec.Exec(s, es[..i])
    modifies d.loop, d.store, d.queue, d.ids, d.loop.selector, d.store.objects
    ensures d.Valid() && d.loop.View() == Spec.Exec(s, es[..i + 1])
    ensures forall t :: t in d.store.objects ==> t in old(d.store.objects) || fresh(t)
    ensures KeepsObjects(old(d.store.tasks), d.store.tasks)
  {
    ExecSnoc(s, es, i);
    Perform(d, es[i]);
  }

  /** The program under any schedule: whatever handler segments run, in whatever order, the
      shared objects go through the run of the state machine for those events. */
  method Drive(d: DispatcherServicer, es: seq<Spec.Stamped>)
    requires d.Valid()
    modifies d.loop, d.store, d.queue, d.ids, d.loop.selector, d.store.objects
    ensures d.Valid() && d.loop.View() == Spec.Exec(old(d.loop.View()), es)
    ensures KeepsObjects(old(d.store.tasks), d.store.tasks)
  {
    ghost var s := d.loop.View();
    for i := 0 to |es|
      invariant d.Valid() && d.loop.View() == Spec.Exec(s, es[..i])
      invariant forall t :: t in d.store.objects ==> t in old(d.store.objects) || fresh(t)
      invariant KeepsObjects(old(d.store.tasks), d.store.tasks)
    {
      Advance(d, s, es, i);
    }
    assert es[..|es|] == es;
  }

  lemma ExecSnoc(s: Spec.Sys, es: seq<Spec.Stamped>, i: nat)
    requires i < |es|
    ensures Spec.Exec(s, es[..i + 1]) == Spec.Step(Spec.Exec(s, es[..i]), es[i])
  {
    assert es[..i + 1] == es[..i] + [es[i]];
    Spec.ExecConcat(s, es[..i], [es[i]]);
    assert [es[i]][1..] == [];
  }

  /** The report and the load map of the running program are those of the reached state. */
  lemma ListedTasks(d: DispatcherServicer)
    requires d.Valid()
    ensures Custody.StoreOk(d.loop.View()) && Collector.Listed(d.store)
    ensures Collector.Values(d.store) == Monitoring.Tasks(d.loop.View())
  {
    StoreIsOk(d);
  }

  /** A whole run of the program, followed by a status request. Each task figure is the number
      of stored tasks with its statuses, and together they are the number of requests
      accepted in the run, all of them stored; the timeouts are the timers that fired; the
      average, the known types and the active workers are those of the stored tasks. */
  method RunAndReport(maxRetries: int, es: seq<Spec.Stamped>, lookup: string -> seq<WorkerInfo>)
    returns (report: Monitoring.Report, stored: nat)
    ensures report.queued + report.running + report.completed + report.failed == Monitoring.Accepts(es) == stored
    ensures report.timeouts == Monitoring.Firings(Spec.Init(maxRetries), es)
    ensures var s := Runs.Run(maxRetries, es);
      Figures.CountsOk(report, s) && Figures.AverageOk(report, s) && Figures.TypesOk(report, s, lookup)
  {
    var d := Assemble(maxRetries);
    Drive(d, es);
    ListedTasks(d);
    report := Collector.GetStatus(d.store, lookup);
    stored := |d.store.order|;
    Monitoring.ReportConserves(maxRetries, es, lookup);
    Runs.InitOk(maxRetries);
    Runs.RunKeeps(maxRetries, es);
    Monitoring.AcceptedAreStored(Spec.Init(maxRetries), es);
    Figures.ReportIsTrue(Runs.Run(maxRetries, es), lookup);
  }

  lemma LoadsAreTrue(s: Spec.Sys)
    requires Custody.StoreOk(s)
    ensures forall w :: Monitoring.LoadOf(Monitoring.Tasks(s), w) == |Figures.RunningOn(s, |s.store|, w)|
  {
    forall w
      ensures Monitoring.LoadOf(Monitoring.Tasks(s), w) == |Figures.RunningOn(s, |s.store|, w)|
    {
      Figures.LoadsAreSizes(s, |s.store|, w);
    }
  }

  /** A whole run of the program whose lookups name their workers, followed by a request for
      the load map: its values add up to the number of running tasks. */
  method RunAndMap(maxRetries: int, es: seq<Spec.Stamped>) returns (load: map<string, nat>, workers: seq<string>)
    requires forall e :: e in es ==> Monitoring.NamesWorkers(e)
    ensures (forall w :: w in load <==> w in workers) && Monitoring.Distinct(workers)
    ensures var s := Runs.Run(maxRetries, es);
      forall w :: (w in load <==> w != "" && Figures.RunningOn(s, |s.store|, w) != {})
        && (w in load ==> load[w] == |Figures.RunningOn(s, |s.store|, w)|)
    ensures var ts := Monitoring.RunTasks(maxRetries, es);
      Monitoring.LoadSum(load, workers) == Monitoring.CountIn(ts, {DISPATCHED}) + Monitoring.CountIn(ts, {PROCESSING})
  {
    var d := Assemble(maxRetries);
    Drive(d, es);
    ListedTasks(d);
    load, workers := Collector.WorkerLoadMap(d.store);
    ghost var ts := Monitoring.RunTasks(maxRetries, es);
    Runs.RunKeeps(maxRetries, es);
    Monitoring.LoadMapAgrees(maxRetries, es, workers);
    Monitoring.LoadSumIsTotal(load, workers, ts);
    LoadsAreTrue(Runs.Run(maxRetries, es));
  }
}
