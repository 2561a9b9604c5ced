/** What holds over whole runs of the remote-download protocol, in every interleaving. */
module TransferRuns {
  import opened Prelude
  import opened TransferStream
  import opened TransferModel
  import opened TransferMachine
  import opened TransferInvariant
  import opened TransferSteps

  // ----- the invariant holds throughout -----

  lemma NextKeepsInv(s: State, step: Step, s': State)
    requires Inv(s) && Next(s, step, s')
    ensures Inv(s')
  {
    hide Inv;
    match step
    case Acquire => CountersKeep(s, step, s');
    case Registration(dest, declared) => RegisterKeeps(s, dest, declared);
    case Abort => CountersKeep(s, step, s');
    case ReturnRefused => CountersKeep(s, step, s');
    case Submit(dest) => SubmitKeeps(s, dest);
    case Cancel(id) => CancelKeeps(s, id);
    case CallCancel(id) => CountersKeep(s, step, s');
    case Close => CountersKeep(s, step, s');
    case CancelRoot => CountersKeep(s, step, s');
    case FinishShutdown => CountersKeep(s, step, s');
    case BeginWork(id) => BeginKeeps(s, id);
    case Accept(id, length) => AcceptKeeps(s, id, length);
    case CreatePart(id, serial) => CreatePartKeeps(s, id, serial);
    case Copy(id, data, accept, error) => CopyKeeps(s, id, data, accept, error);
    case EndBody(id) => EndBodyKeeps(s, id);
    case Check(id, saw) => CheckKeeps(s, id, saw);
    case PublishPart(id, renamed) => PublishKeeps(s, id, renamed);
    case GiveUp(id) => GiveUpKeeps(s, id);
    case Fail(id, error) => FailKeeps(s, id, error);
    case Stop(id) => StopKeeps(s, id);
    case RemovePart(id, removed) => RemovePartKeeps(s, id, removed);
    case Clean(id) => CleanKeeps(s, id);
    case ReturnSlot(id) => ReturnSlotKeeps(s, id);
    case BeDone(id) => DoneKeeps(s, id);
  }

  lemma CountersKeep(s: State, step: Step, s': State)
    requires Inv(s) && Next(s, step, s')
    requires step.Acquire? || step.Abort? || step.ReturnRefused? || step.CallCancel?
          || step.Close? || step.CancelRoot? || step.FinishShutdown?
    ensures Inv(s')
  {
    hide CellsOk, WellFormed, IdsOk, MapsOk, PublishedOk, PartsOk;
    BookkeepingKeeps(s, s');
  }

  lemma {:induction false} RunKeepsInv(states: seq<State>, steps: seq<Step>, i: nat)
    requires Run(states, steps) && i < |states|
    ensures Inv(states[i])
  {
    hide Inv, Next, Init;
    if i == 0 {
      InitInv(states[0]);
    } else {
      RunKeepsInv(states, steps, i - 1);
      NextKeepsInv(states[i - 1], steps[i - 1], states[i]);
    }
  }

  // ----- what no step ever undoes -----

  /** How a remembered task may change: a finished status is final, amounts and (under a steady total)
      progress never go back, and the total changes only before the first byte or at completion. */
  ghost predicate TaskForward(t: Task, t': Task) {
    && t'.destination == t.destination
    && (!t.Active() ==> t'.status == t.status)
    && t.bytesCopied <= t'.bytesCopied && t.bytesTotal <= t'.bytesTotal
    && (t.bytesTotal == t'.bytesTotal || t.bytesCopied == 0 || t'.status == Completed)
    && (Steady(t'.bytesTotal) ==> t.progress <= t'.progress)
  }

  /** A task that has been forgotten stays forgotten. */
  ghost predicate TasksForward(m: Memory, m': Memory) {
    && m.next <= m'.next && (m.closed ==> m'.closed)
    && forall id :: id in m'.tasks && id <= m.next ==> id in m.tasks && TaskForward(m.tasks[id], m'.tasks[id])
  }

  ghost predicate LogForward(log: Log, log': Log) {
    && log.cancelled <= log'.cancelled && log.leaked <= log'.leaked
    && forall id :: id in log.published ==> id in log'.published && log'.published[id] == log.published[id]
  }

  /** A file under a destination name is never changed, replaced or removed. */
  ghost predicate FilesForward(files: map<Path, seq<Byte>>, files': map<Path, seq<Byte>>) {
    forall p :: p in files && p.Final? ==> p in files' && files'[p] == files[p]
  }

  /** New workers have new ids and appear only while the service is open. */
  ghost predicate WorkersForward(s: State, s': State) {
    forall id :: id in s'.workers && id !in s.workers ==> s.mem.next < id && !s.mem.closed
  }

  ghost predicate Forward(s: State, s': State) {
    && TasksForward(s.mem, s'.mem)
    && LogForward(s.log, s'.log)
    && FilesForward(s.files, s'.files)
    && WorkersForward(s, s')
    && (s.rootCancelled ==> s'.rootCancelled) && (s.done ==> s'.done)
  }

  ghost predicate Advances(t: Task, t': Task) {
    && t'.destination == t.destination
    && (!t.Active() ==> t'.status == t.status)
    && t.bytesCopied <= t'.bytesCopied && t.bytesTotal <= t'.bytesTotal
    && (t.bytesTotal == t'.bytesTotal || t.bytesCopied == 0 || t'.status == Completed)
  }

  lemma AdvancesIsForward(t: Task, t': Task, p: Option<Publication>, p': Option<Publication>, c: bool, c': bool)
    requires TaskOk(t, p, c) && TaskOk(t', p', c') && Advances(t, t')
    ensures TaskForward(t, t')
  {
    if t'.status != Completed && Steady(t'.bytesTotal) {
      if t.bytesTotal == t'.bytesTotal {
        ProgressMonotone(t.bytesCopied, t'.bytesCopied, t.bytesTotal);
      } else {
        ProgressOfNothing(t.bytesTotal);
      }
    }
  }

  lemma TaskIsOk(s: State, id: Id)
    requires CellsOk(s) && id in s.mem.tasks
    ensures TaskOk(s.mem.tasks[id], Lookup(s.log.published, id), id in s.log.cancelled)
  {
    assert CellOk(CellOf(s, id));
  }

  lemma EvolvesForward(s: State, s': State, id: Id)
    requires CellsOk(s) && CellsOk(s') && Evolves(s.mem, s'.mem, id)
    requires id in s.mem.tasks ==> Advances(s.mem.tasks[id], s'.mem.tasks[id])
    ensures TasksForward(s.mem, s'.mem)
  {
    hide CellsOk, WellFormed, TaskOk;
    forall i | i in s'.mem.tasks && i <= s.mem.next
      ensures i in s.mem.tasks && TaskForward(s.mem.tasks[i], s'.mem.tasks[i])
    {
      if i == id {
        TaskIsOk(s, i);
        TaskIsOk(s', i);
        AdvancesIsForward(s.mem.tasks[i], s'.mem.tasks[i], Lookup(s.log.published, i), Lookup(s'.log.published, i),
                          i in s.log.cancelled, i in s'.log.cancelled);
      }
    }
  }

  lemma GrowsForward(m: Memory, m': Memory, t: Task)
    requires Grows(m, m', t)
    ensures TasksForward(m, m')
  {
  }

  /** No step moves a task, the history, a destination file or a worker backwards. */
  lemma NextForwardTasks(s: State, step: Step, s': State)
    requires Inv(s) && Inv(s') && Next(s, step, s')
    ensures TasksForward(s.mem, s'.mem)
  {
    hide WellFormed, IdsOk, MapsOk, CountsOk, PublishedOk, PartsOk, ClosingOk, CellsOk, Grows, TasksForward,
         TaskForward;
    if step.Registration? || step.Submit? {
      AddForwardTasks(s, step, s');
    } else if TouchesStatus(step) || TouchesNumbers(step) {
      TouchForwardTasks(s, step, s');
    } else {
      SameForwardTasks(s, s');
    }
  }

  lemma SameForwardTasks(s: State, s': State)
    requires s'.mem.tasks == s.mem.tasks && s.mem.next == s'.mem.next && (s.mem.closed ==> s'.mem.closed)
    ensures TasksForward(s.mem, s'.mem)
  {
  }

  lemma AddForwardTasks(s: State, step: Step, s': State)
    requires Inv(s) && Next(s, step, s') && (step.Registration? || step.Submit?)
    ensures TasksForward(s.mem, s'.mem)
  {
    hide WellFormed, CellsOk, IdsOk, MapsOk, CountsOk, PublishedOk, PartsOk, ClosingOk, Grows, Trim, ActiveIds,
         UncleanedIds, SlotHolders, TasksForward;
    match step {
      case Registration(dest, declared) =>
        FewActive(s);
        RegisterMemory(s.mem, dest, declared);
        var m' := s'.mem.(cancels := s.mem.cancels, reservations := s.mem.reservations, waitGroup := s.mem.waitGroup);
        GrowsForward(s.mem, m', Task(dest, Queued, "", Max(declared, 0), 0, 0));
        SameTasksForward(s.mem, m', s'.mem);
      case Submit(dest) =>
        var t := Task(dest, Submitted, "", 0, 0, 0);
        OneMoreTask(s, t);
        assert s'.mem == Trim(WithTask(s.mem, t), s.mem.next + 1);
        GrowsForward(s.mem, s'.mem, t);
    }
  }

  lemma SameTasksForward(m: Memory, m1: Memory, m2: Memory)
    requires TasksForward(m, m1) && m2.tasks == m1.tasks && m2.next == m1.next && m2.closed == m1.closed
    ensures TasksForward(m, m2)
  {
  }

  lemma TouchForwardTasks(s: State, step: Step, s': State)
    requires Inv(s) && Inv(s') && Next(s, step, s')
    requires TouchesStatus(step) || TouchesNumbers(step)
    ensures TasksForward(s.mem, s'.mem)
  {
    hide CellsOk, IdsOk, MapsOk, CountsOk, PublishedOk, PartsOk, ClosingOk, Trim, WellFormed, TasksForward, Evolves;
    var id := step.id;
    EvolvesNot(s.mem, id);
    if TouchesStatus(step) {
      StatusAdvances(s, step, s');
    } else {
      NumbersAdvance(s, step, s');
    }
    EvolvesForward(s, s', id);
  }

  predicate TouchesStatus(step: Step) {
    step.Cancel? || step.BeginWork? || step.Check? || step.Fail? || step.Stop?
  }

  predicate TouchesNumbers(step: Step) {
    step.Accept? || step.Copy? || step.PublishPart?
  }

  lemma StatusAdvances(s: State, step: Step, s': State)
    requires WellFormed(s.mem) && Next(s, step, s') && TouchesStatus(step)
    ensures Evolves(s.mem, s'.mem, step.id)
    ensures step.id in s.mem.tasks ==> Advances(s.mem.tasks[step.id], s'.mem.tasks[step.id])
  {
    hide Trim, WellFormed, Evolves, Progress;
    var m, id := s.mem, step.id;
    EvolvesNot(m, id);
    match step {
      case Cancel(_) => CancelRewrites(m, id);
      case BeginWork(_) => BeginRewrites(m, id);
      case Check(_, saw) => CancelRewrites(m, id);
      case Fail(_, error) => FailRewrites(m, id, error);
      case Stop(_) => CancelRewrites(m, id);
    }
  }

  lemma NumbersAdvance(s: State, step: Step, s': State)
    requires Inv(s) && Next(s, step, s') && TouchesNumbers(step)
    ensures Evolves(s.mem, s'.mem, step.id)
    ensures step.id in s.mem.tasks ==> Advances(s.mem.tasks[step.id], s'.mem.tasks[step.id])
  {
    hide IdsOk, MapsOk, CountsOk, PublishedOk, PartsOk, ClosingOk, WellFormed, Evolves, CellOk, CellOf, Next, Advances;
    assert CellOk(CellOf(s, step.id));
    hide CellsOk;
    match step {
      case Accept(_, _) => AcceptAdvances(s, step, s');
      case Copy(_, _, _, _) => CopyAdvances(s, step, s');
      case PublishPart(_, _) => PublishAdvances(s, step, s');
    }
  }

  lemma AcceptAdvances(s: State, step: Step, s': State)
    requires WellFormed(s.mem) && step.Accept? && Next(s, step, s') && CellOk(CellOf(s, step.id))
    ensures Evolves(s.mem, s'.mem, step.id)
    ensures step.id in s.mem.tasks ==> Advances(s.mem.tasks[step.id], s'.mem.tasks[step.id])
  {
    hide Trim, WellFormed, Evolves, Progress;
    EvolvesNot(s.mem, step.id);
    var size := SizeOf(s.workers[step.id].declared, step.contentLength);
    if size.Some? {
      TotalRewrites(s.mem, step.id, size.value);
    }
  }

  lemma CopyAdvances(s: State, step: Step, s': State)
    requires WellFormed(s.mem) && step.Copy? && Next(s, step, s') && CellOk(CellOf(s, step.id))
    ensures Evolves(s.mem, s'.mem, step.id)
    ensures step.id in s.mem.tasks ==> Advances(s.mem.tasks[step.id], s'.mem.tasks[step.id])
  {
    hide Trim, WellFormed, Evolves, Progress, Judge;
    EvolvesNot(s.mem, step.id);
    var w := s.workers[step.id];
    var v := Judge(w.copied, w.phase.size, step.data, step.accept, step.writeError);
    if v.Stored? {
      BytesRewrites(s.mem, step.id, v.written);
    }
  }

  lemma PublishAdvances(s: State, step: Step, s': State)
    requires WellFormed(s.mem) && step.PublishPart? && Next(s, step, s') && CellOk(CellOf(s, step.id))
    ensures Evolves(s.mem, s'.mem, step.id)
    ensures step.id in s.mem.tasks ==> Advances(s.mem.tasks[step.id], s'.mem.tasks[step.id])
  {
    hide Trim, WellFormed, Evolves, Progress;
    EvolvesNot(s.mem, step.id);
    PublishRewrites(s.mem, step.id, ContextCancelled(s, step.id), step.renamed);
  }

  lemma NextForwardRest(s: State, step: Step, s': State)
    requires Inv(s) && Next(s, step, s')
    ensures LogForward(s.log, s'.log) && WorkersForward(s, s')
    ensures s.rootCancelled ==> s'.rootCancelled
    ensures s.done ==> s'.done
  {
    hide Inv, Next, LogForward, WorkersForward;
    LogGrows(s, step, s');
    NewWorkers(s, step, s');
  }

  lemma LogGrows(s: State, step: Step, s': State)
    requires Inv(s) && Next(s, step, s')
    ensures LogForward(s.log, s'.log)
    ensures (s.rootCancelled ==> s'.rootCancelled) && (s.done ==> s'.done)
  {
    hide Inv, Next, LogForward;
    if step.PublishPart? {
      PublishLog(s, step, s');
    } else {
      OtherLogs(s, step, s');
      SamePublications(s.log, s'.log);
    }
  }

  lemma SamePublications(log: Log, log': Log)
    requires log.cancelled <= log'.cancelled && log.leaked <= log'.leaked && log'.published == log.published
    ensures LogForward(log, log')
  {
  }

  lemma PublishLog(s: State, step: Step, s': State)
    requires Inv(s) && Next(s, step, s') && step.PublishPart?
    ensures LogForward(s.log, s'.log) && s'.rootCancelled == s.rootCancelled && s'.done == s.done
  {
    hide Inv, Publish, WillRename, ContextCancelled, PartOf;
    if WillRename(s.mem, step.id, ContextCancelled(s, step.id)) && step.renamed {
      DestinationIsFree(s, step.id);
    }
  }

  lemma OtherLogs(s: State, step: Step, s': State)
    requires Next(s, step, s') && !step.PublishPart?
    ensures s.log.cancelled <= s'.log.cancelled && s.log.leaked <= s'.log.leaked && s'.log.published == s.log.published
    ensures (s.rootCancelled ==> s'.rootCancelled) && (s.done ==> s'.done)
  {
    hide Register, RecordSubmitted, CancelRemote, FailTask, CancelTask, Begin, StopCheck, SetTotal, AddBytes, CleanMaps,
         PartOf, MustStop, Judge, ContextCancelled, CanBegin, SizeOf, Cancellable;
    match step
    case Cancel(_) =>
    case RemovePart(_, _) =>
    case Copy(_, _, _, _) =>
    case Check(_, _) =>
    case _ =>
  }

  lemma NewWorkers(s: State, step: Step, s': State)
    requires Next(s, step, s')
    ensures WorkersForward(s, s')
  {
    hide Register, RecordSubmitted, CancelRemote, FailTask, CancelTask, Begin, StopCheck, SetTotal, AddBytes, Publish,
         CleanMaps, PartOf, MustStop, WillRename, ContextCancelled, Cancellable;
  }

  lemma NextForwardFiles(s: State, step: Step, s': State)
    requires Inv(s) && Next(s, step, s')
    ensures FilesForward(s.files, s'.files)
  {
    hide Inv, Next, FilesForward;
    match step
    case PublishPart(_, _) => PublishFiles(s, step, s');
    case Copy(_, _, _, _) => CopyFiles(s, step, s');
    case RemovePart(_, _) => RemoveFiles(s, step, s');
    case _ => OtherFiles(s, step, s');
  }

  lemma PublishFiles(s: State, step: Step, s': State)
    requires Inv(s) && Next(s, step, s') && step.PublishPart?
    ensures FilesForward(s.files, s'.files)
  {
    DestinationIsFree(s, step.id);
    hide Inv, Publish, WillRename, ContextCancelled;
  }

  lemma CopyFiles(s: State, step: Step, s': State)
    requires Inv(s) && Next(s, step, s') && step.Copy?
    ensures FilesForward(s.files, s'.files)
  {
    PartsExist(s, step.id);
    hide Inv, Judge, AddBytes;
  }

  lemma RemoveFiles(s: State, step: Step, s': State)
    requires Inv(s) && Next(s, step, s') && step.RemovePart?
    ensures FilesForward(s.files, s'.files)
  {
    PartsExist(s, step.id);
    hide Inv;
  }

  lemma OtherFiles(s: State, step: Step, s': State)
    requires Next(s, step, s') && !step.PublishPart? && !step.Copy? && !step.RemovePart?
    ensures FilesForward(s.files, s'.files)
  {
    hide Register, RecordSubmitted, CancelRemote, FailTask, CancelTask, Begin, StopCheck, SetTotal, AddBytes, CleanMaps,
         PartOf, MustStop, ContextCancelled, CanBegin, SizeOf, Cancellable;
  }

  lemma NextForward(s: State, step: Step, s': State)
    requires Inv(s) && Inv(s') && Next(s, step, s')
    ensures Forward(s, s')
  {
    hide Inv, Next, TasksForward, LogForward, FilesForward, WorkersForward;
    NextForwardTasks(s, step, s');
    NextForwardRest(s, step, s');
    NextForwardFiles(s, step, s');
  }

  lemma TaskForwardTransitive(a: State, b: State, c: State, id: Id)
    requires CellsOk(a) && CellsOk(b) && CellsOk(c)
    requires id in a.mem.tasks && id in b.mem.tasks && id in c.mem.tasks
    requires TaskForward(a.mem.tasks[id], b.mem.tasks[id]) && TaskForward(b.mem.tasks[id], c.mem.tasks[id])
    ensures TaskForward(a.mem.tasks[id], c.mem.tasks[id])
  {
    TaskIsOk(a, id);
    TaskIsOk(b, id);
    TaskIsOk(c, id);
    hide CellsOk, Progress;
    ProgressOfNothing(a.mem.tasks[id].bytesTotal);
  }

  lemma ForwardTransitive(a: State, b: State, c: State)
    requires Forward(a, b) && Forward(b, c) && CellsOk(a) && CellsOk(b) && CellsOk(c)
    ensures Forward(a, c)
  {
    hide CellsOk, TaskForward;
    forall id | id in c.mem.tasks && id <= a.mem.next
      ensures id in a.mem.tasks && TaskForward(a.mem.tasks[id], c.mem.tasks[id])
    {
      TaskForwardTransitive(a, b, c, id);
    }
    forall id | id in c.workers && id !in a.workers
      ensures a.mem.next < id && !a.mem.closed
    {
      if id in b.workers {
      } else {
        assert b.mem.next < id && !b.mem.closed;
      }
    }
  }

  lemma {:induction false} RunForward(states: seq<State>, steps: seq<Step>, i: nat, j: nat)
    requires Run(states, steps) && i <= j < |states|
    ensures Forward(states[i], states[j])
  {
    hide Inv, Next, Init, Forward;
    RunKeepsInv(states, steps, j);
    if i == j {
      ForwardReflexive(states[i]);
    } else {
      RunForward(states, steps, i, j - 1);
      RunKeepsInv(states, steps, j - 1);
      NextForward(states[j - 1], steps[j - 1], states[j]);
      RunKeepsInv(states, steps, i);
      CellsOf(states[i]);
      CellsOf(states[j - 1]);
      CellsOf(states[j]);
      ForwardTransitive(states[i], states[j - 1], states[j]);
    }
  }

  lemma CellsOf(s: State)
    requires Inv(s)
    ensures CellsOk(s)
  {
  }

  lemma ForwardReflexive(s: State)
    ensures Forward(s, s)
  {
  }
}
