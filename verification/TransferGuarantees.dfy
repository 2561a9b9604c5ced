/** The guarantees of the remote-download service, each for every run. */
module TransferGuarantees {
  import opened Prelude
  import opened HistoryTrim
  import opened TransferStream
  import opened TransferModel
  import opened TransferMachine
  import opened TransferInvariant
  import opened TransferSteps
  import opened TransferRuns

  /** Step `i` is a cancellation request that is answered with success. */
  ghost predicate CancelSucceeds(states: seq<State>, steps: seq<Step>, i: nat, id: Id)
    requires |states| == |steps| + 1 && i < |steps|
  {
    steps[i] == Cancel(id) && Cancellable(states[i].mem, id)
  }

  /** Step `i` puts the file of task `id` in place. */
  ghost predicate Publishes(states: seq<State>, steps: seq<Step>, i: nat, id: Id)
    requires |states| == |steps| + 1 && i < |steps|
  {
    steps[i] == PublishPart(id, true) && Renames(states[i], id, true)
  }

  /** A task is never both cancelled and published, in either order, whether or not its record has
      been forgotten in between: the two commit points exclude each other. */
  lemma CancelOrPublish(states: seq<State>, steps: seq<Step>, i: nat, j: nat, id: Id)
    requires Run(states, steps) && i < |steps| && j < |steps|
    ensures !(CancelSucceeds(states, steps, i, id) && Publishes(states, steps, j, id))
  {
    if i < j && CancelSucceeds(states, steps, i, id) {
      CancelThenNoRename(states, steps, i, j, id);
    } else if j < i && Publishes(states, steps, j, id) {
      RenameThenNoCancel(states, steps, j, i, id);
    }
  }

  lemma CancelThenNoRename(states: seq<State>, steps: seq<Step>, i: nat, j: nat, id: Id)
    requires Run(states, steps) && i < j < |steps| && CancelSucceeds(states, steps, i, id)
    ensures !Renames(states[j], id, true)
  {
    hide Inv, Forward, Init, Next, Cancellable, Renames;
    RunForward(states, steps, i + 1, j);
    RunKeepsInv(states, steps, j);
    CancelledDoesNotRename(states, steps, i, j, id);
  }

  lemma RenameThenNoCancel(states: seq<State>, steps: seq<Step>, j: nat, i: nat, id: Id)
    requires Run(states, steps) && j < i < |steps| && Publishes(states, steps, j, id)
    ensures !Cancellable(states[i].mem, id)
  {
    hide Inv, Forward, Init, Next, Cancellable, Renames;
    RunForward(states, steps, j + 1, i);
    RunKeepsInv(states, steps, i);
    RunKeepsInv(states, steps, j);
    PublishedIsNotCancellable(states, steps, j, i, id);
  }

  lemma CancelledDoesNotRename(states: seq<State>, steps: seq<Step>, i: nat, j: nat, id: Id)
    requires |states| == |steps| + 1 && i < j < |steps| && CancelSucceeds(states, steps, i, id)
    requires Next(states[i], steps[i], states[i + 1])
    requires Forward(states[i + 1], states[j]) && Inv(states[j])
    ensures !Renames(states[j], id, true)
  {
    hide Trim, TasksForward, FilesForward, WorkersForward, WellFormed, IdsOk, MapsOk, CountsOk, PublishedOk, PartsOk;
    assert id in states[i + 1].log.cancelled;
    assert CellOk(CellOf(states[j], id));
  }

  lemma PublishedIsNotCancellable(states: seq<State>, steps: seq<Step>, j: nat, i: nat, id: Id)
    requires |states| == |steps| + 1 && j < i < |steps| && Publishes(states, steps, j, id)
    requires Next(states[j], steps[j], states[j + 1]) && Inv(states[j])
    requires Forward(states[j + 1], states[i]) && Inv(states[i])
    ensures !Cancellable(states[i].mem, id)
  {
    hide Trim, TasksForward, FilesForward, WorkersForward, WellFormed, IdsOk, MapsOk, CountsOk, PublishedOk, PartsOk;
    assert id in states[j + 1].log.published;
    assert CellOk(CellOf(states[i], id));
  }

  /** Finished is final: a finished task keeps its status for as long as it is remembered, a
      forgotten task is never remembered again, and under a steady total progress never falls. */
  lemma FinishedIsFinal(states: seq<State>, steps: seq<Step>, i: nat, j: nat, id: Id)
    requires Run(states, steps) && i <= j < |states|
    requires id in states[j].mem.tasks && id <= states[i].mem.next
    ensures id in states[i].mem.tasks
    ensures var t, t' := states[i].mem.tasks[id], states[j].mem.tasks[id];
      && (!t.Active() ==> t'.status == t.status)
      && (Steady(t'.bytesTotal) ==> t.progress <= t'.progress)
      && 0 <= t.progress <= 100
  {
    hide Inv, LogForward, FilesForward, WorkersForward;
    RunForward(states, steps, i, j);
    RunKeepsInv(states, steps, i);
    assert TaskForward(states[i].mem.tasks[id], states[j].mem.tasks[id]);
    ProgressInRange(states[i], id);
  }

  lemma ProgressInRange(s: State, id: Id)
    requires Inv(s) && id in s.mem.tasks
    ensures 0 <= s.mem.tasks[id].progress <= 100
  {
    TaskIsOk(s, id);
  }

  // ----- files -----

  /** The bytes that the reads of task `id` have delivered so far. */
  function BytesRead(steps: seq<Step>, id: Id): seq<Byte> {
    if steps == [] then []
    else
      var last := steps[|steps| - 1];
      BytesRead(steps[..|steps| - 1], id) + if last.Copy? && last.id == id then last.data else []
  }

  lemma StepReceives(s: State, step: Step, s': State, id: Id)
    requires IdsOk(s) && Next(s, step, s') && id in s'.workers && Working(s'.workers[id].phase)
    ensures id in s.workers ==>
              && Working(s.workers[id].phase)
              && s'.workers[id].received
                 == s.workers[id].received + (if step.Copy? && step.id == id then step.data else [])
    ensures id !in s.workers ==> id == s.mem.next + 1 && s'.workers[id].received == [] && step.Registration?
  {
    if step.Copy? {
      CopyReceives(s, step, s', id);
    } else {
      OtherReceives(s, step, s', id);
    }
  }

  lemma CopyReceives(s: State, step: Step, s': State, id: Id)
    requires step.Copy? && Next(s, step, s') && id in s'.workers && Working(s'.workers[id].phase)
    ensures id in s.workers && Working(s.workers[id].phase)
    ensures s'.workers[id].received == s.workers[id].received + (if step.id == id then step.data else [])
  {
    hide AddBytes, Judge, PartOf;
  }

  lemma OtherReceives(s: State, step: Step, s': State, id: Id)
    requires !step.Copy? && IdsOk(s) && Next(s, step, s') && id in s'.workers && Working(s'.workers[id].phase)
    ensures id in s.workers ==> Working(s.workers[id].phase) && s'.workers[id].received == s.workers[id].received
    ensures id !in s.workers ==> id == s.mem.next + 1 && s'.workers[id].received == [] && step.Registration?
  {
    hide Register, RecordSubmitted, CancelRemote, FailTask, CancelTask, Begin, StopCheck, SetTotal, AddBytes, Publish,
         WillRename, MustStop, CanBegin, SizeOf, ContextCancelled, Cancellable, CleanMaps, PartOf;
    match step {
      case Registration(_, _) =>
      case BeginWork(_) => MovedWorker(s, step, s', id);
      case Accept(_, _) => MovedWorker(s, step, s', id);
      case CreatePart(_, _) => MovedWorker(s, step, s', id);
      case EndBody(_) => MovedWorker(s, step, s', id);
      case Check(_, _) => MovedWorker(s, step, s', id);
      case PublishPart(_, _) => PublishReceives(s, step, s', id);
      case BeDone(_) =>
      case _ => OtherWorkers(s, step, s', id);
    }
  }

  /** Publication ends the work of its own worker only. */
  lemma PublishReceives(s: State, step: Step, s': State, id: Id)
    requires step.PublishPart? && Next(s, step, s') && id in s'.workers && Working(s'.workers[id].phase)
    ensures id in s.workers && s'.workers[id] == s.workers[id]
  {
    hide Publish, WillRename, ContextCancelled;
    assert id != step.id && s'.workers == s.workers[step.id := s'.workers[step.id]];
  }

  /** Steps that only move a working worker on. */
  lemma MovedWorker(s: State, step: Step, s': State, id: Id)
    requires step.BeginWork? || step.Accept? || step.CreatePart? || step.EndBody? || step.Check?
    requires Next(s, step, s') && id in s'.workers && Working(s'.workers[id].phase)
    ensures id in s.workers && Working(s.workers[id].phase) && s'.workers[id].received == s.workers[id].received
  {
    hide Begin, StopCheck, SetTotal, MustStop, CanBegin, SizeOf, ContextCancelled, PartOf;
    assert s'.workers == s.workers[step.id := s'.workers[step.id]];
  }

  lemma OtherWorkers(s: State, step: Step, s': State, id: Id)
    requires Next(s, step, s') && id in s'.workers && Working(s'.workers[id].phase)
    requires !step.Copy? && !step.Registration? && !step.BeginWork? && !step.Accept? && !step.CreatePart?
    requires !step.EndBody? && !step.Check? && !step.PublishPart? && !step.BeDone?
    ensures id in s.workers && s'.workers[id] == s.workers[id]
  {
    hide RecordSubmitted, CancelRemote, FailTask, CancelTask, CleanMaps, PartOf;
  }

  lemma {:induction false} ReceivedIsRead(states: seq<State>, steps: seq<Step>, i: nat, id: Id)
    requires Run(states, steps) && i < |states|
    ensures id in states[i].workers && Working(states[i].workers[id].phase) ==>
              states[i].workers[id].received == BytesRead(steps[..i], id)
    ensures id > states[i].mem.next ==> BytesRead(steps[..i], id) == []
  {
    if i > 0 {
      hide Inv, Init, Forward, Next;
      var s, step, s' := states[i - 1], steps[i - 1], states[i];
      ReceivedIsRead(states, steps, i - 1, id);
      assert steps[..i][..|steps[..i]| - 1] == steps[..i - 1];
      RunForward(states, steps, i - 1, i);
      CountersForward(s, s');
      RunKeepsInv(states, steps, i - 1);
      if step.Copy? && step.id == id {
        ReadersExist(s, step, s', id);
      }
      if id in s'.workers && Working(s'.workers[id].phase) {
        InvIds(s);
        StepReceives(s, step, s', id);
      }
    } else {
      assert states[0].workers == map[];
    }
  }

  lemma InvIds(s: State)
    requires Inv(s)
    ensures IdsOk(s)
  {
    hide CellsOk, WellFormed, MapsOk, CountsOk, PublishedOk, PartsOk, IdsOk;
  }

  lemma CountersForward(s: State, s': State)
    requires Forward(s, s')
    ensures s.mem.next <= s'.mem.next
  {
  }

  lemma ReadersExist(s: State, step: Step, s': State, id: Id)
    requires Inv(s) && Next(s, step, s') && step.Copy? && step.id == id
    ensures id <= s.mem.next
  {
    hide CellsOk, WellFormed, MapsOk, CountsOk, PublishedOk, PartsOk;
  }

  /** At every publication the destination does not exist; afterwards it holds exactly the bytes read
      from the response, as many as declared if a size was declared, and it never changes again. */
  lemma PublicationIsExact(states: seq<State>, steps: seq<Step>, i: nat, j: nat, id: Id)
    requires Run(states, steps) && i < j < |states| && i < |steps| && Publishes(states, steps, i, id)
    ensures var w := states[i].workers[id];
      && Final(w.dest) !in states[i].files
      && Final(w.dest) in states[j].files
      && states[j].files[Final(w.dest)] == BytesRead(steps[..i], id)
      && (w.declared > 0 ==> |BytesRead(steps[..i], id)| == w.declared)
  {
    hide Inv, Forward, Init, Next;
    var w := states[i].workers[id];
    RunKeepsInv(states, steps, i);
    RunKeepsInv(states, steps, i + 1);
    DestinationIsFree(states[i], id);
    RenameCell(states[i], id);
    ReceivedIsRead(states, steps, i, id);
    RunForward(states, steps, i + 1, j);
    assert Next(states[i], steps[i], states[i + 1]);
    PublishedFile(states[i], states[i + 1], id);
    FilesStay(states[i + 1], states[j]);
  }

  lemma PublishedFile(s: State, s': State, id: Id)
    requires Inv(s) && Inv(s') && Renames(s, id, true) && Next(s, PublishPart(id, true), s')
    requires s.files[s.workers[id].phase.part] == s.workers[id].received
    ensures var w := s.workers[id];
      && Final(w.dest) in s'.files && s'.files[Final(w.dest)] == w.received
      && (w.declared > 0 ==> |w.received| == w.declared)
  {
    hide Publish, WellFormed, IdsOk, MapsOk, CountsOk, PublishedOk, PartsOk, WillRename, ContextCancelled;
    assert CellOk(CellOf(s', id));
  }

  lemma FilesStay(s: State, s': State)
    requires Forward(s, s')
    ensures FilesForward(s.files, s'.files)
  {
    hide TasksForward, LogForward, WorkersForward, FilesForward;
  }

  /** The task of a publication is complete: 100 percent, and both byte counts equal the file's length. */
  lemma PublishedTaskIsExact(states: seq<State>, steps: seq<Step>, i: nat, id: Id)
    requires Run(states, steps) && i < |steps| && Publishes(states, steps, i, id)
    ensures id in states[i + 1].mem.tasks
    ensures var t := states[i + 1].mem.tasks[id];
      && t.status == Completed && t.progress == 100
      && t.bytesCopied == t.bytesTotal == |BytesRead(steps[..i], id)|
  {
    hide Inv, Init, Next;
    RunKeepsInv(states, steps, i);
    RunKeepsInv(states, steps, i + 1);
    ReceivedIsRead(states, steps, i, id);
    assert Next(states[i], steps[i], states[i + 1]);
    CompletedTask(states[i], states[i + 1], id);
  }

  lemma CompletedTask(s: State, s': State, id: Id)
    requires Inv(s) && Inv(s') && Renames(s, id, true) && Next(s, PublishPart(id, true), s')
    ensures id in s'.mem.tasks
    ensures var t := s'.mem.tasks[id];
      t.status == Completed && t.progress == 100 && t.bytesCopied == t.bytesTotal == |s.workers[id].received|
  {
    hide Publish, WellFormed, IdsOk, MapsOk, CountsOk, PublishedOk, PartsOk;
    RenameCell(s, id);
    assert CellOk(CellOf(s', id));
  }

  /** Different publications have different tasks and different destinations. */
  lemma PublicationsAreDistinct(states: seq<State>, steps: seq<Step>, i: nat, j: nat, id: Id, other: Id)
    requires Run(states, steps) && i < j < |steps|
    requires Publishes(states, steps, i, id) && Publishes(states, steps, j, other)
    ensures id != other && states[i].workers[id].dest != states[j].workers[other].dest
  {
    PublicationIsExact(states, steps, i, j, id);
    hide Inv, Forward, Init, Next;
    RunKeepsInv(states, steps, j);
    DestinationIsFree(states[j], other);
    RunKeepsInv(states, steps, i);
    RunForward(states, steps, i + 1, j);
    StillPublished(states[i], states[i + 1], states[j], id) by {
      assert Next(states[i], steps[i], states[i + 1]);
    }
  }

  lemma StillPublished(s: State, s1: State, s2: State, id: Id)
    requires Inv(s) && Renames(s, id, true) && Next(s, PublishPart(id, true), s1) && Forward(s1, s2)
    ensures id in s2.log.published
  {
    hide Inv, TasksForward, FilesForward, WorkersForward;
    assert id in s1.log.published;
  }

  // ----- resources -----

  /** In every reachable state: the three slots are exactly accounted for, cancel functions and
      reservations match the workers that have not cleaned up, the wait group counts the workers,
      every queued or running task has such a worker, and at most a hundred tasks are remembered. */
  lemma ResourcesAreAccountedFor(states: seq<State>, steps: seq<Step>, i: nat)
    requires Run(states, steps) && i < |states|
    ensures var s := states[i];
      && s.mem.slots == s.starters + s.refused + |SlotHolders(s.workers)| <= MAX_REMOTE_DOWNLOADS
      && s.mem.cancels == UncleanedIds(s.workers)
      && s.mem.reservations == (set id | id in UncleanedIds(s.workers) :: s.workers[id].dest)
      && (forall a, b :: a in UncleanedIds(s.workers) && b in UncleanedIds(s.workers) && a != b ==>
            s.workers[a].dest != s.workers[b].dest)
      && s.mem.waitGroup == |s.workers|
      && ActiveIds(s.mem.tasks) <= UncleanedIds(s.workers)
      && |s.mem.order| <= MAX_REMEMBERED_TASKS
      && NoDuplicates(s.mem.order) && Elements(s.mem.order) == s.mem.tasks.Keys
  {
    hide Init, Next, CellsOk, IdsOk, PublishedOk, PartsOk;
    RunKeepsInv(states, steps, i);
    FewActive(states[i]);
  }

  // ----- shutdown -----

  /** Once Shutdown can return nil, and for ever after: no worker, cancel function or reservation is
      left, every task is finished, every temporary file left is one whose removal failed, and no
      download is registered or published any more. */
  lemma ShutdownIsComplete(states: seq<State>, steps: seq<Step>, i: nat, j: nat)
    requires Run(states, steps) && i <= j < |states| && states[i].done
    ensures var s := states[j];
      && s.workers == map[] && s.mem.cancels == {} && s.mem.reservations == {} && s.mem.waitGroup == 0
      && (forall id <- s.mem.tasks :: !s.mem.tasks[id].Active())
      && (forall p <- s.files :: p.Part? ==> p in s.log.leaked)
    ensures j < |steps| ==> !steps[j].Registration?
    ensures j < |steps| ==> forall id :: !Publishes(states, steps, j, id)
  {
    hide Inv, Forward, Init;
    RunForward(states, steps, i, j);
    RunKeepsInv(states, steps, j);
    DoneStays(states[i], states[j]);
    DrainedState(states[j]);
    if j < |steps| {
      assert Next(states[j], steps[j], states[j + 1]);
    }
  }

  lemma DoneStays(s: State, s': State)
    requires s.done && Forward(s, s')
    ensures s'.done
  {
  }

  lemma DrainedState(s: State)
    requires Inv(s) && s.done
    ensures s.mem.closed && s.mem.waitGroup == 0 && s.workers == map[]
    ensures s.mem.cancels == {} && s.mem.reservations == {}
    ensures forall id <- s.mem.tasks :: !s.mem.tasks[id].Active()
    ensures forall p <- s.files :: p.Part? ==> p in s.log.leaked
  {
    hide IdsOk, WellFormed, PublishedOk;
    assert s.workers == map[];
    FewActive(s);
    hide CellsOk;
    assert UncleanedIds(s.workers) == {};
    forall id | id in s.mem.tasks
      ensures !s.mem.tasks[id].Active()
    {
      assert id !in ActiveIds(s.mem.tasks);
    }
  }

  /** The wait group never grows once the service is closed. */
  lemma NoRegistrationAfterClose(states: seq<State>, steps: seq<Step>, i: nat, j: nat)
    requires Run(states, steps) && i < j < |steps| && steps[i] == Close
    ensures !steps[j].Registration? && states[j + 1].mem.waitGroup <= states[j].mem.waitGroup
  {
    hide Inv, Init, LogForward, FilesForward, WorkersForward;
    RunForward(states, steps, i + 1, j);
    assert Next(states[i], steps[i], states[i + 1]);
    assert Next(states[j], steps[j], states[j + 1]);
    WaitGroupGrowsOnlyByRegistration(states[j], steps[j], states[j + 1]);
  }

  lemma WaitGroupGrowsOnlyByRegistration(s: State, step: Step, s': State)
    requires Next(s, step, s') && !step.Registration?
    ensures s'.mem.waitGroup <= s.mem.waitGroup
  {
    hide TrimGone, Without, Progress, Judge, MustStop, SizeOf, ContextCancelled, PartOf;
    match step
    case Copy(_, _, _, _) =>
    case PublishPart(_, _) =>
    case Check(_, _) =>
    case Accept(_, _) =>
    case Fail(_, _) =>
    case Stop(_) =>
    case Cancel(_) =>
    case Submit(_) =>
    case BeginWork(_) =>
    case Clean(_) =>
    case _ =>
  }
}
