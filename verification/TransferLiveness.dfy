/** Workers always have something to do, and a shutdown can always be brought to its end. */
module TransferLiveness {
  import opened Prelude
  import opened TransferModel
  import opened TransferMachine
  import opened TransferInvariant
  import opened TransferSteps
  import opened TransferRuns

  // ----- every worker has a step -----

  /** The next step of a worker, whatever its phase, if nothing outside it fails: a response arrives, a
      temporary file named `serial` is created, the body ends. The clean-up steps never block. */
  function NextOf(w: Worker, id: Id, serial: nat): Step {
    match w.phase
    case Registered => BeginWork(id)
    case Requested => Accept(id, None)
    case Opening(_) => CreatePart(id, serial)
    case Streaming(_, _) => EndBody(id)
    case Finishing(size, _, checks) =>
      if checks == 4 then PublishPart(id, true)
      else if checks == 1 && size.Some? && w.copied != size.value then GiveUp(id)
      else Check(id, false)
    case Failing(_) => Fail(id, "")
    case Returning(_) => RemovePart(id, true)
    case CleaningUp => Clean(id)
    case Cleaned => ReturnSlot(id)
    case SlotReturned => BeDone(id)
  }

  /** No worker of a reachable state is ever stuck: it always has a step of its own to take. */
  lemma WorkersNeverStick(states: seq<State>, steps: seq<Step>, i: nat, id: Id) returns (serial: nat)
    requires Run(states, steps) && i < |states| && id in states[i].workers
    ensures exists s' :: Next(states[i], NextOf(states[i].workers[id], id, serial), s')
  {
    hide Init;
    RunKeepsInv(states, steps, i);
    serial := LargerSerial(states[i].files.Keys, 0);
    StepIsEnabled(states[i], id, serial);
  }

  /** A number above all those in use. */
  lemma {:induction false} LargerSerial(files: set<Path>, n: nat) returns (serial: nat)
    ensures serial > n && Part(serial) !in files
    decreases files
  {
    if p :| p in files && p.Part? && p.serial > n {
      serial := LargerSerial(files - {p}, p.serial);
    } else {
      serial := n + 1;
    }
  }

  /** A worker that holds a slot or the wait group is counted there. */
  lemma CountsAllow(s: State, id: Id)
    requires CountsOk(s) && id in s.workers
    ensures HoldsSlot(s.workers[id]) ==> s.mem.slots >= 1
    ensures s.mem.waitGroup >= 1
  {
    SubsetSize({id}, s.workers.Keys);
    if HoldsSlot(s.workers[id]) {
      SubsetSize({id}, SlotHolders(s.workers));
    }
  }

  lemma StepIsEnabled(s: State, id: Id, serial: nat)
    requires Inv(s) && id in s.workers && Part(serial) !in s.files
    ensures exists s' :: Next(s, NextOf(s.workers[id], id, serial), s')
  {
    hide IdsOk, WellFormed, MapsOk, PublishedOk, PartsOk;
    assert CellOk(CellOf(s, id));
    PartsExist(s, id);
    CountsAllow(s, id);
    hide CellsOk, CountsOk;
    var step := NextOf(s.workers[id], id, serial);
    match s.workers[id].phase
    case Registered => assert Next(s, step, DoBegin(s, id));
    case Requested => assert Next(s, step, DoAccept(s, id, None));
    case Opening(_) => assert Next(s, step, DoCreatePart(s, id, serial));
    case Streaming(_, _) => assert Next(s, step, DoEndBody(s, id));
    case Finishing(size, _, checks) =>
      if checks == 4 {
        assert Next(s, step, DoPublish(s, id, true));
      } else if checks == 1 && size.Some? && s.workers[id].copied != size.value {
        assert Next(s, step, DoGiveUp(s, id));
      } else {
        assert Next(s, step, DoCheck(s, id, false));
      }
    case Failing(_) => assert Next(s, step, DoFail(s, id, ""));
    case Returning(_) => assert Next(s, step, DoRemovePart(s, id, true));
    case CleaningUp => assert Next(s, step, DoClean(s, id));
    case Cleaned => assert Next(s, step, DoReturnSlot(s, id));
    case SlotReturned => assert Next(s, step, DoDone(s, id));
  }

  // ----- a shutdown comes to its end -----

  /** What a worker does once its context is cancelled: requests and reads fail for that reason, checks
      see it, and clean-up follows. Nothing else has to fail or to succeed, but for the creation of the
      temporary file a worker is about to create. */
  function DrainStep(w: Worker, id: Id, serial: nat): Step {
    match w.phase
    case Registered => BeginWork(id)
    case Requested => Stop(id)
    case Opening(_) => CreatePart(id, serial)
    case Streaming(_, _) => Stop(id)
    case Finishing(size, _, checks) =>
      if checks == 4 then PublishPart(id, false)
      else if checks == 1 && size.Some? && w.copied != size.value then GiveUp(id)
      else Check(id, true)
    case Failing(_) => Fail(id, "")
    case Returning(_) => RemovePart(id, true)
    case CleaningUp => Clean(id)
    case Cleaned => ReturnSlot(id)
    case SlotReturned => BeDone(id)
  }

  /** How far a worker is from being done. */
  function Rank(phase: Phase): (rank: nat) {
    match phase
    case Registered => 10
    case Requested => 9
    case Opening(_) => 8
    case Streaming(_, _) => 7
    case Finishing(_, _, _) => 6
    case Failing(_) => 5
    case Returning(_) => 4
    case CleaningUp => 3
    case Cleaned => 2
    case SlotReturned => 1
  }

  /** The worker has come nearer to its end, and nobody else has moved. */
  predicate Nearer(s: State, s': State, id: Id) {
    && s'.workers - {id} == s.workers - {id}
    && (s.rootCancelled ==> s'.rootCancelled) && s.contexts <= s'.contexts
    && id in s.workers && (id in s'.workers ==> Rank(s'.workers[id].phase) < Rank(s.workers[id].phase))
  }

  lemma Drains(s: State, id: Id, serial: nat) returns (s': State)
    requires Inv(s) && ContextCancelled(s, id) && id in s.workers && Part(serial) !in s.files
    ensures Next(s, DrainStep(s.workers[id], id, serial), s') && Nearer(s, s', id)
  {
    assert CellOk(CellOf(s, id));
    PartsExist(s, id);
    CountsAllow(s, id);
    hide Inv, Next, DrainStep, Nearer, CellOk, CellOf;
    if s.workers[id].phase.Finishing? {
      s' := DrainsFinishing(s, id, serial);
    } else if Working(s.workers[id].phase) {
      s' := DrainsWork(s, id, serial);
    } else {
      s' := DrainsCleanUp(s, id, serial);
    }
  }

  lemma DrainsWork(s: State, id: Id, serial: nat) returns (s': State)
    requires ContextCancelled(s, id) && id in s.workers && Part(serial) !in s.files
    requires Working(s.workers[id].phase) && !s.workers[id].phase.Finishing?
    ensures Next(s, DrainStep(s.workers[id], id, serial), s') && Nearer(s, s', id)
  {
    hide CancelTask, Begin;
    match s.workers[id].phase
    case Registered => s' := DoBegin(s, id);
    case Requested => s' := DoStop(s, id);
    case Opening(_) => s' := DoCreatePart(s, id, serial);
    case Streaming(_, _) => s' := DoStop(s, id);
  }

  lemma DrainsFinishing(s: State, id: Id, serial: nat) returns (s': State)
    requires ContextCancelled(s, id) && id in s.workers && s.workers[id].phase.Finishing?
    requires CellOk(CellOf(s, id)) && s.workers[id].phase.part in s.files
    ensures Next(s, DrainStep(s.workers[id], id, serial), s') && Nearer(s, s', id)
  {
    var Finishing(size, _, checks) := s.workers[id].phase;
    assert checks <= 4;
    hide CellOk, CellOf, Publish, StopCheck;
    if checks == 4 {
      s' := DoPublish(s, id, false);
    } else if checks == 1 && size.Some? && s.workers[id].copied != size.value {
      s' := DoGiveUp(s, id);
    } else {
      s' := DoCheck(s, id, true);
    }
  }

  lemma DrainsCleanUp(s: State, id: Id, serial: nat) returns (s': State)
    requires id in s.workers && !Working(s.workers[id].phase)
    requires HoldsSlot(s.workers[id]) ==> s.mem.slots >= 1
    requires s.mem.waitGroup >= 1
    ensures Next(s, DrainStep(s.workers[id], id, serial), s') && Nearer(s, s', id)
  {
    hide FailTask, CleanMaps;
    match s.workers[id].phase
    case Failing(_) => s' := DoFail(s, id, "");
    case Returning(_) => s' := DoRemovePart(s, id, true);
    case CleaningUp => s' := DoClean(s, id);
    case Cleaned => s' := DoReturnSlot(s, id);
    case SlotReturned => s' := DoDone(s, id);
  }

  /** A run and one more step. */
  lemma Extend(states: seq<State>, steps: seq<Step>, step: Step, s': State)
    requires Run(states, steps) && Next(states[|steps|], step, s')
    ensures Run(states + [s'], steps + [step])
  {
    hide Next, Init;
  }

  /** Step `k` belongs to the shutdown: it cancels the root context, takes a worker to its end, or finds that
      all are done. */
  ghost predicate IsShutdownStep(states: seq<State>, steps: seq<Step>, k: nat)
    requires k < |steps| < |states|
  {
    || steps[k] == CancelRoot || steps[k] == FinishShutdown
    || exists id, serial ::
         id in states[k].workers && Part(serial) !in states[k].files
         && steps[k] == DrainStep(states[k].workers[id], id, serial)
  }

  /** A run that goes on with shutdown steps only. */
  ghost predicate ShutsDown(states: seq<State>, steps: seq<Step>, states': seq<State>, steps': seq<Step>) {
    && Run(states', steps') && states <= states' && steps <= steps'
    && forall k :: |steps| <= k < |steps'| ==> IsShutdownStep(states', steps', k)
  }

  lemma ShutsDownExtend(states: seq<State>, steps: seq<Step>, states1: seq<State>, steps1: seq<Step>, step: Step,
                        s': State)
    requires ShutsDown(states, steps, states1, steps1) && Next(states1[|steps1|], step, s')
    requires IsShutdownStep(states1 + [s'], steps1 + [step], |steps1|)
    ensures ShutsDown(states, steps, states1 + [s'], steps1 + [step])
  {
    hide Next, Init, DrainStep;
    Extend(states1, steps1, step, s');
    var states2, steps2 := states1 + [s'], steps1 + [step];
    forall k | |steps| <= k < |steps2| ensures IsShutdownStep(states2, steps2, k) {
      if k < |steps1| {
        assert IsShutdownStep(states1, steps1, k);
        assert states2[k] == states1[k] && steps2[k] == steps1[k];
      }
    }
  }

  /** One worker is taken to its end. */
  lemma {:induction false} DrainWorker(states: seq<State>, steps: seq<Step>, states1: seq<State>, steps1: seq<Step>,
                                       id: Id)
    returns (states2: seq<State>, steps2: seq<Step>)
    requires ShutsDown(states, steps, states1, steps1)
    requires states1[|steps1|].rootCancelled && id in states1[|steps1|].workers
    ensures ShutsDown(states, steps, states2, steps2)
    ensures states2[|steps2|].rootCancelled
    ensures states2[|steps2|].workers == states1[|steps1|].workers - {id}
    decreases Rank(states1[|steps1|].workers[id].phase)
  {
    hide Inv, Init, Next, DrainStep, Rank;
    var s := states1[|steps1|];
    RunKeepsInv(states1, steps1, |steps1|);
    var serial := LargerSerial(s.files.Keys, 0);
    var s' := Drains(s, id, serial);
    var step := DrainStep(s.workers[id], id, serial);
    states2, steps2 := states1 + [s'], steps1 + [step];
    assert states2[|steps1|] == s && steps2[|steps1|] == step;
    assert IsShutdownStep(states2, steps2, |steps1|);
    ShutsDownExtend(states, steps, states1, steps1, step, s');
    if id in s'.workers {
      states2, steps2 := DrainWorker(states, steps, states2, steps2, id);
      assert states2[|steps2|].workers == s'.workers - {id} == s.workers - {id};
    } else {
      assert s'.workers == s'.workers - {id} == s.workers - {id};
    }
  }

  lemma {:induction false} DrainAll(states: seq<State>, steps: seq<Step>, states1: seq<State>, steps1: seq<Step>)
    returns (states2: seq<State>, steps2: seq<Step>)
    requires ShutsDown(states, steps, states1, steps1) && states1[|steps1|].rootCancelled
    ensures ShutsDown(states, steps, states2, steps2)
    ensures states2[|steps2|].rootCancelled && states2[|steps2|].workers == map[]
    decreases |states1[|steps1|].workers|
  {
    hide Inv, Init, Next, IsShutdownStep;
    states2, steps2 := states1, steps1;
    var ws := states1[|steps1|].workers;
    if ws != map[] {
      var id :| id in ws;
      states2, steps2 := DrainWorker(states, steps, states1, steps1, id);
      assert |ws - {id}| < |ws| by {
        assert (ws - {id}).Keys == ws.Keys - {id};
      }
      states2, steps2 := DrainAll(states, steps, states2, steps2);
    }
  }

  /** Every shutdown can be brought to its end: from every reachable state in which the service is closed, the
      run goes on with nothing but shutdown steps to a state in which Shutdown returns nil. */
  lemma ShutdownCanFinish(states: seq<State>, steps: seq<Step>)
    returns (states': seq<State>, steps': seq<Step>)
    requires Run(states, steps) && states[|steps|].mem.closed
    ensures ShutsDown(states, steps, states', steps') && states'[|steps'|].done
  {
    hide Inv, Init, DrainStep;
    var s := states[|steps|];
    var cancelled := DoCancelRoot(s);
    assert Next(s, CancelRoot, cancelled);
    assert ShutsDown(states, steps, states, steps);
    ShutsDownExtend(states, steps, states, steps, CancelRoot, cancelled);
    states', steps' := DrainAll(states, steps, states + [cancelled], steps + [CancelRoot]);
    var last := states'[|steps'|];
    RunKeepsInv(states', steps', |steps'|);
    NobodyWaits(last);
    var done := DoFinishShutdown(last);
    assert Next(last, FinishShutdown, done);
    ShutsDownExtend(states, steps, states', steps', FinishShutdown, done);
    states', steps' := states' + [done], steps' + [FinishShutdown];
  }

  lemma NobodyWaits(s: State)
    requires Inv(s) && s.workers == map[]
    ensures s.mem.waitGroup == 0
  {
    hide CellsOk, IdsOk, WellFormed, MapsOk, PublishedOk, PartsOk;
  }

  // ----- a cancelled download comes to its end -----

  /** The run goes on with the call of the cancel function and with steps of that worker only. */
  ghost predicate Unwinds(states: seq<State>, steps: seq<Step>, states': seq<State>, steps': seq<Step>, id: Id) {
    && Run(states', steps') && states <= states' && steps <= steps'
    && forall k :: |steps| <= k < |steps'| ==> IsUnwinding(states', steps', k, id)
  }

  ghost predicate IsUnwinding(states: seq<State>, steps: seq<Step>, k: nat, id: Id)
    requires k < |steps| < |states|
  {
    || steps[k] == CallCancel(id)
    || (id in states[k].workers && exists serial :: steps[k] == DrainStep(states[k].workers[id], id, serial))
  }

  lemma UnwindsExtend(states: seq<State>, steps: seq<Step>, states1: seq<State>, steps1: seq<Step>, step: Step,
                      s': State, id: Id)
    requires Unwinds(states, steps, states1, steps1, id) && Next(states1[|steps1|], step, s')
    requires IsUnwinding(states1 + [s'], steps1 + [step], |steps1|, id)
    ensures Unwinds(states, steps, states1 + [s'], steps1 + [step], id)
  {
    hide Next, Init, DrainStep;
    Extend(states1, steps1, step, s');
    var states2, steps2 := states1 + [s'], steps1 + [step];
    forall k | |steps| <= k < |steps2| ensures IsUnwinding(states2, steps2, k, id) {
      if k < |steps1| {
        assert IsUnwinding(states1, steps1, k, id);
        assert states2[k] == states1[k] && steps2[k] == steps1[k];
      }
    }
  }

  lemma {:induction false} UnwindWorker(states: seq<State>, steps: seq<Step>, states1: seq<State>, steps1: seq<Step>,
                                        id: Id)
    returns (states2: seq<State>, steps2: seq<Step>)
    requires Unwinds(states, steps, states1, steps1, id)
    requires ContextCancelled(states1[|steps1|], id) && id in states1[|steps1|].workers
    ensures Unwinds(states, steps, states2, steps2, id)
    ensures states2[|steps2|].workers == states1[|steps1|].workers - {id}
    decreases Rank(states1[|steps1|].workers[id].phase)
  {
    hide Inv, Init, Next, DrainStep, Rank;
    var s := states1[|steps1|];
    RunKeepsInv(states1, steps1, |steps1|);
    var serial := LargerSerial(s.files.Keys, 0);
    var s' := Drains(s, id, serial);
    var step := DrainStep(s.workers[id], id, serial);
    states2, steps2 := states1 + [s'], steps1 + [step];
    assert states2[|steps1|] == s && steps2[|steps1|] == step;
    assert IsUnwinding(states2, steps2, |steps1|, id);
    UnwindsExtend(states, steps, states1, steps1, step, s', id);
    if id in s'.workers {
      states2, steps2 := UnwindWorker(states, steps, states2, steps2, id);
      assert states2[|steps2|].workers == s'.workers - {id} == s.workers - {id};
    } else {
      assert s'.workers == s'.workers - {id} == s.workers - {id};
    }
  }

  /** A successful cancellation gets the worker to its end: from every reachable state after it the run goes on,
      with the call of the cancel function and steps of that worker alone, to a state without the worker. */
  lemma CancelledWorkerCanFinish(states: seq<State>, steps: seq<Step>, id: Id)
    returns (states': seq<State>, steps': seq<Step>)
    requires Run(states, steps) && id in states[|steps|].log.cancelled && id in states[|steps|].workers
    ensures Unwinds(states, steps, states', steps', id)
    ensures states'[|steps'|].workers == states[|steps|].workers - {id}
  {
    hide Inv, Init, DrainStep;
    var s := states[|steps|];
    var called := DoCallCancel(s, id);
    assert Next(s, CallCancel(id), called);
    assert Unwinds(states, steps, states, steps, id);
    UnwindsExtend(states, steps, states, steps, CallCancel(id), called, id);
    hide Next;
    states', steps' := UnwindWorker(states, steps, states + [called], steps + [CallCancel(id)], id);
  }
}
