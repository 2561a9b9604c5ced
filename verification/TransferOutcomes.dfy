/** What becomes of a download: cancelling takes effect while it can, every status has its reason, and a
    download that nothing disturbs ends with its file in place. */
module TransferOutcomes {
  import opened Prelude
  import opened HistoryTrim
  import opened TransferStream
  import opened TransferModel
  import opened TransferMachine
  import opened TransferInvariant
  import opened TransferSteps
  import opened TransferRuns
  import opened TransferGuarantees
  import opened TransferLiveness

  // ----- cancelling -----

  /** The record is remembered, queued or running. */
  predicate Underway(m: Memory, id: Id) {
    id in m.tasks && (m.tasks[id].status == Queued || m.tasks[id].status == Running)
  }

  lemma CancelStep(s: State, id: Id)
    requires WellFormed(s.mem) && id in s.mem.cancels && Underway(s.mem, id)
    ensures var s' := DoCancel(s, id);
      && id in s'.log.cancelled && id in s'.mem.tasks
      && s'.mem.tasks[id] == s.mem.tasks[id].(status := Cancelled, error := "")
  {
    hide Trim, WellFormed;
    CancelRewrites(s.mem, id);
  }

  lemma InvMemory(s: State)
    requires Inv(s)
    ensures WellFormed(s.mem)
  {
    hide CellsOk, IdsOk, MapsOk, CountsOk, PublishedOk, PartsOk, WellFormed;
  }

  /** A cancellation succeeds exactly while the task is queued or running, in every reachable state, and then it
      is recorded at once; at any other time it changes nothing. */
  lemma CancelTakesEffect(states: seq<State>, steps: seq<Step>, i: nat, id: Id)
    requires Run(states, steps) && i < |steps| && steps[i] == Cancel(id)
    ensures CancelSucceeds(states, steps, i, id) <==> Underway(states[i].mem, id)
    ensures if Underway(states[i].mem, id) then
              && id in states[i + 1].log.cancelled && id in states[i + 1].mem.tasks
              && states[i + 1].mem.tasks[id] == states[i].mem.tasks[id].(status := Cancelled, error := "")
            else states[i + 1] == states[i]
  {
    hide Inv, Init, CellsOk, CountsOk;
    var s := states[i];
    assert Next(s, steps[i], states[i + 1]);
    RunKeepsInv(states, steps, i);
    ResourcesAreAccountedFor(states, steps, i);
    if Underway(s.mem, id) {
      assert id in ActiveIds(s.mem.tasks);
      InvMemory(s);
      CancelStep(s, id);
    }
  }

  // ----- why a task has its status -----

  /** The only reasons for a task to enter the records or to change its status. */
  ghost predicate StatusReason(s: State, step: Step, s': State, id: Id)
    requires id in s'.mem.tasks
  {
    var now := s'.mem.tasks[id].status;
    if id !in s.mem.tasks then
      || (now == Queued && step.Registration? && id in s'.workers && s'.workers[id].phase == Registered)
      || (now == Submitted && step.Submit?)
    else
      var was := s.mem.tasks[id].status;
      || now == was
      || (now == Running && was == Queued && step == BeginWork(id))
      || (now == Cancelled && s.mem.tasks[id].Active()
          && (step == Cancel(id) || (step.Check? && step.id == id && step.saw) || step == Stop(id)
              || (step.PublishPart? && step.id == id))
          && (step == Cancel(id) || ContextCancelled(s, id)))
      || (now == Failed && s.mem.tasks[id].Active() && step.Fail? && step.id == id
          && s'.mem.tasks[id].error == step.error)
      || (now == Completed && was == Running && step == PublishPart(id, true) && Renames(s, id, true))
  }

  /** Which id a step may rewrite. */
  function Subject(step: Step): Option<Id> {
    match step
    case Cancel(id) => Some(id)
    case BeginWork(id) => Some(id)
    case Accept(id, _) => Some(id)
    case Copy(id, _, _, _) => Some(id)
    case Check(id, _) => Some(id)
    case PublishPart(id, _) => Some(id)
    case Fail(id, _) => Some(id)
    case Stop(id) => Some(id)
    case _ => None
  }

  lemma NewRecords(s: State, step: Step, s': State, id: Id)
    requires WellFormed(s.mem) && Next(s, step, s') && (step.Registration? || step.Submit?) && id in s'.mem.tasks
    ensures StatusReason(s, step, s', id)
  {
    var t := if step.Registration? then Task(step.dest, Queued, "", Max(step.declared, 0), 0, 0)
             else Task(step.dest, Submitted, "", 0, 0, 0);
    var grown := s.mem.(next := s.mem.next + 1, tasks := s.mem.tasks[s.mem.next + 1 := t],
                        order := [s.mem.next + 1] + s.mem.order);
    hide TrimGone, Without;
    assert s'.mem.tasks.Keys <= grown.tasks.Keys;
    assert s'.mem.tasks[id] == grown.tasks[id];
  }

  lemma RewriteReason(s: State, step: Step, s': State, id: Id)
    requires WellFormed(s.mem) && Next(s, step, s') && Subject(step) == Some(id) && id in s'.mem.tasks
    ensures id in s.mem.tasks && StatusReason(s, step, s', id)
  {
    hide WellFormed, CancelRemote, CancelTask, FailTask, Begin, SetTotal, AddBytes, Publish, SizeOf, Judge, Evolves;
    match step
    case Cancel(_) => CancelRewrites(s.mem, id); EvolvesKeys(s.mem, s'.mem, id);
    case BeginWork(_) => BeginRewrites(s.mem, id); EvolvesKeys(s.mem, s'.mem, id);
    case Accept(_, length) => AcceptReason(s, id, length);
    case Copy(_, data, accept, error) => CopyReason(s, id, data, accept, error);
    case Check(_, saw) => CancelRewrites(s.mem, id); EvolvesNot(s.mem, id); EvolvesKeys(s.mem, s'.mem, id);
    case PublishPart(_, renamed) => PublishReason(s, id, renamed);
    case Fail(_, error) => FailRewrites(s.mem, id, error); EvolvesKeys(s.mem, s'.mem, id);
    case Stop(_) => CancelRewrites(s.mem, id); EvolvesKeys(s.mem, s'.mem, id);
  }

  lemma EvolvesKeys(m: Memory, m': Memory, id: Id)
    requires Evolves(m, m', id)
    ensures id in m.tasks <==> id in m'.tasks
  {
    hide WellFormed;
  }

  lemma AcceptReason(s: State, id: Id, length: Option<nat>)
    requires WellFormed(s.mem) && CanAccept(s, id, length) && id in DoAccept(s, id, length).mem.tasks
    ensures id in s.mem.tasks && DoAccept(s, id, length).mem.tasks[id].status == s.mem.tasks[id].status
  {
    hide WellFormed, SetTotal;
    var size := SizeOf(s.workers[id].declared, length);
    if size.Some? {
      TotalRewrites(s.mem, id, size.value);
    }
  }

  lemma CopyReason(s: State, id: Id, data: Chunk, accept: nat, error: bool)
    requires WellFormed(s.mem) && CanCopy(s, id, data) && id in DoCopy(s, id, data, accept, error).mem.tasks
    ensures id in s.mem.tasks && DoCopy(s, id, data, accept, error).mem.tasks[id].status == s.mem.tasks[id].status
  {
    hide WellFormed, AddBytes, Judge;
    var v := Judge(s.workers[id].copied, s.workers[id].phase.size, data, accept, error);
    if v.Stored? {
      BytesRewrites(s.mem, id, v.written);
    }
  }

  lemma PublishReason(s: State, id: Id, renamed: bool)
    requires WellFormed(s.mem) && CanPublish(s, id) && id in DoPublish(s, id, renamed).mem.tasks
    ensures id in s.mem.tasks && StatusReason(s, PublishPart(id, renamed), DoPublish(s, id, renamed), id)
  {
    var saw := ContextCancelled(s, id);
    PublishRewrites(s.mem, id, saw, renamed);
    hide WellFormed, Publish;
  }

  /** A step that rewrites one task leaves the others alone, or forgets them. */
  lemma SubjectEvolves(s: State, step: Step, s': State, j: Id)
    requires WellFormed(s.mem) && Next(s, step, s') && Subject(step) == Some(j)
    ensures Evolves(s.mem, s'.mem, j)
  {
    hide WellFormed, Evolves, CancelRemote, CancelTask, FailTask, Begin, SetTotal, AddBytes, Publish, SizeOf, Judge,
         MustStop, PartOf, ContextCancelled, WillRename;
    match step
    case Cancel(_) => CancelRewrites(s.mem, j);
    case BeginWork(_) => BeginRewrites(s.mem, j);
    case Accept(_, length) =>
      EvolvesNot(s.mem, j);
      var size := SizeOf(s.workers[j].declared, length);
      if size.Some? {
        TotalRewrites(s.mem, j, size.value);
      }
    case Copy(_, data, accept, error) =>
      EvolvesNot(s.mem, j);
      var v := Judge(s.workers[j].copied, s.workers[j].phase.size, data, accept, error);
      if v.Stored? {
        BytesRewrites(s.mem, j, v.written);
      }
    case Check(_, saw) => EvolvesNot(s.mem, j); CancelRewrites(s.mem, j);
    case PublishPart(_, renamed) => PublishRewrites(s.mem, j, ContextCancelled(s, j), renamed);
    case Fail(_, error) => FailRewrites(s.mem, j, error);
    case Stop(_) => CancelRewrites(s.mem, j);
  }

  lemma NoSubject(s: State, step: Step, s': State)
    requires Next(s, step, s') && Subject(step).None? && !step.Registration? && !step.Submit?
    ensures s'.mem.tasks == s.mem.tasks && s'.mem.order == s.mem.order
  {
    hide PartOf;
  }

  lemma OtherReason(s: State, step: Step, s': State, id: Id)
    requires WellFormed(s.mem) && Next(s, step, s') && !step.Registration? && !step.Submit?
    requires Subject(step) != Some(id) && id in s'.mem.tasks
    ensures id in s.mem.tasks && s'.mem.tasks[id] == s.mem.tasks[id]
  {
    hide Next, WellFormed;
    if Subject(step).None? {
      NoSubject(s, step, s');
    } else {
      SubjectEvolves(s, step, s', Subject(step).value);
    }
  }

  /** Every record and every change of a status has its reason. */
  lemma EveryStatusHasAReason(states: seq<State>, steps: seq<Step>, i: nat, id: Id)
    requires Run(states, steps) && i < |steps| && id in states[i + 1].mem.tasks
    ensures StatusReason(states[i], steps[i], states[i + 1], id)
  {
    var s, step, s' := states[i], steps[i], states[i + 1];
    assert Next(s, step, s');
    RunKeepsInv(states, steps, i);
    InvMemory(s);
    hide Inv, Init, Next, WellFormed, Run;
    if step.Registration? || step.Submit? {
      NewRecords(s, step, s', id);
    } else if Subject(step) == Some(id) {
      RewriteReason(s, step, s', id);
    } else {
      OtherReason(s, step, s', id);
    }
  }

  // ----- when a worker goes on -----

  lemma WorkerCell(s: State, id: Id)
    requires Inv(s) && id in s.workers
    ensures id in s.mem.tasks ==>
              PhaseOk(s.workers[id], s.mem.tasks[id])
              && TaskOk(s.mem.tasks[id], Lookup(s.log.published, id), id in s.log.cancelled)
  {
    hide IdsOk, WellFormed, MapsOk, CountsOk, PublishedOk, PartsOk, TaskOk, PhaseOk, WorkerOk, PublicationOk;
    assert CellOk(CellOf(s, id));
  }

  /** A worker begins, passes a stop check and puts its file in place if and only if its task is still under way
      and its context was not seen cancelled; a cancelled or forgotten task is never worked on. */
  lemma WorkerGoesOnIff(states: seq<State>, steps: seq<Step>, i: nat, id: Id)
    requires Run(states, steps) && i < |steps|
    ensures steps[i] == BeginWork(id) ==>
              id in states[i + 1].workers
              && (states[i + 1].workers[id].phase == Requested <==> Underway(states[i].mem, id))
    ensures steps[i].Check? && steps[i].id == id ==>
              id in states[i + 1].workers
              && (states[i + 1].workers[id].phase.Finishing? <==> Underway(states[i].mem, id) && !steps[i].saw)
    ensures steps[i] == PublishPart(id, true) ==>
              (Publishes(states, steps, i, id)
               <==> Underway(states[i].mem, id) && !ContextCancelled(states[i], id))
  {
    var s, step := states[i], steps[i];
    assert Next(s, step, states[i + 1]);
    RunKeepsInv(states, steps, i);
    hide Inv, Init, Run, DoBegin, DoCheck, DoPublish, Renames;
    if step == BeginWork(id) {
      BeginDecides(s, id);
    } else if step.Check? && step.id == id {
      CheckDecides(s, id, step.saw);
    } else if step == PublishPart(id, true) {
      PublishDecides(s, id);
    }
  }

  lemma BeginDecides(s: State, id: Id)
    requires Inv(s) && CanBeginWork(s, id)
    ensures id in DoBegin(s, id).workers
    ensures DoBegin(s, id).workers[id].phase == Requested <==> Underway(s.mem, id)
  {
    WorkerCell(s, id);
    hide Inv, Begin, TaskOk;
  }

  lemma CheckDecides(s: State, id: Id, saw: bool)
    requires Inv(s) && CanCheck(s, id, saw)
    ensures id in DoCheck(s, id, saw).workers
    ensures DoCheck(s, id, saw).workers[id].phase.Finishing? <==> Underway(s.mem, id) && !saw
  {
    WorkerCell(s, id);
    hide Inv, StopCheck, TaskOk;
  }

  lemma PublishDecides(s: State, id: Id)
    requires Inv(s) && CanPublish(s, id)
    ensures Renames(s, id, true) <==> Underway(s.mem, id) && !ContextCancelled(s, id)
  {
    WorkerCell(s, id);
    hide Inv, TaskOk;
  }

  // ----- the announced length -----

  /** The size a worker goes by, once it has its response. */
  function SizeIn(phase: Phase): Option<Option<nat>> {
    match phase
    case Opening(size) => Some(size)
    case Streaming(size, _) => Some(size)
    case Finishing(size, _, _) => Some(size)
    case _ => None
  }

  /** A response was accepted before step `i`; its length is the declared one if both are known, and the size is
      whichever is known. */
  ghost predicate Announced(steps: seq<Step>, i: nat, id: Id, declared: int, size: Option<nat>)
    requires i <= |steps|
  {
    exists k :: 0 <= k < i && steps[k].Accept? && steps[k].id == id && Agrees(declared, steps[k].contentLength, size)
  }

  predicate Agrees(declared: int, length: Option<nat>, size: Option<nat>) {
    && (declared > 0 ==> size == Some(declared)) && (length.Some? ==> size == length)
    && (declared <= 0 && length.None? ==> size.None?)
  }

  lemma SizeStep(s: State, step: Step, s': State, id: Id)
    requires Next(s, step, s') && id in s'.workers && SizeIn(s'.workers[id].phase).Some?
    ensures id in s.workers && s'.workers[id].declared == s.workers[id].declared
    ensures || SizeIn(s'.workers[id].phase) == SizeIn(s.workers[id].phase)
            || (step.Accept? && step.id == id
                && Agrees(s.workers[id].declared, step.contentLength, SizeIn(s'.workers[id].phase).value))
  {
    if step.Copy? || step.PublishPart? {
      SizeKept(s, step, s', id);
    } else if step.BeginWork? || step.Accept? || step.CreatePart? || step.EndBody? || step.Check? {
      SizeSet(s, step, s', id);
    } else if step.Registration? {
      hide Register;
    } else if step.BeDone? {
    } else {
      hide Next;
      OtherWorkers(s, step, s', id);
    }
  }

  lemma SizeKept(s: State, step: Step, s': State, id: Id)
    requires step.Copy? || step.PublishPart?
    requires Next(s, step, s') && id in s'.workers && SizeIn(s'.workers[id].phase).Some?
    ensures id in s.workers && s'.workers[id].declared == s.workers[id].declared
    ensures SizeIn(s'.workers[id].phase) == SizeIn(s.workers[id].phase)
  {
    hide AddBytes, Publish, WillRename, ContextCancelled, Judge;
  }

  lemma SizeSet(s: State, step: Step, s': State, id: Id)
    requires step.BeginWork? || step.Accept? || step.CreatePart? || step.EndBody? || step.Check?
    requires Next(s, step, s') && id in s'.workers && SizeIn(s'.workers[id].phase).Some?
    ensures id in s.workers && s'.workers[id].declared == s.workers[id].declared
    ensures || SizeIn(s'.workers[id].phase) == SizeIn(s.workers[id].phase)
            || (step.Accept? && step.id == id
                && Agrees(s.workers[id].declared, step.contentLength, SizeIn(s'.workers[id].phase).value))
  {
    hide Begin, StopCheck, SetTotal, MustStop, CanBegin, ContextCancelled;
  }

  lemma {:induction false} SizeIsAnnounced(states: seq<State>, steps: seq<Step>, i: nat, id: Id)
    requires Run(states, steps) && i < |states| && id in states[i].workers
    requires SizeIn(states[i].workers[id].phase).Some?
    ensures Announced(steps, i, id, states[i].workers[id].declared, SizeIn(states[i].workers[id].phase).value)
  {
    hide Next, SizeIn, Agrees;
    if i > 0 {
      assert Next(states[i - 1], steps[i - 1], states[i]);
      SizeStep(states[i - 1], steps[i - 1], states[i], id);
      if SizeIn(states[i].workers[id].phase) == SizeIn(states[i - 1].workers[id].phase) {
        SizeIsAnnounced(states, steps, i - 1, id);
      }
    }
  }

  lemma RenamedSize(s: State, id: Id)
    requires Inv(s) && Renames(s, id, true)
    ensures var w := s.workers[id];
      SizeIn(w.phase).Some? && (SizeIn(w.phase).value.Some? ==> |w.received| == SizeIn(w.phase).value.value)
  {
    assert CellOk(CellOf(s, id)) by { InvCells(s); }
    hide Inv, TaskOk, PhaseOk, PublicationOk, WillRename, ContextCancelled;
  }

  lemma InvCells(s: State)
    requires Inv(s)
    ensures CellsOk(s)
  {
    hide CellsOk, IdsOk, WellFormed, MapsOk, CountsOk, PublishedOk, PartsOk;
  }

  /** A published file is as long as the response announced, if it did. */
  lemma PublishedAsAnnounced(states: seq<State>, steps: seq<Step>, i: nat, id: Id) returns (k: nat)
    requires Run(states, steps) && i < |steps| && Publishes(states, steps, i, id)
    ensures k < i && steps[k].Accept? && steps[k].id == id
    ensures steps[k].contentLength.Some? ==> |BytesRead(steps[..i], id)| == steps[k].contentLength.value
  {
    hide Inv, Init, Next, SizeIn;
    RunKeepsInv(states, steps, i);
    ReceivedIsRead(states, steps, i, id);
    RenamedSize(states[i], id);
    SizeIsAnnounced(states, steps, i, id);
    var w := states[i].workers[id];
    k :| 0 <= k < i && steps[k].Accept? && steps[k].id == id
      && Agrees(w.declared, steps[k].contentLength, SizeIn(w.phase).value);
  }

  // ----- a download that nothing disturbs -----

  /** Contexts are cancelled for ids that were handed out only. */
  lemma {:induction false} ContextsKnown(states: seq<State>, steps: seq<Step>, i: nat)
    requires Run(states, steps) && i < |states|
    ensures forall id <- states[i].contexts :: id <= states[i].mem.next
  {
    hide Inv, Next, Init, Forward;
    if i == 0 {
      NoContexts(states[0]);
    } else {
      ContextsKnown(states, steps, i - 1);
      RunKeepsInv(states, steps, i - 1);
      RunForward(states, steps, i - 1, i);
      CountersForward(states[i - 1], states[i]);
      assert Next(states[i - 1], steps[i - 1], states[i]);
      ContextStep(states[i - 1], steps[i - 1], states[i]);
    }
  }

  lemma NoContexts(s: State)
    requires Init(s)
    ensures s.contexts == {}
  {
  }

  lemma ContextStep(s: State, step: Step, s': State)
    requires Inv(s) && Next(s, step, s') && s.mem.next <= s'.mem.next
    requires forall id <- s.contexts :: id <= s.mem.next
    ensures forall id <- s'.contexts :: id <= s'.mem.next
  {
    InvIds(s);
    hide Inv;
    if step.CallCancel? || step.Clean? {
      hide CleanMaps;
      assert s'.contexts == s.contexts + {step.id};
    } else {
      hide IdsOk;
      SameContexts(s, step, s');
    }
  }

  lemma SameContexts(s: State, step: Step, s': State)
    requires Next(s, step, s') && !step.CallCancel? && !step.Clean?
    ensures s'.contexts == s.contexts
  {
    hide Register, RecordSubmitted, CancelRemote, FailTask, CancelTask, Begin, StopCheck, SetTotal, AddBytes, Publish,
         WillRename, MustStop, SizeOf, Judge, PartOf, Cancellable, ContextCancelled, CanBegin;
  }

  /** The task is running under worker `w`, and nobody has cancelled it. */
  ghost predicate Going(s: State, id: Id, w: Worker) {
    && WellFormed(s.mem) && id in s.workers && s.workers[id] == w && !ContextCancelled(s, id)
    && id in s.mem.tasks && s.mem.tasks[id].status == Running
  }

  /** The worker was just registered: its task is queued and nobody has cancelled it. */
  ghost predicate Ready(s: State, id: Id, w: Worker) {
    && WellFormed(s.mem) && id in s.workers && s.workers[id] == w && !ContextCancelled(s, id)
    && id in s.mem.tasks && s.mem.tasks[id].status == Queued
  }

  predicate IsNew(w: Worker) {
    w.phase == Registered && w.received == [] && w.copied == 0
  }

  /** The temporary file holds what has been received. */
  predicate Stores(s: State, w: Worker) {
    && PartOf(w.phase).Some? && PartOf(w.phase).value in s.files
    && s.files[PartOf(w.phase).value] == w.received && w.copied == |w.received|
  }

  lemma StatusKept(m: Memory, m': Memory, id: Id, t: Task)
    requires Evolves(m, m', id) && id in m'.tasks && m'.tasks[id] == t && t.status == Running
    ensures WellFormed(m') && id in m'.tasks && m'.tasks[id].status == Running
  {
  }

  lemma GoesBegin(s: State, id: Id, w: Worker)
    requires Ready(s, id, w) && IsNew(w)
    ensures CanBeginWork(s, id) && Next(s, BeginWork(id), DoBegin(s, id))
    ensures Going(DoBegin(s, id), id, w.(phase := Requested)) && DoBegin(s, id).files == s.files
  {
    hide WellFormed, Begin;
    BeginRewrites(s.mem, id);
  }

  lemma GoesAccept(s: State, id: Id, w: Worker, length: Option<nat>)
    requires Going(s, id, w) && w.phase == Requested
    requires w.declared > 0 && length.Some? ==> length.value == w.declared
    ensures CanAccept(s, id, length) && Next(s, Accept(id, length), DoAccept(s, id, length))
    ensures Going(DoAccept(s, id, length), id, w.(phase := Opening(SizeOf(w.declared, length))))
    ensures DoAccept(s, id, length).files == s.files
  {
    hide WellFormed, SetTotal;
    var size := SizeOf(w.declared, length);
    if size.Some? {
      TotalRewrites(s.mem, id, size.value);
    }
  }

  lemma GoesCreate(s: State, id: Id, w: Worker, serial: nat)
    requires Going(s, id, w) && w.phase.Opening? && w.received == [] && w.copied == 0 && Part(serial) !in s.files
    ensures CanCreatePart(s, id, serial) && Next(s, CreatePart(id, serial), DoCreatePart(s, id, serial))
    ensures var w' := w.(phase := Streaming(w.phase.size, Part(serial)));
      Going(DoCreatePart(s, id, serial), id, w') && Stores(DoCreatePart(s, id, serial), w')
  {
    hide WellFormed;
  }

  /** The body is no longer than it may be. */
  predicate Fits(length: nat, size: Option<nat>) {
    length <= MAX_INT64 && (size.Some? ==> length <= size.value)
  }

  lemma GoesCopy(s: State, id: Id, w: Worker, data: Chunk)
    requires Going(s, id, w) && Stores(s, w) && w.phase.Streaming? && data != []
    requires Fits(w.copied + |data|, w.phase.size)
    ensures CanCopy(s, id, data)
    ensures var s' := DoCopy(s, id, data, |data|, false);
      && Next(s, Copy(id, data, |data|, false), s')
      && var w' := w.(received := w.received + data, copied := w.copied + |data|);
      Going(s', id, w') && Stores(s', w')
  {
    hide WellFormed, AddBytes;
    var v := Judge(w.copied, w.phase.size, data, |data|, false);
    assert v == Stored(|data|, true);
    assert data[..|data|] == data;
    BytesRewrites(s.mem, id, |data|);
  }

  lemma GoesEnd(s: State, id: Id, w: Worker)
    requires Going(s, id, w) && Stores(s, w) && w.phase.Streaming?
    ensures CanEndBody(s, id) && Next(s, EndBody(id), DoEndBody(s, id))
    ensures var w' := w.(phase := Finishing(w.phase.size, w.phase.part, 0));
      Going(DoEndBody(s, id), id, w') && Stores(DoEndBody(s, id), w')
  {
    hide WellFormed;
  }

  lemma GoesCheck(s: State, id: Id, w: Worker)
    requires Going(s, id, w) && Stores(s, w) && w.phase.Finishing? && w.phase.checks < 4
    requires w.phase.size.Some? ==> w.copied == w.phase.size.value
    ensures CanCheck(s, id, false) && Next(s, Check(id, false), DoCheck(s, id, false))
    ensures var w' := w.(phase := w.phase.(checks := w.phase.checks + 1));
      Going(DoCheck(s, id, false), id, w') && Stores(DoCheck(s, id, false), w')
  {
    hide WellFormed;
  }

  lemma GoesPublish(s: State, id: Id, w: Worker)
    requires Going(s, id, w) && Stores(s, w) && w.phase.Finishing? && w.phase.checks == 4
    ensures CanPublish(s, id)
    ensures var s' := DoPublish(s, id, true);
      && Next(s, PublishPart(id, true), s') && Renames(s, id, true)
      && Final(w.dest) in s'.files && s'.files[Final(w.dest)] == w.received
  {
    hide WellFormed, Publish;
  }

  function Bytes(body: seq<Chunk>): seq<Byte> {
    if body == [] then [] else body[0] + Bytes(body[1..])
  }

  function Copies(id: Id, body: seq<Chunk>): seq<Step> {
    if body == [] then [] else [Copy(id, body[0], |body[0]|, false)] + Copies(id, body[1..])
  }

  /** A run and more steps; only those are taken. */
  ghost predicate Continues(states: seq<State>, steps: seq<Step>, states': seq<State>, steps': seq<Step>,
                            more: seq<Step>) {
    Run(states, steps) && Run(states', steps') && states <= states' && steps' == steps + more
  }

  lemma OneStep(states: seq<State>, steps: seq<Step>, step: Step, s': State)
    returns (states': seq<State>, steps': seq<Step>)
    requires Run(states, steps) && Next(states[|steps|], step, s')
    ensures Continues(states, steps, states', steps', [step]) && states'[|steps'|] == s'
  {
    hide Next;
    Extend(states, steps, step, s');
    states', steps' := states + [s'], steps + [step];
  }

  lemma Together(states: seq<State>, steps: seq<Step>, states1: seq<State>, steps1: seq<Step>, more1: seq<Step>,
                 states2: seq<State>, steps2: seq<Step>, more2: seq<Step>)
    requires Continues(states, steps, states1, steps1, more1) && Continues(states1, steps1, states2, steps2, more2)
    ensures Continues(states, steps, states2, steps2, more1 + more2)
  {
    hide Run;
    assert steps + more1 + more2 == steps + (more1 + more2);
  }

  /** The whole body is copied, chunk by chunk. */
  lemma {:induction false} CopiesAll(states: seq<State>, steps: seq<Step>, id: Id, w: Worker, body: seq<Chunk>)
    returns (states': seq<State>, steps': seq<Step>)
    requires Run(states, steps) && Going(states[|steps|], id, w) && Stores(states[|steps|], w) && w.phase.Streaming?
    requires forall c <- body :: c != []
    requires Fits(w.copied + |Bytes(body)|, w.phase.size)
    ensures Continues(states, steps, states', steps', Copies(id, body))
    ensures var w' := w.(received := w.received + Bytes(body), copied := w.copied + |Bytes(body)|);
      Going(states'[|steps'|], id, w') && Stores(states'[|steps'|], w')
    decreases |body|
  {
    hide Init, Next, Going, Stores, CanCopy, DoCopy;
    if body == [] {
      states', steps' := states, steps;
      assert steps + [] == steps && w.received + [] == w.received;
    } else {
      var s, data := states[|steps|], body[0];
      assert data in body && forall c <- body[1..] :: c in body;
      GoesCopy(s, id, w, data);
      var states1, steps1 := OneStep(states, steps, Copy(id, data, |data|, false), DoCopy(s, id, data, |data|, false));
      var w1 := w.(received := w.received + data, copied := w.copied + |data|);
      states', steps' := CopiesAll(states1, steps1, id, w1, body[1..]);
      Together(states, steps, states1, steps1, [Copy(id, data, |data|, false)], states', steps', Copies(id, body[1..]));
      assert w.received + Bytes(body) == w1.received + Bytes(body[1..]);
    }
  }

  /** What a worker does when nothing fails. */
  function Fetch(id: Id, serial: nat, length: Option<nat>, body: seq<Chunk>): seq<Step> {
    [BeginWork(id)] + [Accept(id, length)] + [CreatePart(id, serial)] + Copies(id, body) + [EndBody(id)]
    + Checks(id, 4) + [PublishPart(id, true)]
  }

  function Checks(id: Id, n: nat): seq<Step> {
    seq(n, _ => Check(id, false))
  }

  lemma GoesThrough(states: seq<State>, steps: seq<Step>, id: Id, w: Worker, n: nat)
    returns (states': seq<State>, steps': seq<Step>)
    requires Run(states, steps) && Going(states[|steps|], id, w) && Stores(states[|steps|], w)
    requires w.phase.Finishing? && w.phase.checks + n == 4 && (w.phase.size.Some? ==> w.copied == w.phase.size.value)
    ensures Continues(states, steps, states', steps', Checks(id, n))
    ensures var w' := w.(phase := w.phase.(checks := 4));
      Going(states'[|steps'|], id, w') && Stores(states'[|steps'|], w')
    decreases n
  {
    hide Init, Next, Going, Stores, DoCheck, CanCheck;
    if n == 0 {
      states', steps' := states, steps;
      assert steps + Checks(id, 0) == steps;
    } else {
      GoesCheck(states[|steps|], id, w);
      var states1, steps1 := OneStep(states, steps, Check(id, false), DoCheck(states[|steps|], id, false));
      var w1 := w.(phase := w.phase.(checks := w.phase.checks + 1));
      states', steps' := GoesThrough(states1, steps1, id, w1, n - 1);
      Together(states, steps, states1, steps1, [Check(id, false)], states', steps', Checks(id, n - 1));
      assert [Check(id, false)] + Checks(id, n - 1) == Checks(id, n);
    }
  }

  /** From the body's end to the file in place. */
  lemma Finishes(states: seq<State>, steps: seq<Step>, id: Id, w: Worker)
    returns (states': seq<State>, steps': seq<Step>)
    requires Run(states, steps) && Going(states[|steps|], id, w) && Stores(states[|steps|], w)
    requires w.phase.Streaming? && (w.phase.size.Some? ==> w.copied == w.phase.size.value)
    ensures Continues(states, steps, states', steps', [EndBody(id)] + Checks(id, 4) + [PublishPart(id, true)])
    ensures Final(w.dest) in states'[|steps'|].files && states'[|steps'|].files[Final(w.dest)] == w.received
    ensures Publishes(states', steps', |steps'| - 1, id)
  {
    hide Init, Next, Going, Stores, DoEndBody, DoPublish, Renames, Run, CanPublish, CanEndBody;
    Shape(states, steps);
    GoesEnd(states[|steps|], id, w);
    var states1, steps1 := OneStep(states, steps, EndBody(id), DoEndBody(states[|steps|], id));
    Shape(states1, steps1);
    var w1 := w.(phase := Finishing(w.phase.size, w.phase.part, 0));
    var states2, steps2 := GoesThrough(states1, steps1, id, w1, 4);
    Shape(states2, steps2);
    var w2 := w1.(phase := w1.phase.(checks := 4));
    GoesPublish(states2[|steps2|], id, w2);
    states', steps' := OneStep(states2, steps2, PublishPart(id, true), DoPublish(states2[|steps2|], id, true));
    Shape(states', steps');
    assert states'[|steps'| - 1] == states2[|steps2|];
    Together(states, steps, states1, steps1, [EndBody(id)], states2, steps2, Checks(id, 4));
    Together(states, steps, states2, steps2, [EndBody(id)] + Checks(id, 4), states', steps', [PublishPart(id, true)]);
  }

  lemma Shape(states: seq<State>, steps: seq<Step>)
    requires Run(states, steps)
    ensures |states| == |steps| + 1
  {
    hide Init, Next;
  }

  /** From the worker's first step to its temporary file. */
  lemma Opens(states: seq<State>, steps: seq<Step>, id: Id, w: Worker, length: Option<nat>, serial: nat)
    returns (states': seq<State>, steps': seq<Step>)
    requires Run(states, steps) && Ready(states[|steps|], id, w) && IsNew(w)
    requires Part(serial) !in states[|steps|].files
    requires w.declared > 0 && length.Some? ==> length.value == w.declared
    ensures Continues(states, steps, states', steps', [BeginWork(id)] + [Accept(id, length)] + [CreatePart(id, serial)])
    ensures var w' := w.(phase := Streaming(SizeOf(w.declared, length), Part(serial)));
      Going(states'[|steps'|], id, w') && Stores(states'[|steps'|], w')
  {
    hide Init, Next, Stores, Going, Ready, WellFormed, Run, DoBegin, DoAccept, DoCreatePart, SizeOf, CanAccept,
         CanCreatePart;
    Shape(states, steps);
    var s := states[|steps|];
    GoesBegin(s, id, w);
    var w1 := w.(phase := Requested);
    var states1, steps1 := OneStep(states, steps, BeginWork(id), DoBegin(s, id));
    Shape(states1, steps1);
    GoesAccept(states1[|steps1|], id, w1, length);
    var w2 := w1.(phase := Opening(SizeOf(w.declared, length)));
    var states2, steps2 := OneStep(states1, steps1, Accept(id, length), DoAccept(states1[|steps1|], id, length));
    Shape(states2, steps2);
    GoesCreate(states2[|steps2|], id, w2, serial);
    states', steps' :=
      OneStep(states2, steps2, CreatePart(id, serial), DoCreatePart(states2[|steps2|], id, serial));
    Together(states, steps, states1, steps1, [BeginWork(id)], states2, steps2, [Accept(id, length)]);
    Together(states, steps, states2, steps2, [BeginWork(id)] + [Accept(id, length)], states', steps',
             [CreatePart(id, serial)]);
  }

  /** The whole work of a worker that nothing disturbs. */
  lemma Fetches(states: seq<State>, steps: seq<Step>, id: Id, w: Worker, length: Option<nat>, serial: nat,
                body: seq<Chunk>)
    returns (states': seq<State>, steps': seq<Step>)
    requires Run(states, steps) && Ready(states[|steps|], id, w) && IsNew(w)
    requires Part(serial) !in states[|steps|].files
    requires w.declared > 0 && length.Some? ==> length.value == w.declared
    requires forall c <- body :: c != []
    requires |Bytes(body)| <= MAX_INT64
    requires SizeOf(w.declared, length).Some? ==> |Bytes(body)| == SizeOf(w.declared, length).value
    ensures Continues(states, steps, states', steps', Fetch(id, serial, length, body))
    ensures Final(w.dest) in states'[|steps'|].files && states'[|steps'|].files[Final(w.dest)] == Bytes(body)
    ensures |steps'| > 0 && Publishes(states', steps', |steps'| - 1, id)
  {
    hide Init, Next, Stores, Going, Ready, WellFormed, Run, SizeOf, Renames;
    var states1, steps1 := Opens(states, steps, id, w, length, serial);
    var w1 := w.(phase := Streaming(SizeOf(w.declared, length), Part(serial)));
    Shape(states1, steps1);
    var states2, steps2 := CopiesAll(states1, steps1, id, w1, body);
    assert w1.received + Bytes(body) == Bytes(body);
    var w2 := w1.(received := Bytes(body), copied := |Bytes(body)|);
    Shape(states2, steps2);
    states', steps' := Finishes(states2, steps2, id, w2);
    Shape(states', steps');
    var opening := [BeginWork(id)] + [Accept(id, length)] + [CreatePart(id, serial)];
    var closing := [EndBody(id)] + Checks(id, 4) + [PublishPart(id, true)];
    Together(states, steps, states1, steps1, opening, states2, steps2, Copies(id, body));
    Together(states, steps, states2, steps2, opening + Copies(id, body), states', steps', closing);
    assert opening + Copies(id, body) + closing == Fetch(id, serial, length, body);
  }

  lemma RegisteredTask(s: State, dest: string, declared: int)
    requires Inv(s) && CanRegister(s, dest) && !s.rootCancelled && s.mem.next + 1 !in s.contexts
    ensures Ready(DoRegister(s, dest, declared), s.mem.next + 1, Worker(dest, declared, [], 0, Registered))
    ensures DoRegister(s, dest, declared).files == s.files
  {
    hide Inv, WellFormed, Register;
    InvMemory(s);
    Registrable(s, dest, declared);
    NextKeepsInv(s, Registration(dest, declared), DoRegister(s, dest, declared)) by { hide DoRegister; }
    InvMemory(DoRegister(s, dest, declared));
    RegisteredIsQueued(s.mem, dest, declared);
  }

  lemma RegisteredIsQueued(m: Memory, dest: string, declared: int)
    requires WellFormed(m)
    ensures m.next + 1 in Register(m, dest, declared).tasks
    ensures Register(m, dest, declared).tasks[m.next + 1].status == Queued
  {
    hide Without, WellFormed, NoDuplicates, Elements, Dropped;
    var id := m.next + 1;
    var t := Task(dest, Queued, "", Max(declared, 0), 0, 0);
    var grown := m.(next := id, tasks := m.tasks[id := t], cancels := m.cancels + {id},
                    reservations := m.reservations + {dest}, order := [id] + m.order);
    DroppedIsOutside(grown.order, Protected(grown.tasks, id), |grown.order| - MAX_REMEMBERED_TASKS);
    assert id !in TrimGone(grown, id);
  }

  /** A free slot is taken, and the download is registered. */
  lemma Starts(states: seq<State>, steps: seq<Step>, dest: string, declared: int)
    returns (states': seq<State>, steps': seq<Step>)
    requires Run(states, steps)
    requires var s := states[|steps|];
      && !s.mem.closed && s.mem.slots < 3 && dest !in s.mem.reservations && Final(dest) !in s.files
    ensures Continues(states, steps, states', steps', [Acquire] + [Registration(dest, declared)])
    ensures Ready(states'[|steps'|], states[|steps|].mem.next + 1, Worker(dest, declared, [], 0, Registered))
    ensures states'[|steps'|].files == states[|steps|].files
  {
    hide Init, Next, Inv, Run, WellFormed, DoRegister, Going, Ready;
    Shape(states, steps);
    var s := states[|steps|];
    RunKeepsInv(states, steps, |steps|);
    ContextsKnown(states, steps, |steps|);
    OpenIsLive(s);
    Acquirable(s);
    var states1, steps1 := OneStep(states, steps, Acquire, DoAcquire(s));
    Shape(states1, steps1);
    var s1 := states1[|steps1|];
    RunKeepsInv(states1, steps1, |steps1|);
    Registrable(s1, dest, declared);
    RegisteredTask(s1, dest, declared);
    states', steps' := OneStep(states1, steps1, Registration(dest, declared), DoRegister(s1, dest, declared));
    Together(states, steps, states1, steps1, [Acquire], states', steps', [Registration(dest, declared)]);
  }

  /** A download that nothing disturbs succeeds: from every reachable state of a service that is open, has a free
      slot and a destination that is free, starting it and letting its worker receive a body (of the declared
      length, if one was declared or announced) leads to a completed task and to a file with exactly those bytes. */
  lemma DownloadSucceeds(states: seq<State>, steps: seq<Step>, dest: string, declared: int, length: Option<nat>,
                         body: seq<Chunk>)
    returns (states': seq<State>, steps': seq<Step>, serial: nat)
    requires Run(states, steps)
    requires var s := states[|steps|];
      && !s.mem.closed && s.mem.slots < 3 && dest !in s.mem.reservations && Final(dest) !in s.files
    requires forall c <- body :: c != []
    requires |Bytes(body)| <= MAX_INT64
    requires declared > 0 ==> |Bytes(body)| == declared
    requires length.Some? ==> |Bytes(body)| == length.value
    ensures Continues(states, steps, states', steps',
                      [Acquire] + [Registration(dest, declared)] + Fetch(states[|steps|].mem.next + 1, serial, length,
                                                                         body))
    ensures var id, s' := states[|steps|].mem.next + 1, states'[|steps'|];
      && Final(dest) in s'.files && s'.files[Final(dest)] == Bytes(body)
      && id in s'.mem.tasks && s'.mem.tasks[id].status == Completed && s'.mem.tasks[id].progress == 100
  {
    hide Init, Next, Inv, Run, Ready;
    Shape(states, steps);
    var s := states[|steps|];
    var id := s.mem.next + 1;
    var states1, steps1 := Starts(states, steps, dest, declared);
    Shape(states1, steps1);
    serial := LargerSerial(s.files.Keys, 0);
    states', steps' := Fetches(states1, steps1, id, Worker(dest, declared, [], 0, Registered), length, serial, body);
    Shape(states', steps');
    PublishedTaskIsExact(states', steps', |steps'| - 1, id);
    Together(states, steps, states1, steps1, [Acquire] + [Registration(dest, declared)], states', steps',
             Fetch(id, serial, length, body));
  }

  lemma OpenIsLive(s: State)
    requires Inv(s) && !s.mem.closed
    ensures !s.rootCancelled
  {
    hide CellsOk, IdsOk, MapsOk, CountsOk, PublishedOk, PartsOk, WellFormed;
  }

  lemma Acquirable(s: State)
    requires s.mem.slots < 3
    ensures Next(s, Acquire, DoAcquire(s))
  {
  }

  lemma Registrable(s: State, dest: string, declared: int)
    requires CanRegister(s, dest)
    ensures Next(s, Registration(dest, declared), DoRegister(s, dest, declared))
  {
    hide DoRegister;
  }
}
