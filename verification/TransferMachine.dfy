/** The remote-download protocol: starters, workers, cancellers and a shutdown, interleaved.
    Every section under the service mutex is one step; so is every event outside it that another
    party can notice. What a worker does to its private temporary file is joined to its next step. */
module TransferMachine {
  import opened Prelude
  import opened TransferStream
  import opened TransferModel

  /** Temporary names never collide with destinations. */
  datatype Path = Final(name: string) | Part(serial: nat)

  type Length = n: nat | n <= MAX_INT64

  datatype Phase =
    | Registered                                               // goroutine created
    | Requested                                                // begun, waiting for the response
    | Opening(size: Option<nat>)                               // total recorded, no file yet
    | Streaming(size: Option<nat>, part: Path)                 // in the copying loop
    | Finishing(size: Option<nat>, part: Path, checks: nat)    // `checks` stop checks passed
    | Failing(left: Option<Path>)                              // about to record a failure
    | Returning(left: Option<Path>)                            // the deferred removal is due
    | CleaningUp                                               // the map clean-up is due
    | Cleaned                                                  // maps cleaned, slot still held
    | SlotReturned                                             // only the wait group is left

  /** Before the worker has failed, stopped or published. */
  predicate Working(phase: Phase) {
    phase.Registered? || phase.Requested? || phase.Opening? || phase.Streaming? || phase.Finishing?
  }

  datatype Worker = Worker(dest: string, declared: int, received: seq<Byte>, copied: Length, phase: Phase)

  function PartOf(phase: Phase): Option<Path> {
    match phase
    case Streaming(_, part) => Some(part)
    case Finishing(_, part, _) => Some(part)
    case Failing(left) => left
    case Returning(left) => left
    case _ => None
  }

  predicate Uncleaned(w: Worker) {
    !w.phase.Cleaned? && !w.phase.SlotReturned?
  }

  predicate HoldsSlot(w: Worker) {
    !w.phase.SlotReturned?
  }

  datatype Publication = Publication(dest: string, declared: int, body: seq<Byte>)

  /** What has happened, for stating properties: successful cancels, renames and failed removals. */
  datatype Log = Log(cancelled: set<Id>, published: map<Id, Publication>, leaked: set<Path>)

  /** `starters` hold a slot and have not reached the registration section; `refused` failed in it
      and still hold their slot. */
  datatype State = State(
    mem: Memory, starters: nat, refused: nat,
    rootCancelled: bool, done: bool, contexts: set<Id>,
    workers: map<Id, Worker>, files: map<Path, seq<Byte>>, log: Log)

  ghost predicate Init(s: State) {
    && s.mem == Memory(0, map[], [], {}, {}, 0, 0, false)
    && s.starters == 0 && s.refused == 0 && !s.rootCancelled && !s.done
    && s.contexts == {} && s.workers == map[]
    && (forall p <- s.files :: p.Final?)
    && s.log == Log({}, map[], {})
  }

  predicate ContextCancelled(s: State, id: Id) {
    s.rootCancelled || id in s.contexts
  }

  function SetPhase(s: State, id: Id, phase: Phase): State
    requires id in s.workers
  {
    s.(workers := s.workers[id := s.workers[id].(phase := phase)])
  }

  // ----- starters, submitted tasks, cancels and shutdown -----

  predicate CanAcquire(s: State) { s.mem.slots < MAX_REMOTE_DOWNLOADS }
  function DoAcquire(s: State): State {
    s.(mem := s.mem.(slots := s.mem.slots + 1), starters := s.starters + 1)
  }

  predicate CanRegister(s: State, dest: string) {
    s.starters > 0 && !s.mem.closed && dest !in s.mem.reservations && Final(dest) !in s.files
  }
  function DoRegister(s: State, dest: string, declared: int): State
    requires CanRegister(s, dest)
  {
    s.(mem := Register(s.mem, dest, declared), starters := s.starters - 1,
       workers := s.workers[s.mem.next + 1 := Worker(dest, declared, [], 0, Registered)])
  }

  /** The service is closed or no destination was found. */
  predicate CanAbort(s: State) { s.starters > 0 }
  function DoAbort(s: State): State
    requires CanAbort(s)
  {
    s.(starters := s.starters - 1, refused := s.refused + 1)
  }

  predicate CanReturnRefused(s: State) { s.refused > 0 && s.mem.slots > 0 }
  function DoReturnRefused(s: State): State
    requires CanReturnRefused(s)
  {
    s.(refused := s.refused - 1, mem := s.mem.(slots := s.mem.slots - 1))
  }

  function DoSubmit(s: State, dest: string): State {
    s.(mem := RecordSubmitted(s.mem, dest))
  }

  /** The locked part of CancelRemoteDownload; `cancel()` follows as a step of its own. */
  function DoCancel(s: State, id: Id): State {
    s.(mem := CancelRemote(s.mem, id),
       log := if Cancellable(s.mem, id) then s.log.(cancelled := s.log.cancelled + {id}) else s.log)
  }

  predicate CanCallCancel(s: State, id: Id) { id in s.log.cancelled }
  function DoCallCancel(s: State, id: Id): State {
    s.(contexts := s.contexts + {id})
  }

  function DoClose(s: State): State {
    s.(mem := s.mem.(closed := true))
  }

  predicate CanCancelRoot(s: State) { s.mem.closed }
  function DoCancelRoot(s: State): State {
    s.(rootCancelled := true)
  }

  /** The wait group has drained: `remoteDone` is closed and Shutdown may return nil. */
  predicate CanFinishShutdown(s: State) { s.rootCancelled && s.mem.waitGroup == 0 }
  function DoFinishShutdown(s: State): State {
    s.(done := true)
  }

  // ----- workers -----

  predicate CanBeginWork(s: State, id: Id) { id in s.workers && s.workers[id].phase.Registered? }
  function DoBegin(s: State, id: Id): State
    requires CanBeginWork(s, id)
  {
    SetPhase(s.(mem := Begin(s.mem, id)), id, if CanBegin(s.mem, id) then Requested else Returning(None))
  }

  /** A 2xx response whose length agrees with the declared size when both are known. */
  predicate CanAccept(s: State, id: Id, contentLength: Option<nat>) {
    && id in s.workers && s.workers[id].phase.Requested?
    && (s.workers[id].declared > 0 && contentLength.Some? ==> contentLength.value == s.workers[id].declared)
  }

  function SizeOf(declared: int, contentLength: Option<nat>): Option<nat> {
    if declared > 0 then Some(declared) else contentLength
  }

  function DoAccept(s: State, id: Id, contentLength: Option<nat>): State
    requires CanAccept(s, id, contentLength)
  {
    var size := SizeOf(s.workers[id].declared, contentLength);
    SetPhase(s.(mem := if size.Some? then SetTotal(s.mem, id, size.value) else s.mem), id, Opening(size))
  }

  predicate CanCreatePart(s: State, id: Id, serial: nat) {
    id in s.workers && s.workers[id].phase.Opening? && Part(serial) !in s.files
  }
  function DoCreatePart(s: State, id: Id, serial: nat): State
    requires CanCreatePart(s, id, serial)
  {
    SetPhase(s.(files := s.files[Part(serial) := []]), id, Streaming(s.workers[id].phase.size, Part(serial)))
  }

  /** A read that delivered bytes: they are refused, stored in part, or stored. */
  predicate CanCopy(s: State, id: Id, data: Chunk) {
    && id in s.workers && s.workers[id].phase.Streaming? && data != []
    && s.workers[id].phase.part in s.files
  }
  function DoCopy(s: State, id: Id, data: Chunk, accept: nat, writeError: bool): State
    requires CanCopy(s, id, data)
  {
    var w := s.workers[id];
    var v := Judge(w.copied, w.phase.size, data, accept, writeError);
    if v.TooLong? then SetPhase(s, id, Failing(Some(w.phase.part)))
    else
      s.(mem := if v.written > 0 then AddBytes(s.mem, id, v.written) else s.mem,
         files := s.files[w.phase.part := s.files[w.phase.part] + data[..v.written]],
         workers := s.workers[id := w.(
           received := w.received + data, copied := w.copied + v.written,
           phase := if v.whole then w.phase else Failing(Some(w.phase.part)))])
  }

  predicate CanEndBody(s: State, id: Id) { id in s.workers && s.workers[id].phase.Streaming? }
  function DoEndBody(s: State, id: Id): State
    requires CanEndBody(s, id)
  {
    SetPhase(s, id, Finishing(s.workers[id].phase.size, s.workers[id].phase.part, 0))
  }

  /** One of the four stop checks before publication. Between the first and the second the code
      compares the copied amount with a known size. `saw` is what the context showed before the
      lock was taken; a context once cancelled stays cancelled. */
  predicate CanCheck(s: State, id: Id, saw: bool) {
    && id in s.workers && s.workers[id].phase.Finishing? && s.workers[id].phase.checks < 4
    && (saw ==> ContextCancelled(s, id))
    && (s.workers[id].phase.checks == 1 && s.workers[id].phase.size.Some? ==>
          s.workers[id].copied == s.workers[id].phase.size.value)
  }
  function DoCheck(s: State, id: Id, saw: bool): State
    requires CanCheck(s, id, saw)
  {
    var p := s.workers[id].phase;
    SetPhase(s.(mem := StopCheck(s.mem, id, saw)), id,
             if MustStop(s.mem, id, saw) then Returning(Some(p.part)) else p.(checks := p.checks + 1))
  }

  predicate CanPublish(s: State, id: Id) {
    && id in s.workers && s.workers[id].phase.Finishing? && s.workers[id].phase.checks == 4
    && s.workers[id].phase.part in s.files
  }

  /** Whether this step puts the file in place. */
  predicate Renames(s: State, id: Id, renamed: bool) {
    CanPublish(s, id) && WillRename(s.mem, id, ContextCancelled(s, id)) && renamed
  }

  function DoPublish(s: State, id: Id, renamed: bool): State
    requires CanPublish(s, id)
  {
    var saw := ContextCancelled(s, id);
    var w := s.workers[id];
    var part := w.phase.part;
    var s1 := s.(mem := Publish(s.mem, id, saw, renamed));
    if !WillRename(s.mem, id, saw) then SetPhase(s1, id, Returning(Some(part)))
    else if !renamed then SetPhase(s1, id, Failing(Some(part)))
    else
      SetPhase(s1.(files := (s.files - {part})[Final(w.dest) := s.files[part]],
                   log := s.log.(published := s.log.published[id := Publication(w.dest, w.declared, w.received)])),
               id, Returning(None))
  }

  /** Something outside the service fails: the request, a size comparison or a file operation. */
  predicate CanGiveUp(s: State, id: Id) {
    && id in s.workers
    && match s.workers[id].phase
       case Requested => true
       case Opening(_) => true
       case Streaming(_, _) => true
       case Finishing(_, _, checks) => 1 <= checks <= 3
       case _ => false
  }
  function DoGiveUp(s: State, id: Id): State
    requires CanGiveUp(s, id)
  {
    SetPhase(s, id, Failing(PartOf(s.workers[id].phase)))
  }

  predicate CanFail(s: State, id: Id) { id in s.workers && s.workers[id].phase.Failing? }
  function DoFail(s: State, id: Id, error: string): State
    requires CanFail(s, id)
  {
    SetPhase(s.(mem := FailTask(s.mem, id, error)), id, Returning(s.workers[id].phase.left))
  }

  /** The request or a read fails and the context is found cancelled. */
  predicate CanStop(s: State, id: Id) {
    && id in s.workers && (s.workers[id].phase.Requested? || s.workers[id].phase.Streaming?)
    && ContextCancelled(s, id)
  }
  function DoStop(s: State, id: Id): State
    requires CanStop(s, id)
  {
    SetPhase(s.(mem := CancelTask(s.mem, id)), id, Returning(PartOf(s.workers[id].phase)))
  }

  predicate CanRemovePart(s: State, id: Id) { id in s.workers && s.workers[id].phase.Returning? }
  function DoRemovePart(s: State, id: Id, removed: bool): State
    requires CanRemovePart(s, id)
  {
    var left := s.workers[id].phase.left;
    SetPhase(if left.None? then s
             else if removed then s.(files := s.files - {left.value})
             else s.(log := s.log.(leaked := s.log.leaked + {left.value})), id, CleaningUp)
  }

  predicate CanClean(s: State, id: Id) { id in s.workers && s.workers[id].phase.CleaningUp? }
  function DoClean(s: State, id: Id): State
    requires CanClean(s, id)
  {
    SetPhase(s.(mem := CleanMaps(s.mem, id, s.workers[id].dest), contexts := s.contexts + {id}), id, Cleaned)
  }

  predicate CanReturnSlot(s: State, id: Id) {
    id in s.workers && s.workers[id].phase.Cleaned? && s.mem.slots > 0
  }
  function DoReturnSlot(s: State, id: Id): State
    requires CanReturnSlot(s, id)
  {
    SetPhase(s.(mem := s.mem.(slots := s.mem.slots - 1)), id, SlotReturned)
  }

  predicate CanBeDone(s: State, id: Id) {
    id in s.workers && s.workers[id].phase.SlotReturned? && s.mem.waitGroup > 0
  }
  function DoDone(s: State, id: Id): State
    requires CanBeDone(s, id)
  {
    s.(mem := s.mem.(waitGroup := s.mem.waitGroup - 1), workers := s.workers - {id})
  }

  // ----- runs -----

  datatype Step =
    | Acquire | Registration(dest: string, declared: int) | Abort | ReturnRefused
    | Submit(dest: string) | Cancel(id: Id) | CallCancel(id: Id)
    | Close | CancelRoot | FinishShutdown
    | BeginWork(id: Id) | Accept(id: Id, contentLength: Option<nat>) | CreatePart(id: Id, serial: nat)
    | Copy(id: Id, data: Chunk, accept: nat, writeError: bool) | EndBody(id: Id)
    | Check(id: Id, saw: bool) | PublishPart(id: Id, renamed: bool)
    | GiveUp(id: Id) | Fail(id: Id, error: string) | Stop(id: Id)
    | RemovePart(id: Id, removed: bool) | Clean(id: Id) | ReturnSlot(id: Id) | BeDone(id: Id)

  ghost predicate Next(s: State, step: Step, s': State) {
    match step
    case Acquire => CanAcquire(s) && s' == DoAcquire(s)
    case Registration(dest, declared) => CanRegister(s, dest) && s' == DoRegister(s, dest, declared)
    case Abort => CanAbort(s) && s' == DoAbort(s)
    case ReturnRefused => CanReturnRefused(s) && s' == DoReturnRefused(s)
    case Submit(dest) => s' == DoSubmit(s, dest)
    case Cancel(id) => s' == DoCancel(s, id)
    case CallCancel(id) => CanCallCancel(s, id) && s' == DoCallCancel(s, id)
    case Close => s' == DoClose(s)
    case CancelRoot => CanCancelRoot(s) && s' == DoCancelRoot(s)
    case FinishShutdown => CanFinishShutdown(s) && s' == DoFinishShutdown(s)
    case BeginWork(id) => CanBeginWork(s, id) && s' == DoBegin(s, id)
    case Accept(id, length) => CanAccept(s, id, length) && s' == DoAccept(s, id, length)
    case CreatePart(id, serial) => CanCreatePart(s, id, serial) && s' == DoCreatePart(s, id, serial)
    case Copy(id, data, accept, error) => CanCopy(s, id, data) && s' == DoCopy(s, id, data, accept, error)
    case EndBody(id) => CanEndBody(s, id) && s' == DoEndBody(s, id)
    case Check(id, saw) => CanCheck(s, id, saw) && s' == DoCheck(s, id, saw)
    case PublishPart(id, renamed) => CanPublish(s, id) && s' == DoPublish(s, id, renamed)
    case GiveUp(id) => CanGiveUp(s, id) && s' == DoGiveUp(s, id)
    case Fail(id, error) => CanFail(s, id) && s' == DoFail(s, id, error)
    case Stop(id) => CanStop(s, id) && s' == DoStop(s, id)
    case RemovePart(id, removed) => CanRemovePart(s, id) && s' == DoRemovePart(s, id, removed)
    case Clean(id) => CanClean(s, id) && s' == DoClean(s, id)
    case ReturnSlot(id) => CanReturnSlot(s, id) && s' == DoReturnSlot(s, id)
    case BeDone(id) => CanBeDone(s, id) && s' == DoDone(s, id)
  }

  /** A run: any number of steps of any parties, in any order. */
  ghost predicate Run(states: seq<State>, steps: seq<Step>) {
    && |states| == |steps| + 1
    && Init(states[0])
    && forall i :: 0 <= i < |steps| ==> Next(states[i], steps[i], states[i + 1])
  }
}
