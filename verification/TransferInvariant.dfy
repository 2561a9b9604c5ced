/** The invariant of the remote-download protocol and its preservation by every step. */
module TransferInvariant {
  import opened Prelude
  import opened HistoryTrim
  import opened TransferStream
  import opened TransferModel
  import opened TransferMachine

  // ----- what a critical section does to the tasks -----

  /** Only the task of `id` may be rewritten; of the others, only finished ones may be forgotten. */
  ghost predicate Evolves(m: Memory, m': Memory, id: Id) {
    && WellFormed(m')
    && m' == m.(tasks := m'.tasks, order := m'.order)
    && |m'.order| <= |m.order|
    && (forall i :: i != id && i in m'.tasks ==> i in m.tasks && m'.tasks[i] == m.tasks[i])
    && (forall i :: i != id && i in m.tasks && m.tasks[i].Active() ==> i in m'.tasks)
    && (id in m.tasks <==> id in m'.tasks)
  }

  lemma EvolvesNot(m: Memory, id: Id)
    requires WellFormed(m)
    ensures Evolves(m, m, id)
  {
  }

  lemma EvolvesBySet(m: Memory, id: Id, t: Task)
    requires WellFormed(m) && id in m.tasks
    ensures Evolves(m, SetTask(m, id, t), id)
    ensures Evolves(m, Trim(SetTask(m, id, t), id), id)
    ensures Trim(SetTask(m, id, t), id).tasks[id] == t
  {
    hide Dropped, Without, NoDuplicates, Elements;
    var m1 := SetTask(m, id, t);
    assert m1.tasks.Keys == m.tasks.Keys;
    TrimFacts(m1, id);
  }

  function OnCancel(t: Task): Task {
    if t.Active() then MarkCancelled(t) else t
  }

  function OnFail(t: Task, error: string): Task {
    if t.Active() then t.(status := Failed, error := error, progress := Progress(t.bytesCopied, t.bytesTotal)) else t
  }

  function OnBegin(t: Task): Task {
    if t.status == Queued then t.(status := Running) else t
  }

  function OnBytes(t: Task, n: int): Task {
    t.(bytesCopied := t.bytesCopied + n, progress := Progress(t.bytesCopied + n, t.bytesTotal))
  }

  function OnPublish(t: Task, saw: bool, renamed: bool): Task {
    if t.status == Cancelled || saw then OnCancel(t)
    else if t.status != Running || !renamed then t
    else t.(status := Completed, progress := 100,
            bytesTotal := if t.bytesTotal <= 0 then t.bytesCopied else t.bytesTotal)
  }


  lemma CancelRewrites(m: Memory, id: Id)
    requires WellFormed(m)
    ensures Evolves(m, CancelTask(m, id), id)
    ensures id in m.tasks ==> CancelTask(m, id).tasks[id] == OnCancel(m.tasks[id])
    ensures Evolves(m, CancelRemote(m, id), id)
    ensures id in m.tasks ==>
              CancelRemote(m, id).tasks[id] == if Cancellable(m, id) then MarkCancelled(m.tasks[id]) else m.tasks[id]
  {
    hide Trim, NoDuplicates, Elements;
    EvolvesNot(m, id);
    if id in m.tasks {
      EvolvesBySet(m, id, MarkCancelled(m.tasks[id]));
    }
  }

  lemma FailRewrites(m: Memory, id: Id, error: string)
    requires WellFormed(m)
    ensures Evolves(m, FailTask(m, id, error), id)
    ensures id in m.tasks ==> FailTask(m, id, error).tasks[id] == OnFail(m.tasks[id], error)
  {
    hide Trim, NoDuplicates, Elements;
    EvolvesNot(m, id);
    if id in m.tasks {
      EvolvesBySet(m, id, OnFail(m.tasks[id], error));
    }
  }

  lemma BeginRewrites(m: Memory, id: Id)
    requires WellFormed(m)
    ensures Evolves(m, Begin(m, id), id)
    ensures id in m.tasks ==> Begin(m, id).tasks[id] == OnBegin(m.tasks[id])
  {
    hide Trim, NoDuplicates, Elements;
    EvolvesNot(m, id);
    if id in m.tasks {
      EvolvesBySet(m, id, OnBegin(m.tasks[id]));
    }
  }

  lemma StoreRewrites(m: Memory, id: Id, t: Task)
    requires WellFormed(m) && id in m.tasks
    ensures Evolves(m, Store(m, id, t), id) && Store(m, id, t).tasks[id] == t
  {
    hide Trim, NoDuplicates, Elements;
    EvolvesBySet(m, id, t);
  }

  lemma TotalRewrites(m: Memory, id: Id, total: int)
    requires WellFormed(m)
    ensures Evolves(m, SetTotal(m, id, total), id)
    ensures id in m.tasks ==> SetTotal(m, id, total).tasks[id] == m.tasks[id].(bytesTotal := total)
  {
    hide Store, WellFormed;
    EvolvesNot(m, id);
    if id in m.tasks {
      StoreRewrites(m, id, m.tasks[id].(bytesTotal := total));
    }
  }

  lemma BytesRewrites(m: Memory, id: Id, n: int)
    requires WellFormed(m)
    ensures Evolves(m, AddBytes(m, id, n), id)
    ensures id in m.tasks ==> AddBytes(m, id, n).tasks[id] == OnBytes(m.tasks[id], n)
  {
    hide Store, WellFormed;
    EvolvesNot(m, id);
    if id in m.tasks {
      StoreRewrites(m, id, OnBytes(m.tasks[id], n));
    }
  }

  lemma PublishRewrites(m: Memory, id: Id, saw: bool, renamed: bool)
    requires WellFormed(m)
    ensures Evolves(m, Publish(m, id, saw, renamed), id)
    ensures id in m.tasks ==> Publish(m, id, saw, renamed).tasks[id] == OnPublish(m.tasks[id], saw, renamed)
  {
    hide Trim, NoDuplicates, Elements;
    EvolvesNot(m, id);
    if id in m.tasks {
      EvolvesBySet(m, id, OnPublish(m.tasks[id], saw, renamed));
    }
  }

  // ----- one id at a time -----

  /** Everything the state says about one id. `filed` tells whether the worker's destination exists
      although the worker still has it reserved. */
  datatype Cell = Cell(
    task: Option<Task>, worker: Option<Worker>, content: Option<seq<Byte>>, filed: bool,
    publication: Option<Publication>, cancelled: bool)

  function Content(files: map<Path, seq<Byte>>, w: Worker): Option<seq<Byte>> {
    var part := PartOf(w.phase);
    if part.Some? then Lookup(files, part.value) else None
  }

  function Filed(files: map<Path, seq<Byte>>, w: Worker): bool {
    Uncleaned(w) && Final(w.dest) in files
  }

  function CellOf(s: State, id: Id): Cell {
    var worker := Lookup(s.workers, id);
    Cell(Lookup(s.mem.tasks, id), worker,
         if worker.Some? then Content(s.files, worker.value) else None,
         worker.Some? && Filed(s.files, worker.value),
         Lookup(s.log.published, id), id in s.log.cancelled)
  }

  /** A remembered task: exact numbers, and a status that agrees with the history. */
  predicate TaskOk(t: Task, publication: Option<Publication>, cancelled: bool) {
    && 0 <= t.bytesCopied && 0 <= t.bytesTotal
    && (0 < t.bytesTotal ==> t.bytesCopied <= t.bytesTotal)
    && (t.status != Completed ==> t.progress == Progress(t.bytesCopied, t.bytesTotal))
    && (t.status == Completed <==> publication.Some?)
    && (t.status == Completed ==> t.bytesCopied == t.bytesTotal == |publication.value.body| && t.progress == 100)
    && (cancelled ==> t.status == Cancelled)
  }

  function Known(size: Option<nat>): int {
    if size.Some? then size.value else 0
  }

  /** The phase of a worker and the status of its task. */
  predicate PhaseOk(w: Worker, t: Task) {
    && t.status != Submitted
    && t.bytesCopied == w.copied
    && match w.phase
       case Registered => (t.status == Queued || t.status == Cancelled) && t.bytesTotal == Max(w.declared, 0)
       case Requested => (t.status == Running || t.status == Cancelled) && t.bytesTotal == Max(w.declared, 0)
       case Opening(size) => (t.status == Running || t.status == Cancelled) && t.bytesTotal == Known(size)
       case Streaming(size, _) => (t.status == Running || t.status == Cancelled) && t.bytesTotal == Known(size)
       case Finishing(size, _, _) => (t.status == Running || t.status == Cancelled) && t.bytesTotal == Known(size)
       case Failing(_) => t.status == Running || t.status == Cancelled
       case _ => !t.Active()
  }

  predicate SizeOk(w: Worker, size: Option<nat>) {
    && (w.declared > 0 ==> size == Some(w.declared))
    && (size.Some? ==> w.copied <= size.value)
  }

  predicate HoldsAll(w: Worker, part: Path, content: Option<seq<Byte>>) {
    part.Part? && content == Some(w.received) && |w.received| == w.copied
  }

  /** The worker's own data: what it has received, copied and stored. */
  predicate WorkerOk(w: Worker, content: Option<seq<Byte>>) {
    match w.phase
    case Registered => w.copied == 0 && w.received == []
    case Requested => w.copied == 0 && w.received == []
    case Opening(size) => w.copied == 0 && w.received == [] && SizeOk(w, size)
    case Streaming(size, part) => HoldsAll(w, part, content) && SizeOk(w, size)
    case Finishing(size, part, checks) =>
      && HoldsAll(w, part, content) && SizeOk(w, size) && checks <= 4
      && (checks >= 2 && size.Some? ==> w.copied == size.value)
    case Failing(left) => left.Some? ==> left.value.Part? && content.Some?
    case Returning(left) => left.Some? ==> left.value.Part? && content.Some?
    case _ => true
  }

  predicate PublicationOk(w: Worker, publication: Option<Publication>, filed: bool) {
    && (publication.None? ==> !filed)
    && (publication.Some? ==>
          && publication.value.dest == w.dest
          && (w.phase == Returning(None) || w.phase.CleaningUp? || w.phase.Cleaned? || w.phase.SlotReturned?))
  }

  predicate CellOk(c: Cell) {
    && (c.task.Some? ==> TaskOk(c.task.value, c.publication, c.cancelled))
    && (c.worker.Some? ==> WorkerOk(c.worker.value, c.content))
    && (c.worker.Some? ==> PublicationOk(c.worker.value, c.publication, c.filed))
    && (c.task.Some? && c.worker.Some? ==> PhaseOk(c.worker.value, c.task.value))
    && (c.task.Some? && c.worker.None? ==> !c.task.value.Active())
    && (c.publication.Some? && c.publication.value.declared > 0 ==>
          |c.publication.value.body| == c.publication.value.declared)
    && !(c.publication.Some? && c.cancelled)
  }

  /** Forgetting a finished task breaks nothing. */
  lemma Forgotten(c: Cell)
    requires CellOk(c) && (c.task.Some? ==> !c.task.value.Active())
    ensures CellOk(c.(task := None))
  {
  }

  // ----- the whole state -----

  ghost predicate CellsOk(s: State) {
    forall id :: CellOk(CellOf(s, id))
  }

  /** No id in use is newer than the counter. */
  ghost predicate IdsOk(s: State) {
    && (forall id <- s.workers :: 1 <= id <= s.mem.next)
    && (forall id <- s.log.published :: 1 <= id <= s.mem.next)
    && (forall id <- s.log.cancelled :: 1 <= id <= s.mem.next)
  }

  function UncleanedIds(workers: map<Id, Worker>): set<Id> {
    set id | id in workers && Uncleaned(workers[id])
  }

  function SlotHolders(workers: map<Id, Worker>): set<Id> {
    set id | id in workers && HoldsSlot(workers[id])
  }

  /** The cancel map and the reservations match the workers that have not cleaned up, one to one. */
  ghost predicate MapsOk(m: Memory, workers: map<Id, Worker>) {
    && m.cancels == UncleanedIds(workers)
    && m.reservations == (set id | id in UncleanedIds(workers) :: workers[id].dest)
    && (forall i, j :: i in UncleanedIds(workers) && j in UncleanedIds(workers) && i != j ==>
          workers[i].dest != workers[j].dest)
  }

  /** Slots and the wait group are accounted for. */
  ghost predicate CountsOk(s: State) {
    && s.mem.slots == s.starters + s.refused + |SlotHolders(s.workers)|
    && s.mem.slots <= MAX_REMOTE_DOWNLOADS
    && s.mem.waitGroup == |s.workers|
  }

  /** Published files are in place, each under its own name. */
  ghost predicate PublishedOk(published: map<Id, Publication>, files: map<Path, seq<Byte>>) {
    && (forall id <- published ::
          Final(published[id].dest) in files && files[Final(published[id].dest)] == published[id].body)
    && (forall i, j :: i in published && j in published && i != j ==> published[i].dest != published[j].dest)
  }

  /** Every temporary file belongs to one worker, or its removal failed. */
  ghost predicate PartsOk(workers: map<Id, Worker>, files: map<Path, seq<Byte>>, leaked: set<Path>) {
    && (forall i, j :: i in workers && j in workers && i != j && PartOf(workers[i].phase).Some? ==>
          PartOf(workers[i].phase) != PartOf(workers[j].phase))
    && (forall p <- files :: p.Part? ==>
          p in leaked || exists id :: id in workers && PartOf(workers[id].phase) == Some(p))
  }

  ghost predicate ClosingOk(s: State) {
    && (s.rootCancelled ==> s.mem.closed)
    && (s.done ==> s.rootCancelled && s.mem.waitGroup == 0)
  }

  ghost predicate Inv(s: State) {
    && WellFormed(s.mem)
    && CellsOk(s)
    && IdsOk(s)
    && MapsOk(s.mem, s.workers)
    && CountsOk(s)
    && PublishedOk(s.log.published, s.files)
    && PartsOk(s.workers, s.files, s.log.leaked)
    && ClosingOk(s)
    && |s.mem.order| <= MAX_REMEMBERED_TASKS
  }

  lemma InitInv(s: State)
    requires Init(s)
    ensures Inv(s)
  {
    forall id ensures CellOk(CellOf(s, id)) {
    }
  }

  // ----- steps of a worker that has not cleaned up -----

  /** What such a step may change: its own worker record, its own task, and files that matter to nobody else. */
  ghost predicate Moves(s: State, s': State, id: Id) {
    && id in s.workers && id in s'.workers
    && s' == s.(mem := s'.mem, files := s'.files, log := s'.log, workers := s.workers[id := s'.workers[id]])
    && s'.workers[id].dest == s.workers[id].dest
    && Uncleaned(s.workers[id]) && Uncleaned(s'.workers[id])
    && Evolves(s.mem, s'.mem, id)
    && s'.log.cancelled == s.log.cancelled
    && (forall i :: i != id ==> Lookup(s'.log.published, i) == Lookup(s.log.published, i))
    && (forall i :: i != id && i in s.workers ==>
          && Content(s'.files, s.workers[i]) == Content(s.files, s.workers[i])
          && Filed(s'.files, s.workers[i]) == Filed(s.files, s.workers[i]))
  }

  lemma MoveKeepsCells(s: State, s': State, id: Id)
    requires CellsOk(s) && Moves(s, s', id) && CellOk(CellOf(s', id))
    ensures CellsOk(s')
  {
    hide CellOk, WellFormed;
    forall i ensures CellOk(CellOf(s', i)) {
      assert CellOk(CellOf(s, i));
      if i != id {
        if i in s'.mem.tasks || i !in s.mem.tasks {
          assert CellOf(s', i) == CellOf(s, i);
        } else {
          assert CellOf(s', i) == CellOf(s, i).(task := None);
          Forgotten(CellOf(s, i));
        }
      }
    }
  }

  lemma MoveKeepsRest(s: State, s': State, id: Id)
    requires Inv(s) && Moves(s, s', id)
    ensures WellFormed(s'.mem) && IdsOk(s') && MapsOk(s'.mem, s'.workers) && CountsOk(s') && ClosingOk(s')
    ensures |s'.mem.order| <= MAX_REMEMBERED_TASKS
  {
    hide CellsOk, PublishedOk, PartsOk, WellFormed, IdsOk, MapsOk, UncleanedIds, SlotHolders;
    MoveKeepsSets(s, s', id);
    MoveKeepsIds(s, s', id);
    MoveKeepsMaps(s, s', id);
  }

  lemma MoveKeepsSets(s: State, s': State, id: Id)
    requires Moves(s, s', id)
    ensures UncleanedIds(s'.workers) == UncleanedIds(s.workers) && SlotHolders(s'.workers) == SlotHolders(s.workers)
    ensures s'.workers.Keys == s.workers.Keys
  {
    hide Evolves, Lookup, Content, Filed;
  }

  lemma MoveKeepsIds(s: State, s': State, id: Id)
    requires IdsOk(s) && Moves(s, s', id)
    ensures IdsOk(s')
  {
    hide WellFormed, Content, Filed;
    assert forall i :: i in s'.log.published && i != id ==> Lookup(s'.log.published, i).Some?;
  }

  lemma MoveKeepsMaps(s: State, s': State, id: Id)
    requires MapsOk(s.mem, s.workers) && Moves(s, s', id)
    ensures MapsOk(s'.mem, s'.workers)
  {
    hide WellFormed, Content, Filed, Lookup;
    MoveKeepsSets(s, s', id);
    hide UncleanedIds;
    assert forall i <- UncleanedIds(s.workers) :: i in s.workers ==> s'.workers[i].dest == s.workers[i].dest;
  }
}
