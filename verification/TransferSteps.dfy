/** Every step of the remote-download protocol keeps its invariant. */
module TransferSteps {
  import opened Prelude
  import opened HistoryTrim
  import opened TransferStream
  import opened TransferModel
  import opened TransferMachine
  import opened TransferInvariant

  /** A worker step that leaves files and history alone. */
  lemma QuietMove(s: State, s': State, id: Id)
    requires Inv(s) && Moves(s, s', id) && CellOk(CellOf(s', id))
    requires s'.files == s.files && s'.log == s.log
    requires PartOf(s'.workers[id].phase) == PartOf(s.workers[id].phase)
    ensures Inv(s')
  {
    MoveKeepsCells(s, s', id);
    MoveKeepsRest(s, s', id);
    hide CellsOk, WellFormed, Moves, MapsOk, CountsOk, IdsOk;
    SameParts(s.workers, s'.workers, s.files, s.log.leaked);
  }

  lemma SameParts(ws: map<Id, Worker>, ws': map<Id, Worker>, files: map<Path, seq<Byte>>, leaked: set<Path>)
    requires PartsOk(ws, files, leaked)
    requires ws'.Keys == ws.Keys
    requires forall i <- ws :: PartOf(ws'[i].phase) == PartOf(ws[i].phase)
    ensures PartsOk(ws', files, leaked)
  {
    forall p | p in files && p.Part? && p !in leaked
      ensures exists id :: id in ws' && PartOf(ws'[id].phase) == Some(p)
    {
      var id :| id in ws && PartOf(ws[id].phase) == Some(p);
      assert PartOf(ws'[id].phase) == Some(p);
    }
  }

  /** A worker that changes its phase, and at most its own task, moves. */
  lemma PhaseMoves(s: State, id: Id, m: Memory, phase: Phase)
    requires id in s.workers && Uncleaned(s.workers[id]) && Evolves(s.mem, m, id)
    requires phase != Cleaned && phase != SlotReturned
    ensures Moves(s, SetPhase(s.(mem := m), id, phase), id)
  {
    hide Evolves, Lookup, Content, Filed;
  }

  lemma BeginKeeps(s: State, id: Id)
    requires Inv(s) && CanBeginWork(s, id)
    ensures Inv(DoBegin(s, id))
  {
    hide Trim, WellFormed, MapsOk, CountsOk, PublishedOk, PartsOk, IdsOk, ClosingOk, Progress;
    var s' := DoBegin(s, id);
    BeginRewrites(s.mem, id);
    assert CellOk(CellOf(s, id));
    QuietMove(s, s', id);
  }

  lemma AcceptKeeps(s: State, id: Id, contentLength: Option<nat>)
    requires Inv(s) && CanAccept(s, id, contentLength)
    ensures Inv(DoAccept(s, id, contentLength))
  {
    hide Trim, WellFormed, MapsOk, CountsOk, PublishedOk, PartsOk, IdsOk, ClosingOk, Progress;
    var s' := DoAccept(s, id, contentLength);
    var size := SizeOf(s.workers[id].declared, contentLength);
    ProgressOfNothing(Known(size));
    ProgressOfNothing(Max(s.workers[id].declared, 0));
    EvolvesNot(s.mem, id);
    if size.Some? {
      TotalRewrites(s.mem, id, size.value);
    }
    assert CellOk(CellOf(s, id));
    QuietMove(s, s', id);
  }

  lemma EndBodyKeeps(s: State, id: Id)
    requires Inv(s) && CanEndBody(s, id)
    ensures Inv(DoEndBody(s, id))
  {
    hide Trim, WellFormed, MapsOk, CountsOk, PublishedOk, PartsOk, IdsOk, ClosingOk, Progress;
    EvolvesNot(s.mem, id);
    assert CellOk(CellOf(s, id));
    QuietMove(s, DoEndBody(s, id), id);
  }

  lemma CheckKeeps(s: State, id: Id, saw: bool)
    requires Inv(s) && CanCheck(s, id, saw)
    ensures Inv(DoCheck(s, id, saw))
  {
    hide Trim, WellFormed, MapsOk, CountsOk, PublishedOk, PartsOk, IdsOk, ClosingOk, Progress;
    EvolvesNot(s.mem, id);
    CancelRewrites(s.mem, id);
    assert CellOk(CellOf(s, id));
    QuietMove(s, DoCheck(s, id, saw), id);
  }

  lemma GiveUpKeeps(s: State, id: Id)
    requires Inv(s) && CanGiveUp(s, id)
    ensures Inv(DoGiveUp(s, id))
  {
    hide Trim, WellFormed, MapsOk, CountsOk, PublishedOk, PartsOk, IdsOk, ClosingOk, Progress;
    EvolvesNot(s.mem, id);
    assert CellOk(CellOf(s, id));
    QuietMove(s, DoGiveUp(s, id), id);
  }

  lemma FailKeeps(s: State, id: Id, error: string)
    requires Inv(s) && CanFail(s, id)
    ensures Inv(DoFail(s, id, error))
  {
    hide Trim, WellFormed, MapsOk, CountsOk, PublishedOk, PartsOk, IdsOk, ClosingOk, Progress;
    FailRewrites(s.mem, id, error);
    assert CellOk(CellOf(s, id));
    QuietMove(s, DoFail(s, id, error), id);
  }

  lemma StopKeeps(s: State, id: Id)
    requires Inv(s) && CanStop(s, id)
    ensures Inv(DoStop(s, id))
  {
    hide Trim, WellFormed, MapsOk, CountsOk, PublishedOk, PartsOk, IdsOk, ClosingOk, Progress;
    CancelRewrites(s.mem, id);
    assert CellOk(CellOf(s, id));
    PhaseMoves(s, id, CancelTask(s.mem, id), Returning(PartOf(s.workers[id].phase)));
    hide Moves;
    QuietMove(s, DoStop(s, id), id);
  }

  // ----- steps that touch files -----

  lemma CreatePartKeeps(s: State, id: Id, serial: nat)
    requires Inv(s) && CanCreatePart(s, id, serial)
    ensures Inv(DoCreatePart(s, id, serial))
  {
    hide Trim, WellFormed, MapsOk, CountsOk, IdsOk, ClosingOk, Progress;
    var s', part := DoCreatePart(s, id, serial), Part(serial);
    EvolvesNot(s.mem, id);
    assert CellOk(CellOf(s, id));
    assert s'.files[part] == [];
    OthersKeepContent(s, id, part, s'.files);
    MoveKeepsCells(s, s', id);
    MoveKeepsRest(s, s', id);
    hide CellsOk, Moves;
    assert PartsOk(s'.workers, s'.files, s'.log.leaked) by {
      assert PartOf(s'.workers[id].phase) == Some(part);
      forall p | p in s'.files && p.Part? && p !in s.log.leaked
        ensures exists i :: i in s'.workers && PartOf(s'.workers[i].phase) == Some(p)
      {
        if p != part {
          var i :| i in s.workers && PartOf(s.workers[i].phase) == Some(p);
          assert PartOf(s'.workers[i].phase) == Some(p);
        }
      }
      forall j | j in s.workers && j != id
        ensures PartOf(s'.workers[j].phase) != Some(part)
      {
        PartsExist(s, j);
      }
    }
  }

  /** The temporary file a worker holds is on disk. */
  lemma PartsExist(s: State, id: Id)
    requires CellsOk(s) && id in s.workers
    ensures PartOf(s.workers[id].phase).Some? ==>
              PartOf(s.workers[id].phase).value.Part? && PartOf(s.workers[id].phase).value in s.files
  {
    assert CellOk(CellOf(s, id));
  }

  /** Changing a temporary file that no other worker holds changes nothing for the others. */
  lemma OthersKeepContent(s: State, id: Id, part: Path, files: map<Path, seq<Byte>>)
    requires CellsOk(s) && part.Part?
    requires forall p :: p != part ==> Lookup(files, p) == Lookup(s.files, p)
    requires part in s.files ==> forall i :: i != id && i in s.workers ==> PartOf(s.workers[i].phase) != Some(part)
    ensures forall i :: i != id && i in s.workers ==>
              && Content(files, s.workers[i]) == Content(s.files, s.workers[i])
              && Filed(files, s.workers[i]) == Filed(s.files, s.workers[i])
  {
    forall i | i != id && i in s.workers
      ensures Content(files, s.workers[i]) == Content(s.files, s.workers[i])
      ensures Filed(files, s.workers[i]) == Filed(s.files, s.workers[i])
    {
      PartsExist(s, i);
      assert Lookup(files, Final(s.workers[i].dest)) == Lookup(s.files, Final(s.workers[i].dest));
    }
  }

  lemma CopyKeeps(s: State, id: Id, data: Chunk, accept: nat, writeError: bool)
    requires Inv(s) && CanCopy(s, id, data)
    ensures Inv(DoCopy(s, id, data, accept, writeError))
  {
    var w := s.workers[id];
    var v := Judge(w.copied, w.phase.size, data, accept, writeError);
    if v.TooLong? {
      RefuseKeeps(s, id);
    } else {
      StoreKeeps(s, id, data, accept, writeError);
    }
  }

  lemma RefuseKeeps(s: State, id: Id)
    requires Inv(s) && CanEndBody(s, id)
    ensures Inv(SetPhase(s, id, Failing(Some(s.workers[id].phase.part))))
  {
    hide Trim, WellFormed, MapsOk, CountsOk, PublishedOk, PartsOk, IdsOk, ClosingOk, Progress;
    EvolvesNot(s.mem, id);
    assert CellOk(CellOf(s, id));
    QuietMove(s, SetPhase(s, id, Failing(Some(s.workers[id].phase.part))), id);
  }

  lemma StoreKeeps(s: State, id: Id, data: Chunk, accept: nat, writeError: bool)
    requires Inv(s) && CanCopy(s, id, data)
    requires Judge(s.workers[id].copied, s.workers[id].phase.size, data, accept, writeError).Stored?
    ensures Inv(DoCopy(s, id, data, accept, writeError))
  {
    hide Trim, WellFormed, MapsOk, CountsOk, IdsOk, ClosingOk, Progress, Judge;
    var s' := DoCopy(s, id, data, accept, writeError);
    var part := s.workers[id].phase.part;
    StoreCell(s, id, data, accept, writeError);
    assert part.Part? by {
      PartsExist(s, id);
    }
    OthersKeepContent(s, id, part, s'.files);
    MoveKeepsCells(s, s', id);
    MoveKeepsRest(s, s', id);
    hide CellsOk, Moves;
    SameParts(s.workers, s'.workers, s.files, s.log.leaked);
  }

  /** The cell of a worker that has just stored `n` of the bytes it read. */
  function Grown(c: Cell, data: Chunk, n: nat, whole: bool): Cell
    requires c.worker.Some? && c.worker.value.phase.Streaming? && c.content.Some?
    requires n <= |data| && c.worker.value.copied + n <= MAX_INT64
  {
    var w := c.worker.value;
    c.(task := if c.task.Some? && n > 0 then Some(OnBytes(c.task.value, n)) else c.task,
       worker := Some(w.(received := w.received + data, copied := w.copied + n,
                         phase := if whole then w.phase else Failing(Some(w.phase.part)))),
       content := Some(c.content.value + data[..n]))
  }

  lemma GrownOk(c: Cell, data: Chunk, n: nat, whole: bool)
    requires CellOk(c) && c.worker.Some? && c.worker.value.phase.Streaming? && c.content.Some?
    requires n <= |data| && c.worker.value.copied + n <= MAX_INT64
    requires whole ==> n == |data|
    requires c.worker.value.phase.size.Some? ==> c.worker.value.copied + n <= c.worker.value.phase.size.value
    ensures CellOk(Grown(c, data, n, whole))
  {
    hide Progress;
    if whole {
      assert data[..n] == data;
    }
  }

  lemma StoreCell(s: State, id: Id, data: Chunk, accept: nat, writeError: bool)
    requires Inv(s) && CanCopy(s, id, data)
    requires Judge(s.workers[id].copied, s.workers[id].phase.size, data, accept, writeError).Stored?
    ensures var s' := DoCopy(s, id, data, accept, writeError);
      Evolves(s.mem, s'.mem, id) && CellOk(CellOf(s', id))
  {
    hide Trim, WellFormed, MapsOk, CountsOk, PublishedOk, PartsOk, IdsOk, ClosingOk, Progress, Judge, CellOk;
    var w, c := s.workers[id], CellOf(s, id);
    var v := Judge(w.copied, w.phase.size, data, accept, writeError);
    assert CellOk(c);
    StreamingFits(c);
    EvolvesNot(s.mem, id);
    BytesRewrites(s.mem, id, v.written);
    GrownOk(c, data, v.written, v.whole);
    assert CellOf(DoCopy(s, id, data, accept, writeError), id) == Grown(c, data, v.written, v.whole);
  }

  lemma StreamingFits(c: Cell)
    requires CellOk(c) && c.worker.Some? && c.worker.value.phase.Streaming?
    ensures c.worker.value.phase.size.Some? ==> c.worker.value.copied <= c.worker.value.phase.size.value
  {
  }

  lemma PublishKeeps(s: State, id: Id, renamed: bool)
    requires Inv(s) && CanPublish(s, id)
    ensures Inv(DoPublish(s, id, renamed))
  {
    if Renames(s, id, renamed) {
      RenameKeeps(s, id);
    } else {
      NoRenameKeeps(s, id, renamed);
    }
  }

  lemma NoRenameKeeps(s: State, id: Id, renamed: bool)
    requires Inv(s) && CanPublish(s, id) && !Renames(s, id, renamed)
    ensures Inv(DoPublish(s, id, renamed))
  {
    hide Inv, Moves, CellOk, CellOf, DoPublish, CanPublish, Renames, PartOf;
    NoRenameMoves(s, id, renamed);
    QuietMove(s, DoPublish(s, id, renamed), id);
  }

  /** Without a rename only the worker's phase and its own task move; no file and no log entry does. */
  lemma NoRenameMoves(s: State, id: Id, renamed: bool)
    requires Inv(s) && CanPublish(s, id) && !Renames(s, id, renamed)
    ensures var s' := DoPublish(s, id, renamed);
      && Moves(s, s', id) && CellOk(CellOf(s', id)) && s'.files == s.files && s'.log == s.log
      && PartOf(s'.workers[id].phase) == PartOf(s.workers[id].phase)
  {
    NoRenameCell(s, id, renamed);
    hide Inv, Publish, WillRename, CellOf, CellOk, Evolves, ContextCancelled, Moves;
    var saw, part := ContextCancelled(s, id), s.workers[id].phase.part;
    PhaseMoves(s, id, Publish(s.mem, id, saw, renamed),
               if WillRename(s.mem, id, saw) then Failing(Some(part)) else Returning(Some(part)));
  }

  lemma NoRenameCell(s: State, id: Id, renamed: bool)
    requires Inv(s) && CanPublish(s, id) && !Renames(s, id, renamed)
    ensures var s' := DoPublish(s, id, renamed);
      Evolves(s.mem, s'.mem, id) && CellOk(CellOf(s', id)) && Uncleaned(s'.workers[id])
  {
    hide Trim, WellFormed, MapsOk, CountsOk, PublishedOk, PartsOk, IdsOk, ClosingOk, Progress;
    assert CellOk(CellOf(s, id));
    PublishRewrites(s.mem, id, ContextCancelled(s, id), renamed);
  }

  lemma RenameKeeps(s: State, id: Id)
    requires Inv(s) && Renames(s, id, true)
    ensures Inv(DoPublish(s, id, true))
  {
    hide Trim, WellFormed, CountsOk, IdsOk, ClosingOk, Progress, MapsOk;
    var s', w := DoPublish(s, id, true), s.workers[id];
    var part, final := w.phase.part, Final(w.dest);
    DestinationIsFree(s, id);
    RenameCell(s, id);
    RenameOthers(s, id);
    MoveKeepsCells(s, s', id);
    MoveKeepsRest(s, s', id);
    hide CellsOk, Moves;
    assert PublishedOk(s'.log.published, s'.files) by {
      hide PartsOk;
      assert w.phase.part.Part?;
    }
    assert PartsOk(s'.workers, s'.files, s'.log.leaked) by {
      hide PublishedOk;
      forall p | p in s'.files && p.Part? && p !in s.log.leaked
        ensures exists i :: i in s'.workers && PartOf(s'.workers[i].phase) == Some(p)
      {
        var i :| i in s.workers && PartOf(s.workers[i].phase) == Some(p);
        assert i != id;
        assert PartOf(s'.workers[i].phase) == Some(p);
      }
    }
  }

  /** The destination of a worker about to publish does not exist and is not a published name. */
  lemma DestinationIsFree(s: State, id: Id)
    requires Inv(s) && CanPublish(s, id)
    ensures Final(s.workers[id].dest) !in s.files
    ensures id !in s.log.published
    ensures forall i <- s.log.published :: s.log.published[i].dest != s.workers[id].dest
    ensures s.workers[id].phase.part.Part?
  {
    assert CellOk(CellOf(s, id));
  }

  lemma RenameCell(s: State, id: Id)
    requires Inv(s) && Renames(s, id, true)
    ensures var s' := DoPublish(s, id, true);
      && Evolves(s.mem, s'.mem, id) && CellOk(CellOf(s', id))
      && s.files[s.workers[id].phase.part] == s.workers[id].received
  {
    hide Trim, WellFormed, MapsOk, CountsOk, PublishedOk, PartsOk, IdsOk, ClosingOk, Progress;
    assert CellOk(CellOf(s, id));
    PublishRewrites(s.mem, id, false, true);
  }

  lemma RenameOthers(s: State, id: Id)
    requires Inv(s) && Renames(s, id, true)
    ensures var s' := DoPublish(s, id, true);
      forall i :: i != id && i in s.workers ==>
        && Content(s'.files, s.workers[i]) == Content(s.files, s.workers[i])
        && Filed(s'.files, s.workers[i]) == Filed(s.files, s.workers[i])
  {
    hide Trim, WellFormed, CountsOk, PublishedOk, IdsOk, ClosingOk, Progress, CellOk;
    var s', w := DoPublish(s, id, true), s.workers[id];
    forall i | i != id && i in s.workers
      ensures Content(s'.files, s.workers[i]) == Content(s.files, s.workers[i])
      ensures Filed(s'.files, s.workers[i]) == Filed(s.files, s.workers[i])
    {
      PartsExist(s, i);
      PartsExist(s, id);
      if Uncleaned(s.workers[i]) {
        assert i in UncleanedIds(s.workers) && id in UncleanedIds(s.workers);
        assert s.workers[i].dest != w.dest;
      }
    }
  }

  lemma RemovePartKeeps(s: State, id: Id, removed: bool)
    requires Inv(s) && CanRemovePart(s, id)
    ensures Inv(DoRemovePart(s, id, removed))
  {
    hide Trim, WellFormed, CountsOk, IdsOk, ClosingOk, Progress, MapsOk;
    var s', left := DoRemovePart(s, id, removed), s.workers[id].phase.left;
    EvolvesNot(s.mem, id);
    PartsExist(s, id);
    RemoveCell(s, id, removed);
    if left.Some? {
      OthersKeepContent(s, id, left.value, s'.files);
    }
    MoveKeepsCells(s, s', id);
    MoveKeepsRest(s, s', id);
    hide CellsOk, Moves;
    forall p | p in s'.files && p.Part? && p !in s'.log.leaked
      ensures exists i :: i in s'.workers && PartOf(s'.workers[i].phase) == Some(p)
    {
      var i :| i in s.workers && PartOf(s.workers[i].phase) == Some(p);
      assert i != id;
      assert PartOf(s'.workers[i].phase) == Some(p);
    }
  }

  lemma RemoveCell(s: State, id: Id, removed: bool)
    requires Inv(s) && CanRemovePart(s, id)
    ensures CellOk(CellOf(DoRemovePart(s, id, removed), id))
  {
    hide WellFormed, CountsOk, IdsOk, ClosingOk, Progress, MapsOk, PartsOk, PublishedOk;
    assert CellOk(CellOf(s, id));
  }

  // ----- the deferred clean-up -----

  predicate InTail(w: Worker) {
    w.phase.CleaningUp? || w.phase.Cleaned? || w.phase.SlotReturned?
  }

  /** After its work a worker's own record may move on, or go, without breaking any cell. */
  lemma TailKeepsCells(s: State, s': State, id: Id)
    requires CellsOk(s) && id in s.workers && InTail(s.workers[id])
    requires s'.mem.tasks == s.mem.tasks && s'.files == s.files && s'.log == s.log
    requires forall i :: i != id ==> Lookup(s'.workers, i) == Lookup(s.workers, i)
    requires id in s'.workers ==> InTail(s'.workers[id]) && !Uncleaned(s'.workers[id])
    requires id in s'.workers ==> s'.workers[id] == s.workers[id].(phase := s'.workers[id].phase)
    ensures CellsOk(s')
  {
    forall i ensures CellOk(CellOf(s', i)) {
      assert CellOk(CellOf(s, i));
      if i != id {
        assert CellOf(s', i) == CellOf(s, i);
      } else {
        hide Progress;
      }
    }
  }

  lemma TailKeepsParts(s: State, s': State, id: Id)
    requires PartsOk(s.workers, s.files, s.log.leaked) && id in s.workers && InTail(s.workers[id])
    requires forall i :: i != id ==> Lookup(s'.workers, i) == Lookup(s.workers, i)
    requires id in s'.workers ==> InTail(s'.workers[id])
    ensures PartsOk(s'.workers, s.files, s.log.leaked)
  {
    forall i | i in s'.workers && PartOf(s'.workers[i].phase).Some?
      ensures i in s.workers && s.workers[i] == s'.workers[i]
    {
      assert Lookup(s'.workers, i) == Lookup(s.workers, i);
    }
    forall p | p in s.files && p.Part? && p !in s.log.leaked
      ensures exists i :: i in s'.workers && PartOf(s'.workers[i].phase) == Some(p)
    {
      var i :| i in s.workers && PartOf(s.workers[i].phase) == Some(p);
      assert Lookup(s'.workers, i) == Lookup(s.workers, i);
      assert i in s'.workers && PartOf(s'.workers[i].phase) == Some(p);
    }
  }

  lemma CleanKeeps(s: State, id: Id)
    requires Inv(s) && CanClean(s, id)
    ensures Inv(DoClean(s, id))
  {
    hide CellsOk, PartsOk, NoDuplicates, Elements;
    var s', ws := DoClean(s, id), s.workers;
    TailKeepsCells(s, s', id);
    TailKeepsParts(s, s', id);
    CleanMapsOk(s, id);
    hide MapsOk;
    assert SlotHolders(s'.workers) == SlotHolders(ws);
    assert s'.workers.Keys == ws.Keys;
  }

  lemma CleanMapsOk(s: State, id: Id)
    requires MapsOk(s.mem, s.workers) && CanClean(s, id)
    ensures MapsOk(DoClean(s, id).mem, DoClean(s, id).workers)
  {
    var s', ws := DoClean(s, id), s.workers;
    var before, after := UncleanedIds(ws), UncleanedIds(s'.workers);
    assert id in before;
    assert after == before - {id};
    assert forall i <- after :: s'.workers[i].dest == ws[i].dest;
    forall d ensures d in s'.mem.reservations <==> exists i :: i in after && s'.workers[i].dest == d {
      if d in s'.mem.reservations {
        var i :| i in before && ws[i].dest == d;
        assert i in after && s'.workers[i].dest == d;
      }
      if i :| i in after && s'.workers[i].dest == d {
        assert ws[i].dest != ws[id].dest;
      }
    }
  }

  lemma ReturnSlotKeeps(s: State, id: Id)
    requires Inv(s) && CanReturnSlot(s, id)
    ensures Inv(DoReturnSlot(s, id))
  {
    hide CellsOk, PartsOk, PublishedOk, MapsOk, UncleanedIds, SlotHolders, NoDuplicates, Elements;
    var s', ws := DoReturnSlot(s, id), s.workers;
    TailKeepsCells(s, s', id);
    TailKeepsParts(s, s', id);
    WorkerReturnsSlot(ws, id);
    ReturnedMaps(s, id);
  }

  /** A cleaned worker that returns its slot leaves the slot holders, and is otherwise where it was. */
  lemma WorkerReturnsSlot(ws: map<Id, Worker>, id: Id)
    requires id in ws && ws[id].phase.Cleaned?
    ensures var ws' := ws[id := ws[id].(phase := SlotReturned)];
      && UncleanedIds(ws') == UncleanedIds(ws) && ws'.Keys == ws.Keys
      && id in SlotHolders(ws) && SlotHolders(ws') == SlotHolders(ws) - {id}
  {
  }

  lemma ReturnedMaps(s: State, id: Id)
    requires MapsOk(s.mem, s.workers) && CanReturnSlot(s, id)
    ensures MapsOk(DoReturnSlot(s, id).mem, DoReturnSlot(s, id).workers)
  {
    var ws := s.workers;
    var ws' := DoReturnSlot(s, id).workers;
    WorkerReturnsSlot(ws, id);
    assert forall i <- UncleanedIds(ws) :: i in ws && i in ws' && ws'[i].dest == ws[i].dest;
    assert (set i | i in UncleanedIds(ws') :: ws'[i].dest) == (set i | i in UncleanedIds(ws) :: ws[i].dest);
  }

  lemma DoneKeeps(s: State, id: Id)
    requires Inv(s) && CanBeDone(s, id)
    ensures Inv(DoDone(s, id))
  {
    hide CellsOk, PartsOk, NoDuplicates, Elements;
    var s', ws := DoDone(s, id), s.workers;
    TailKeepsCells(s, s', id);
    TailKeepsParts(s, s', id);
    assert UncleanedIds(s'.workers) == UncleanedIds(ws);
    assert SlotHolders(s'.workers) == SlotHolders(ws);
    assert s'.workers.Keys == ws.Keys - {id};
  }

  // ----- starters, submitted tasks, cancels and shutdown -----

  function ActiveIds(tasks: map<Id, Task>): set<Id> {
    set id | id in tasks && tasks[id].Active()
  }

  /** Every queued or running task has a worker that still holds its slot, so there are at most three. */
  lemma FewActive(s: State)
    requires Inv(s)
    ensures ActiveIds(s.mem.tasks) <= UncleanedIds(s.workers) <= SlotHolders(s.workers)
    ensures |ActiveIds(s.mem.tasks)| <= MAX_REMOTE_DOWNLOADS
  {
    hide WellFormed, MapsOk, IdsOk, PublishedOk, PartsOk, ClosingOk, Progress;
    forall id | id in ActiveIds(s.mem.tasks)
      ensures id in UncleanedIds(s.workers)
    {
      assert CellOk(CellOf(s, id));
    }
    SubsetSize(ActiveIds(s.mem.tasks), SlotHolders(s.workers));
  }

  /** Remembering one more task and trimming leaves at most a hundred. */
  lemma HistoryStaysBounded(m: Memory, newest: Id, others: set<Id>)
    requires WellFormed(m) && |m.order| <= MAX_REMEMBERED_TASKS + 1
    requires Protected(m.tasks, newest) == {newest} + others && |others| <= MAX_REMOTE_DOWNLOADS
    ensures |Trim(m, newest).order| <= MAX_REMEMBERED_TASKS
  {
    hide Dropped, Without, NoDuplicates, Elements, Protected;
    OneMore(newest, others);
    TrimToBound(m.order, Protected(m.tasks, newest));
  }

  lemma TrimToBound(order: seq<Id>, keep: set<Id>)
    requires NoDuplicates(order) && |order| <= MAX_REMEMBERED_TASKS + 1 && |keep| <= 1 + MAX_REMOTE_DOWNLOADS
    ensures |Without(order, Dropped(order, keep, |order| - MAX_REMEMBERED_TASKS))| <= MAX_REMEMBERED_TASKS
  {
    hide Dropped, Without, NoDuplicates, Elements;
    TrimmedLength(order, keep, MAX_REMEMBERED_TASKS);
    DistinctCount(order);
    SizesAddUp(Elements(order), keep);
  }

  lemma OneMore(newest: Id, others: set<Id>)
    ensures |{newest} + others| <= 1 + |others|
  {
  }

  lemma SizesAddUp(all: set<Id>, keep: set<Id>)
    ensures |all - keep| + |keep| >= |all|
  {
    SubsetSize(all, (all - keep) + keep);
    assert |(all - keep) + keep| == |all - keep| + |keep|;
  }

  /** The memory with one more task at the front of the history. */
  function WithTask(m: Memory, t: Task): Memory {
    m.(next := m.next + 1, tasks := m.tasks[m.next + 1 := t], order := [m.next + 1] + m.order)
  }

  ghost predicate Grows(m: Memory, m': Memory, t: Task) {
    && WellFormed(m') && m'.next == m.next + 1
    && m' == m.(next := m'.next, tasks := m'.tasks, order := m'.order)
    && m'.next in m'.tasks && m'.tasks[m'.next] == t
    && (forall i :: i != m'.next && i in m'.tasks ==> i in m.tasks && m'.tasks[i] == m.tasks[i])
    && (forall i :: i != m'.next && i in m.tasks && m.tasks[i].Active() ==> i in m'.tasks)
    && |m'.order| <= MAX_REMEMBERED_TASKS
  }

  lemma TrimGrows(m: Memory, t: Task)
    requires WellFormed(m) && |m.order| <= MAX_REMEMBERED_TASKS
    requires |ActiveIds(m.tasks)| <= MAX_REMOTE_DOWNLOADS
    ensures Grows(m, Trim(WithTask(m, t), m.next + 1), t)
  {
    hide Dropped, Without, TrimGone, NoDuplicates, Elements;
    var m1, id := WithTask(m, t), m.next + 1;
    WithTaskOk(m, t);
    ProtectedWithTask(m, t);
    TrimFacts(m1, id);
    HistoryStaysBounded(m1, id, ActiveIds(m.tasks));
    hide Protected, ActiveIds, WellFormed;
  }

  lemma ProtectedWithTask(m: Memory, t: Task)
    ensures Protected(WithTask(m, t).tasks, m.next + 1) == {m.next + 1} + ActiveIds(m.tasks)
  {
  }

  lemma WithTaskOk(m: Memory, t: Task)
    requires WellFormed(m)
    ensures WellFormed(WithTask(m, t)) && m.next + 1 !in m.tasks
    ensures |WithTask(m, t).order| == |m.order| + 1
  {
    var m1 := WithTask(m, t);
    assert m.next + 1 !in Elements(m.order);
    assert Elements(m1.order) == Elements(m.order) + {m.next + 1};
  }

  lemma RegisterKeeps(s: State, dest: string, declared: int)
    requires Inv(s) && CanRegister(s, dest)
    ensures Inv(DoRegister(s, dest, declared))
  {
    hide WellFormed, CellsOk, IdsOk, MapsOk, CountsOk, PublishedOk, PartsOk, ClosingOk, Grows, Trim, ActiveIds,
         UncleanedIds, SlotHolders;
    var s', id := DoRegister(s, dest, declared), s.mem.next + 1;
    var t := Task(dest, Queued, "", Max(declared, 0), 0, 0);
    FewActive(s);
    RegisterMemory(s.mem, dest, declared);
    hide Register;
    var grown := s'.mem.(cancels := s.mem.cancels, reservations := s.mem.reservations, waitGroup := s.mem.waitGroup);
    RegisterCells(s, s', grown, t);
    RegisterRest(s, s', grown, t);
  }

  /** `s'` is `s` after the registration of one worker; `grown` is the memory with its task. */
  ghost predicate Registers(s: State, s': State, grown: Memory, t: Task) {
    && Grows(s.mem, grown, t)
    && s'.mem == grown.(cancels := s.mem.cancels + {grown.next}, waitGroup := s.mem.waitGroup + 1,
                        reservations := s'.mem.reservations)
    && s.starters > 0 && grown.next in s'.workers && s'.workers[grown.next].phase == Registered
    && s'.mem.reservations == s.mem.reservations + {s'.workers[grown.next].dest}
    && s'.workers[grown.next].dest !in s.mem.reservations
    && s' == s.(mem := s'.mem, starters := s.starters - 1, workers := s.workers[grown.next := s'.workers[grown.next]])
  }

  lemma RegisterRest(s: State, s': State, grown: Memory, t: Task)
    requires Inv(s) && CellsOk(s') && Registers(s, s', grown, t) && !s.mem.closed
    ensures Inv(s')
  {
    assert grown.next !in s.workers;
    RegisterScalars(s, s', grown, t);
    RegisterMaps(s, s');
    RegisterParts(s, s', grown.next);
    RegisterCounts(s, s', grown, t);
    hide CellsOk, NoDuplicates, Elements, PublishedOk, MapsOk, PartsOk, Grows, WellFormed, CountsOk, IdsOk;
  }

  lemma RegisterScalars(s: State, s': State, grown: Memory, t: Task)
    requires IdsOk(s) && ClosingOk(s) && !s.done && Registers(s, s', grown, t)
    ensures WellFormed(s'.mem) && IdsOk(s') && ClosingOk(s') && |s'.mem.order| <= MAX_REMEMBERED_TASKS
  {
    hide NoDuplicates, Elements;
  }

  lemma RegisterCounts(s: State, s': State, grown: Memory, t: Task)
    requires CountsOk(s) && Registers(s, s', grown, t) && grown.next !in s.workers
    ensures CountsOk(s')
  {
    hide WellFormed, Elements, NoDuplicates;
    assert s'.mem.slots == s.mem.slots;
    var id := grown.next;
    SlotsOfRegistered(s.workers, s'.workers, id);
    hide Grows, SlotHolders;
  }

  lemma SlotsOfRegistered(ws: map<Id, Worker>, ws': map<Id, Worker>, id: Id)
    requires id !in ws && id in ws' && ws' == ws[id := ws'[id]] && ws'[id].phase == Registered
    ensures |SlotHolders(ws')| == |SlotHolders(ws)| + 1 && |ws'| == |ws| + 1
  {
    assert SlotHolders(ws') == SlotHolders(ws) + {id};
    assert ws'.Keys == ws.Keys + {id};
  }

  lemma RegisterParts(s: State, s': State, id: Id)
    requires PartsOk(s.workers, s.files, s.log.leaked) && id !in s.workers
    requires id in s'.workers && s'.workers[id].phase == Registered
    requires s'.workers == s.workers[id := s'.workers[id]]
    ensures PartsOk(s'.workers, s.files, s.log.leaked)
  {
    forall p | p in s.files && p.Part? && p !in s.log.leaked
      ensures exists i :: i in s'.workers && PartOf(s'.workers[i].phase) == Some(p)
    {
      var i :| i in s.workers && PartOf(s.workers[i].phase) == Some(p);
      assert PartOf(s'.workers[i].phase) == Some(p);
    }
  }

  lemma TrimIgnoresMaps(m: Memory, preserve: Id, cancels: set<Id>, reservations: set<string>)
    ensures Trim(m.(cancels := cancels, reservations := reservations), preserve)
         == Trim(m, preserve).(cancels := cancels, reservations := reservations)
  {
    hide Dropped, Without, Protected;
  }

  lemma RegisterMemory(m: Memory, dest: string, declared: int)
    requires WellFormed(m) && |m.order| <= MAX_REMEMBERED_TASKS
    requires |ActiveIds(m.tasks)| <= MAX_REMOTE_DOWNLOADS
    ensures var m' := Register(m, dest, declared);
      && Grows(m, m'.(cancels := m.cancels, reservations := m.reservations, waitGroup := m.waitGroup),
               Task(dest, Queued, "", Max(declared, 0), 0, 0))
      && m'.cancels == m.cancels + {m.next + 1} && m'.reservations == m.reservations + {dest}
      && m'.waitGroup == m.waitGroup + 1 && m'.next == m.next + 1
  {
    var t := Task(dest, Queued, "", Max(declared, 0), 0, 0);
    TrimGrows(m, t);
    TrimIgnoresMaps(WithTask(m, t), m.next + 1, m.cancels + {m.next + 1}, m.reservations + {dest});
    hide Trim, Grows, WellFormed;
    var trimmed := Trim(WithTask(m, t), m.next + 1);
    TrimKeepsCounters(WithTask(m, t), m.next + 1);
    assert Register(m, dest, declared).(cancels := m.cancels, reservations := m.reservations, waitGroup := m.waitGroup)
        == trimmed;
  }

  lemma TrimKeepsCounters(m: Memory, preserve: Id)
    ensures Trim(m, preserve) == m.(tasks := Trim(m, preserve).tasks, order := Trim(m, preserve).order)
  {
  }

  lemma RegisterCells(s: State, s': State, grown: Memory, t: Task)
    requires Inv(s) && Grows(s.mem, grown, t) && grown.tasks == s'.mem.tasks
    requires var id := s.mem.next + 1;
      && id in s'.workers
      && s' == s.(mem := s'.mem, starters := s'.starters, workers := s.workers[id := s'.workers[id]])
      && s'.workers[id].phase == Registered && s'.workers[id].copied == 0 && s'.workers[id].received == []
      && Final(s'.workers[id].dest) !in s.files
      && t == Task(s'.workers[id].dest, Queued, "", Max(s'.workers[id].declared, 0), 0, 0)
    ensures CellsOk(s')
  {
    hide WellFormed, MapsOk, CountsOk, PublishedOk, PartsOk, ClosingOk, Progress;
    var id := s.mem.next + 1;
    ProgressOfNothing(t.bytesTotal);
    forall i ensures CellOk(CellOf(s', i)) {
      if i != id {
        OtherCellSurvives(s, s', grown, t, i);
      }
    }
  }

  lemma OtherCellSurvives(s: State, s': State, grown: Memory, t: Task, i: Id)
    requires CellsOk(s) && Grows(s.mem, grown, t) && grown.tasks == s'.mem.tasks && i != grown.next
    requires Lookup(s'.workers, i) == Lookup(s.workers, i) && s'.files == s.files && s'.log == s.log
    ensures CellOk(CellOf(s', i))
  {
    hide CellOk, WellFormed;
    assert CellOk(CellOf(s, i));
    if i in s'.mem.tasks || i !in s.mem.tasks {
      assert CellOf(s', i) == CellOf(s, i);
    } else {
      assert CellOf(s', i) == CellOf(s, i).(task := None);
      Forgotten(CellOf(s, i));
    }
  }

  lemma RegisterMaps(s: State, s': State)
    requires MapsOk(s.mem, s.workers)
    requires var id := s.mem.next + 1;
      && id !in s.workers && id in s'.workers && s'.workers == s.workers[id := s'.workers[id]]
      && Uncleaned(s'.workers[id]) && s'.workers[id].dest !in s.mem.reservations
      && s'.mem.cancels == s.mem.cancels + {id}
      && s'.mem.reservations == s.mem.reservations + {s'.workers[id].dest}
    ensures MapsOk(s'.mem, s'.workers)
  {
    var id := s.mem.next + 1;
    var before, after := UncleanedIds(s.workers), UncleanedIds(s'.workers);
    assert after == before + {id};
    forall i | i in before ensures s'.workers[i].dest in s.mem.reservations {
    }
    assert s'.mem.reservations == (set i | i in after :: s'.workers[i].dest);
  }

  lemma SubmitKeeps(s: State, dest: string)
    requires Inv(s)
    ensures Inv(DoSubmit(s, dest))
  {
    hide Inv, Grows, Trim, CellsOk;
    var s', t := DoSubmit(s, dest), Task(dest, Submitted, "", 0, 0, 0);
    OneMoreTask(s, t);
    assert s'.mem == Trim(WithTask(s.mem, t), s.mem.next + 1);
    hide RecordSubmitted;
    SubmitCells(s, s', t);
    SubmitRest(s, s', t);
  }

  lemma OneMoreTask(s: State, t: Task)
    requires Inv(s)
    ensures Grows(s.mem, Trim(WithTask(s.mem, t), s.mem.next + 1), t)
  {
    hide WellFormed, CellsOk, IdsOk, MapsOk, CountsOk, PublishedOk, PartsOk, ClosingOk, Grows, Trim, ActiveIds,
         UncleanedIds, SlotHolders;
    FewActive(s);
    TrimGrows(s.mem, t);
  }

  lemma SubmitRest(s: State, s': State, t: Task)
    requires Inv(s) && CellsOk(s') && Grows(s.mem, s'.mem, t) && s' == s.(mem := s'.mem)
    ensures Inv(s')
  {
    SameMaps(s.mem, s'.mem, s.workers);
    hide CellsOk, PublishedOk, PartsOk, NoDuplicates, Elements, MapsOk;
  }

  lemma SubmitCells(s: State, s': State, t: Task)
    requires Inv(s) && Grows(s.mem, s'.mem, t) && s' == s.(mem := s'.mem)
    requires t.status == Submitted && t.bytesTotal == 0 && t.bytesCopied == 0 && t.progress == 0
    ensures CellsOk(s')
  {
    hide WellFormed, MapsOk, CountsOk, PublishedOk, PartsOk, ClosingOk, Progress;
    ProgressOfNothing(0);
    forall i ensures CellOk(CellOf(s', i)) {
      if i != s'.mem.next {
        OtherCellSurvives(s, s', s'.mem, t, i);
      }
    }
  }

  lemma CancelKeeps(s: State, id: Id)
    requires Inv(s)
    ensures Inv(DoCancel(s, id))
  {
    hide Trim, Dropped, Without;
    var s' := DoCancel(s, id);
    CancelRewrites(s.mem, id);
    assert CellsOk(s') by {
      hide WellFormed, MapsOk, CountsOk, PublishedOk, PartsOk, ClosingOk, Progress;
      forall i ensures CellOk(CellOf(s', i)) {
        assert CellOk(CellOf(s, i));
        if i == id {
          CancelCell(s, id);
        } else if i in s'.mem.tasks || i !in s.mem.tasks {
          assert CellOf(s', i) == CellOf(s, i);
        } else {
          assert CellOf(s', i) == CellOf(s, i).(task := None);
          Forgotten(CellOf(s, i));
        }
      }
    }
    hide CellsOk, MapsOk, PublishedOk, PartsOk, WellFormed;
  }

  lemma CancelCell(s: State, id: Id)
    requires CellOk(CellOf(s, id)) && WellFormed(s.mem)
    ensures CellOk(CellOf(DoCancel(s, id), id))
  {
    hide Trim, WellFormed, Progress;
    CancelRewrites(s.mem, id);
  }

  /** The steps that only move counters and flags. */
  lemma BookkeepingKeeps(s: State, s': State)
    requires Inv(s)
    requires s' == s.(mem := s.mem.(slots := s'.mem.slots, closed := s'.mem.closed),
                      starters := s'.starters, refused := s'.refused, contexts := s'.contexts,
                      rootCancelled := s'.rootCancelled, done := s'.done)
    requires CountsOk(s') && ClosingOk(s')
    ensures Inv(s')
  {
    assert CellsOk(s') by {
      hide WellFormed, MapsOk, CountsOk, PublishedOk, PartsOk, ClosingOk, CellOk;
      forall i ensures CellOk(CellOf(s', i)) {
        assert CellOf(s', i) == CellOf(s, i);
        assert CellOk(CellOf(s, i));
      }
    }
    hide CellsOk, NoDuplicates, Elements, MapsOk, PublishedOk, PartsOk;
    assert WellFormed(s'.mem) && IdsOk(s');
    assert MapsOk(s'.mem, s'.workers) by {
      SameMaps(s.mem, s'.mem, s.workers);
    }
  }

  lemma SameMaps(m: Memory, m': Memory, workers: map<Id, Worker>)
    requires MapsOk(m, workers) && m'.cancels == m.cancels && m'.reservations == m.reservations
    ensures MapsOk(m', workers)
  {
  }
}
