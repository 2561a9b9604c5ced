/** The history of remembered downloads: newest first, and what is forgotten is the oldest that is finished. */
module TransferHistory {
  import opened Prelude
  import opened HistoryTrim
  import opened TransferStream
  import opened TransferModel
  import opened TransferMachine
  import opened TransferInvariant
  import opened TransferRuns
  import opened TransferOutcomes

  predicate NewestFirst(order: seq<Id>) {
    forall i, j :: 0 <= i < j < |order| ==> order[i] > order[j]
  }

  lemma {:induction false} WithoutDescends(order: seq<Id>, gone: set<Id>)
    requires NewestFirst(order)
    ensures NewestFirst(Without(order, gone))
  {
    if order != [] {
      var n := |order| - 1;
      WithoutDescends(order[..n], gone);
      var front := Without(order[..n], gone);
      forall i | 0 <= i < |front| ensures front[i] > order[n] {
        WithoutMember(order[..n], gone, front[i]);
        var k :| 0 <= k < n && order[..n][k] == front[i];
      }
    }
  }

  /** From `m` to `m'` only finished tasks are forgotten, none while a hundred or fewer would remain without it,
      and older ones before newer ones; `kept` is spared. */
  ghost predicate ForgetsOldest(m: Memory, m': Memory, kept: Id) {
    forall id :: id in m.tasks && id !in m'.tasks ==>
      && !m.tasks[id].Active() && id != kept && |m'.order| >= 100
      && forall j :: j in m'.tasks && !m'.tasks[j].Active() && j != kept ==> id < j
  }

  /** As many are forgotten as are too many, unless all that remain are under way or spared. */
  ghost predicate ForgetsEnough(m': Memory, kept: Id) {
    |m'.order| <= 100 || forall id <- m'.tasks :: id == kept || m'.tasks[id].Active()
  }

  /** What is gone after a trim was finished and not spared, and there was too much. */
  lemma GoneFacts(m: Memory, kept: Id, id: Id)
    requires WellFormed(m) && id in m.tasks && id !in Trim(m, kept).tasks
    ensures id in TrimGone(m, kept) && !m.tasks[id].Active() && id != kept && |Trim(m, kept).order| >= 100
  {
    var keep, k := Protected(m.tasks, kept), |m.order| - 100;
    DroppedIsOutside(m.order, keep, k);
    TrimmedLength(m.order, keep, 100);
    if k <= 0 {
      DropNothing(m.order, keep, k);
    }
    hide Dropped, Without, NoDuplicates, Elements;
  }

  lemma StaysFacts(m: Memory, kept: Id, j: Id)
    requires WellFormed(m) && j in Trim(m, kept).tasks
    ensures j in m.tasks && j !in TrimGone(m, kept) && Trim(m, kept).tasks[j] == m.tasks[j]
  {
    hide Dropped, Without;
  }

  /** What a trim does, told without its loops. */
  lemma TrimForgets(m: Memory, kept: Id)
    requires WellFormed(m) && NewestFirst(m.order)
    ensures NewestFirst(Trim(m, kept).order)
    ensures ForgetsOldest(m, Trim(m, kept), kept) && ForgetsEnough(Trim(m, kept), kept)
  {
    var keep, k := Protected(m.tasks, kept), |m.order| - 100;
    var m' := Trim(m, kept);
    WithoutDescends(m.order, TrimGone(m, kept));
    forall id | id in m.tasks && id !in m'.tasks
      ensures !m.tasks[id].Active() && id != kept && |m'.order| >= 100
      ensures forall j :: j in m'.tasks && !m'.tasks[j].Active() && j != kept ==> id < j
    {
      GoneFacts(m, kept, id);
      forall j | j in m'.tasks && !m'.tasks[j].Active() && j != kept ensures id < j {
        StaysFacts(m, kept, j);
        OlderGoes(m, keep, k, id, j) by { hide WellFormed, NewestFirst; }
      }
    }
    if |m'.order| > 100 {
      forall id <- m'.tasks ensures id == kept || m'.tasks[id].Active() {
        NoneLeft(m, kept, id);
      }
    }
    hide NewestFirst, Trim, WellFormed;
  }

  lemma OlderGoes(m: Memory, keep: set<Id>, k: int, id: Id, j: Id)
    requires WellFormed(m) && NewestFirst(m.order)
    requires id in m.tasks && id in Dropped(m.order, keep, k)
    requires j in m.tasks && j !in Dropped(m.order, keep, k) && j !in keep
    ensures id < j
  {
    hide Dropped;
    assert id in Elements(m.order) && j in Elements(m.order);
    var a :| 0 <= a < |m.order| && m.order[a] == id;
    var b :| 0 <= b < |m.order| && m.order[b] == j;
    DroppedAreOldest(m.order, keep, k, a, b);
  }

  /** If more than a hundred remain, nothing that may go is left. */
  lemma NoneLeft(m: Memory, kept: Id, id: Id)
    requires WellFormed(m) && |Trim(m, kept).order| > 100 && id in Trim(m, kept).tasks
    ensures id in Protected(m.tasks, kept) && id in m.tasks && Trim(m, kept).tasks[id] == m.tasks[id]
  {
    hide Without, Dropped;
    var keep, gone := Protected(m.tasks, kept), TrimGone(m, kept);
    TrimmedLength(m.order, keep, 100);
    DroppedCount(m.order, keep, |m.order| - 100);
    DroppedIsOutside(m.order, keep, |m.order| - 100);
    assert gone <= Elements(m.order) - keep;
    if id !in keep {
      assert id in Elements(m.order) - keep && id !in gone;
      SubsetSize(gone + {id}, Elements(m.order) - keep);
    }
  }

  // ----- every step keeps the history in order -----

  ghost predicate Orderly(m: Memory, m': Memory, kept: Id) {
    NewestFirst(m'.order) && ForgetsOldest(m, m', kept)
  }

  lemma SameIsOrderly(m: Memory, m': Memory, kept: Id)
    requires NewestFirst(m.order) && m'.order == m.order && m.tasks.Keys <= m'.tasks.Keys
    ensures Orderly(m, m', kept)
  {
  }

  lemma TrimIsOrderly(m: Memory, id: Id, t: Task)
    requires WellFormed(m) && NewestFirst(m.order) && id in m.tasks
    ensures Orderly(m, Trim(SetTask(m, id, t), id), id)
  {
    hide NewestFirst, Trim;
    var m1 := SetTask(m, id, t);
    assert m1.tasks.Keys == m.tasks.Keys;
    TrimForgets(m1, id);
    hide WellFormed;
    var m' := Trim(m1, id);
    forall i | i in m.tasks && i !in m'.tasks
      ensures !m.tasks[i].Active() && i != id && |m'.order| >= 100
      ensures forall j :: j in m'.tasks && !m'.tasks[j].Active() && j != id ==> i < j
    {
      assert i in m1.tasks;
    }
  }

  lemma CancelIsOrderly(m: Memory, id: Id)
    requires WellFormed(m) && NewestFirst(m.order)
    ensures Orderly(m, CancelTask(m, id), id) && Orderly(m, CancelRemote(m, id), id)
  {
    hide WellFormed, NewestFirst, Orderly, Trim;
    SameIsOrderly(m, m, id);
    if id in m.tasks {
      TrimIsOrderly(m, id, MarkCancelled(m.tasks[id]));
    }
  }

  lemma FailIsOrderly(m: Memory, id: Id, error: string)
    requires WellFormed(m) && NewestFirst(m.order)
    ensures Orderly(m, FailTask(m, id, error), id)
  {
    hide WellFormed, NewestFirst, Orderly, Trim;
    SameIsOrderly(m, m, id);
    if id in m.tasks {
      TrimIsOrderly(m, id, OnFail(m.tasks[id], error));
    }
  }

  lemma StoreIsOrderly(m: Memory, id: Id, t: Task)
    requires WellFormed(m) && NewestFirst(m.order) && id in m.tasks
    ensures Orderly(m, Store(m, id, t), id)
  {
    hide WellFormed, NewestFirst, Orderly, Trim;
    SameIsOrderly(m, SetTask(m, id, t), id);
    TrimIsOrderly(m, id, t);
  }

  lemma UpdateIsOrderly(m: Memory, id: Id, n: int)
    requires WellFormed(m) && NewestFirst(m.order)
    ensures Orderly(m, SetTotal(m, id, n), id) && Orderly(m, AddBytes(m, id, n), id)
  {
    hide WellFormed, NewestFirst, Orderly, Store;
    SameIsOrderly(m, m, id);
    if id in m.tasks {
      StoreIsOrderly(m, id, m.tasks[id].(bytesTotal := n));
      StoreIsOrderly(m, id, OnBytes(m.tasks[id], n));
    }
  }

  lemma PublishIsOrderly(m: Memory, id: Id, saw: bool, renamed: bool)
    requires WellFormed(m) && NewestFirst(m.order)
    ensures Orderly(m, Publish(m, id, saw, renamed), id)
  {
    hide WellFormed, NewestFirst, Orderly, Trim;
    SameIsOrderly(m, m, id);
    if id in m.tasks {
      SameIsOrderly(m, SetTask(m, id, MarkCancelled(m.tasks[id])), id);
      TrimIsOrderly(m, id, OnPublish(m.tasks[id], saw, renamed));
    }
  }

  lemma BeginIsOrderly(m: Memory, id: Id)
    requires NewestFirst(m.order)
    ensures Orderly(m, Begin(m, id), id)
  {
    hide NewestFirst, Orderly;
    SameIsOrderly(m, Begin(m, id), id);
  }

  lemma SubjectIsOrderly(s: State, step: Step, s': State, j: Id)
    requires WellFormed(s.mem) && NewestFirst(s.mem.order) && Next(s, step, s') && Subject(step) == Some(j)
    ensures Orderly(s.mem, s'.mem, j)
  {
    hide WellFormed, NewestFirst, Orderly, CancelRemote, CancelTask, FailTask, Begin, SetTotal, AddBytes, Publish,
         SizeOf, Judge, MustStop, PartOf, ContextCancelled, WillRename;
    match step
    case Cancel(_) => CancelIsOrderly(s.mem, j);
    case BeginWork(_) => BeginIsOrderly(s.mem, j);
    case Accept(_, length) =>
      SameIsOrderly(s.mem, s.mem, j);
      var size := SizeOf(s.workers[j].declared, length);
      if size.Some? {
        UpdateIsOrderly(s.mem, j, size.value);
      }
    case Copy(_, data, accept, error) =>
      SameIsOrderly(s.mem, s.mem, j);
      var v := Judge(s.workers[j].copied, s.workers[j].phase.size, data, accept, error);
      if v.Stored? {
        UpdateIsOrderly(s.mem, j, v.written);
      }
    case Check(_, saw) => SameIsOrderly(s.mem, s.mem, j); CancelIsOrderly(s.mem, j);
    case PublishPart(_, renamed) => PublishIsOrderly(s.mem, j, ContextCancelled(s, j), renamed);
    case Fail(_, error) => FailIsOrderly(s.mem, j, error);
    case Stop(_) => CancelIsOrderly(s.mem, j);
  }

  lemma NewIsOrderly(m: Memory, t: Task, cancels: set<Id>, reservations: set<string>)
    requires WellFormed(m) && NewestFirst(m.order)
    ensures var id := m.next + 1;
      Orderly(m, Trim(m.(next := id, tasks := m.tasks[id := t], cancels := cancels, reservations := reservations,
                         order := [id] + m.order), id), id)
  {
    var id := m.next + 1;
    var grown := m.(next := id, tasks := m.tasks[id := t], cancels := cancels, reservations := reservations,
                    order := [id] + m.order);
    GrownIsOrderly(m, grown, t);
    TrimForgets(grown, id) by { hide Trim; }
    hide WellFormed, Trim, NewestFirst;
    var m' := Trim(grown, id);
    forall i | i in m.tasks && i !in m'.tasks
      ensures !m.tasks[i].Active() && i != id && |m'.order| >= 100
      ensures forall j :: j in m'.tasks && !m'.tasks[j].Active() && j != id ==> i < j
    {
      assert i in grown.tasks;
    }
  }

  lemma GrownIsOrderly(m: Memory, grown: Memory, t: Task)
    requires WellFormed(m) && NewestFirst(m.order) && grown.next == m.next + 1
    requires grown.tasks == m.tasks[grown.next := t] && grown.order == [grown.next] + m.order
    ensures WellFormed(grown) && NewestFirst(grown.order) && grown.next !in m.tasks
  {
    assert Elements(grown.order) == Elements(m.order) + {grown.next};
    forall k | 0 <= k < |m.order| ensures m.order[k] < grown.next {
      assert m.order[k] in Elements(m.order);
    }
  }

  /** The id that a step spares when it forgets: the one it has just entered or rewritten. */
  function Spared(s: State, step: Step): Id {
    if step.Registration? || step.Submit? then s.mem.next + 1
    else if Subject(step).Some? then Subject(step).value
    else 0
  }

  lemma RegisterIsOrderly(m: Memory, dest: string, declared: int)
    requires WellFormed(m) && NewestFirst(m.order)
    ensures Orderly(m, Register(m, dest, declared), m.next + 1)
  {
    hide WellFormed, NewestFirst, Trim;
    NewIsOrderly(m, Task(dest, Queued, "", Max(declared, 0), 0, 0), m.cancels + {m.next + 1},
                 m.reservations + {dest});
  }

  lemma SubmitIsOrderly(m: Memory, dest: string)
    requires WellFormed(m) && NewestFirst(m.order)
    ensures Orderly(m, RecordSubmitted(m, dest), m.next + 1)
  {
    hide WellFormed, NewestFirst, Trim;
    NewIsOrderly(m, Task(dest, Submitted, "", 0, 0, 0), m.cancels, m.reservations);
  }

  lemma NewRecordIsOrderly(s: State, step: Step, s': State)
    requires WellFormed(s.mem) && NewestFirst(s.mem.order) && Next(s, step, s')
    requires step.Registration? || step.Submit?
    ensures Orderly(s.mem, s'.mem, s.mem.next + 1)
  {
    hide WellFormed, NewestFirst, Orderly, Register, RecordSubmitted;
    if step.Registration? {
      RegisterIsOrderly(s.mem, step.dest, step.declared);
    } else {
      SubmitIsOrderly(s.mem, step.dest);
    }
  }

  lemma NextIsOrderly(s: State, step: Step, s': State)
    requires WellFormed(s.mem) && NewestFirst(s.mem.order) && Next(s, step, s')
    ensures Orderly(s.mem, s'.mem, Spared(s, step))
  {
    hide WellFormed, NewestFirst, Orderly, Next;
    if step.Registration? || step.Submit? {
      NewRecordIsOrderly(s, step, s');
    } else if Subject(step).Some? {
      SubjectIsOrderly(s, step, s', Subject(step).value);
    } else {
      NoSubject(s, step, s');
      SameIsOrderly(s.mem, s'.mem, 0);
    }
  }

  lemma OrderOf(m: Memory, m': Memory, kept: Id)
    requires Orderly(m, m', kept)
    ensures NewestFirst(m'.order)
  {
  }

  /** In every reachable state the history is in order, the newest task first. */
  lemma {:induction false} HistoryIsNewestFirst(states: seq<State>, steps: seq<Step>, i: nat)
    requires Run(states, steps) && i < |states|
    ensures NewestFirst(states[i].mem.order)
  {
    hide Inv, Next, Init, NewestFirst, Orderly;
    if i == 0 {
      NoHistory(states[0]);
    } else {
      HistoryIsNewestFirst(states, steps, i - 1);
      RunKeepsInv(states, steps, i - 1);
      InvMemory(states[i - 1]);
      assert Next(states[i - 1], steps[i - 1], states[i]);
      NextIsOrderly(states[i - 1], steps[i - 1], states[i]);
      OrderOf(states[i - 1].mem, states[i].mem, Spared(states[i - 1], steps[i - 1]));
    }
  }

  lemma NoHistory(s: State)
    requires Init(s)
    ensures NewestFirst(s.mem.order)
  {
  }

  /** A step forgets a task only if that is finished and a hundred remain, and then every finished task that is
      still remembered is newer, but for the one the step has just entered or rewritten. */
  lemma ForgottenIsOldest(states: seq<State>, steps: seq<Step>, i: nat)
    requires Run(states, steps) && i < |steps|
    ensures ForgetsOldest(states[i].mem, states[i + 1].mem, Spared(states[i], steps[i]))
  {
    HistoryIsNewestFirst(states, steps, i);
    RunKeepsInv(states, steps, i);
    InvMemory(states[i]);
    assert Next(states[i], steps[i], states[i + 1]);
    hide Inv, Next, Init, NewestFirst, Spared, Run, WellFormed;
    NextIsOrderly(states[i], steps[i], states[i + 1]);
  }
}
