/** The service object: its critical sections as methods that update its fields in place. */
module TransferService {
  import opened Prelude
  import opened HistoryTrim
  import opened TransferStream
  import opened TransferModel
  import opened TransferDestination

  datatype StartError = Busy | ServiceClosed | NoDestination(cause: DestinationError)

  class Service {
    var next: nat
    var tasks: map<Id, Task>
    var order: seq<Id>
    var remoteCancels: set<Id>
    var remoteReservations: set<string>
    var remoteSlots: nat
    var remoteWG: nat
    var closed: bool
    var cancelledContexts: set<Id>

    ghost function View(): Memory
      reads this
    {
      Memory(next, tasks, order, remoteCancels, remoteReservations, remoteSlots, remoteWG, closed)
    }

    ghost predicate Valid()
      reads this
    {
      WellFormed(View())
    }

    constructor ()
      ensures Valid()
      ensures View() == Memory(0, map[], [], {}, {}, 0, 0, false) && cancelledContexts == {}
    {
      next, tasks, order := 0, map[], [];
      remoteCancels, remoteReservations := {}, {};
      remoteSlots, remoteWG, closed, cancelledContexts := 0, 0, false, {};
    }

    /** trimTerminalTasksLocked: two nested loops against the specification `Trim`. */
    method TrimTerminalTasks(preserve: Id)
      requires Valid()
      modifies this`tasks, this`order
      ensures Valid()
      ensures View() == Trim(old(View()), preserve)
    {
      hide Dropped, Without, NoDuplicates, Elements, Trimming;
      ghost var start, keep := View(), Protected(tasks, preserve);
      ghost var gone: set<Id> := {};
      TrimBegins(start, keep);
      while |order| > MAX_REMEMBERED_TASKS
        invariant Trimming(start, keep, gone, View())
        decreases |order|
      {
        var removed := false;
        var index := |order| - 1;
        ghost var held := View();
        while index >= 0 && !removed
          invariant -1 <= index < |held.order|
          invariant !removed ==> View() == held && Trimming(start, keep, gone, held)
          invariant !removed ==> forall j :: index < j < |order| ==> order[j] in keep
          invariant removed ==> Trimming(start, keep, gone, View()) && |order| < |held.order|
          decreases !removed, index
        {
          var id := order[index];
          if id == preserve || (id in tasks && tasks[id].Active()) {
            TrimKeeps(start, keep, gone, held, preserve, id);
            index := index - 1;
          } else {
            TrimDrops(start, keep, gone, held, preserve, index);
            tasks := tasks - {id};
            order := order[..index] + order[index + 1..];
            gone := gone + {id};
            removed := true;
          }
        }
        if !removed {
          DropNone(order, keep, |order| - MAX_REMEMBERED_TASKS);
          TrimEnds(start, keep, gone, View(), preserve);
          return;
        }
      }
      DropNothing(order, keep, |order| - MAX_REMEMBERED_TASKS);
      TrimEnds(start, keep, gone, View(), preserve);
    }

    /** The non-blocking send on the slot semaphore. */
    method TryAcquireSlot() returns (acquired: bool)
      requires Valid()
      modifies this`remoteSlots
      ensures Valid()
      ensures acquired <==> old(remoteSlots) < MAX_REMOTE_DOWNLOADS
      ensures View() == old(View()).(slots := old(remoteSlots) + if acquired then 1 else 0)
    {
      acquired := remoteSlots < MAX_REMOTE_DOWNLOADS;
      if acquired {
        remoteSlots := remoteSlots + 1;
      }
    }

    /** The receive that gives a slot back. */
    method ReturnSlot()
      requires Valid() && remoteSlots > 0
      modifies this`remoteSlots
      ensures Valid()
      ensures View() == old(View()).(slots := old(remoteSlots) - 1)
    {
      remoteSlots := remoteSlots - 1;
    }

    /** StartRemoteDownload without anything in between: busy without a slot, refused with the slot given
        back, or registered with the slot kept for the worker. */
    method StartRemoteDownload(dir: string, name: string, declared: int, stat: string -> Stat)
      returns (r: Result<(Id, string), StartError>)
      requires Valid()
      modifies `next, `tasks, `order, `remoteCancels, `remoteReservations, `remoteSlots, `remoteWG
      ensures Valid()
      ensures r == Err(Busy) <==> old(remoteSlots) >= MAX_REMOTE_DOWNLOADS
      ensures r.Err? ==> View() == old(View())
      ensures r != Err(Busy) ==> (r == Err(ServiceClosed) <==> old(closed))
      ensures r != Err(Busy) && !old(closed) ==>
                Chooses(dir, name, old(remoteReservations), stat,
                        if r.Ok? then Ok(r.value.1) else Err(r.error.cause))
      ensures r.Ok? ==>
                && r.value.0 == old(next) + 1
                && View() == Register(old(View()).(slots := old(remoteSlots) + 1), r.value.1, declared)
    {
      hide Trim, WellFormed, Chooses, Register;
      var acquired := TryAcquireSlot();
      if !acquired {
        return Err(Busy);
      }
      r := RegisterDownload(dir, name, declared, stat);
      if r.Err? {
        ReturnSlot();
      }
    }

    /** The critical section of StartRemoteDownload: refused once the service is closed or when no
        free destination is found, and otherwise registered under a free and unreserved one. */
    method RegisterDownload(dir: string, name: string, declared: int, stat: string -> Stat)
      returns (r: Result<(Id, string), StartError>)
      requires Valid()
      modifies `next, `tasks, `order, `remoteCancels, `remoteReservations, `remoteWG
      ensures Valid()
      ensures r.Err? ==> View() == old(View())
      ensures r != Err(Busy) && (r == Err(ServiceClosed) <==> old(closed))
      ensures !old(closed) ==>
                Chooses(dir, name, old(remoteReservations), stat,
                        if r.Ok? then Ok(r.value.1) else Err(r.error.cause))
      ensures r.Ok? ==> var (id, destination) := r.value;
                        && id == old(next) + 1
                        && destination !in old(remoteReservations) && stat(destination) == Missing
                        && View() == Register(old(View()), destination, declared)
    {
      hide Trim, NoDuplicates, Elements, Chooses;
      if closed {
        return Err(ServiceClosed);
      }
      var found := UniqueDestination(dir, name, remoteReservations, stat);
      if found.Err? {
        return Err(NoDestination(found.error));
      }
      var destination := found.value;
      next := next + 1;
      var task := Task(destination, Queued, "", if declared > 0 then declared else 0, 0, 0);
      tasks := tasks[next := task];
      remoteCancels := remoteCancels + {next};
      remoteReservations := remoteReservations + {destination};
      order := [next] + order;
      FreshEntry(old(View()), View(), task);
      TrimTerminalTasks(next);
      remoteWG := remoteWG + 1;
      return Ok((next, destination));
    }

    method RecordSubmittedTask(destination: string) returns (id: Id)
      requires Valid()
      modifies `next, `tasks, `order
      ensures Valid()
      ensures id == old(next) + 1 && View() == RecordSubmitted(old(View()), destination)
    {
      hide Trim, NoDuplicates, Elements;
      next := next + 1;
      id := next;
      var task := Task(destination, Submitted, "", 0, 0, 0);
      tasks := tasks[id := task];
      order := [id] + order;
      FreshEntry(old(View()), View(), task);
      TrimTerminalTasks(id);
    }

    method CancelRemoteDownload(id: Id) returns (snapshot: Option<Task>)
      requires Valid()
      modifies `tasks, `order, `cancelledContexts
      ensures Valid()
      ensures View() == CancelRemote(old(View()), id)
      ensures snapshot == if Cancellable(old(View()), id) then Some(MarkCancelled(old(tasks[id]))) else None
      ensures snapshot.Some? <==>
                && id in old(tasks) && id in old(remoteCancels)
                && (old(tasks)[id].status == Queued || old(tasks)[id].status == Running)
      ensures snapshot.Some? ==> snapshot.value == old(tasks)[id].(status := Cancelled, error := "")
      ensures cancelledContexts == old(cancelledContexts) + if snapshot.Some? then {id} else {}
    {
      var active := id in tasks && id in remoteCancels && tasks[id].Active();
      if !active {
        return None;
      }
      MarkTaskCancelled(id);
      TrimTerminalTasks(id);
      TrimFacts(SetTask(old(View()), id, MarkCancelled(old(tasks[id]))), id);
      snapshot := Some(tasks[id]);
      cancelledContexts := cancelledContexts + {id};
    }

    method MarkTaskCancelled(id: Id)
      requires Valid() && id in tasks
      modifies this`tasks
      ensures Valid()
      ensures View() == SetTask(old(View()), id, MarkCancelled(old(tasks[id])))
    {
      tasks := tasks[id := tasks[id].(status := Cancelled, error := "")];
    }

    method FailRemoteTask(id: Id, error: string)
      requires Valid()
      modifies `tasks, `order
      ensures Valid()
      ensures View() == FailTask(old(View()), id, error)
    {
      if id !in tasks || !tasks[id].Active() {
        return;
      }
      var task := tasks[id];
      task := task.(status := Failed, error := error);
      task := task.(progress := Progress(task.bytesCopied, task.bytesTotal));
      tasks := tasks[id := task];
      TrimTerminalTasks(id);
    }

    method CancelRemoteTask(id: Id)
      requires Valid()
      modifies `tasks, `order
      ensures Valid()
      ensures View() == CancelTask(old(View()), id)
    {
      if id in tasks && tasks[id].Active() {
        MarkTaskCancelled(id);
        TrimTerminalTasks(id);
      }
    }

    method BeginRemoteTask(id: Id) returns (begun: bool)
      requires Valid()
      modifies `tasks
      ensures Valid()
      ensures begun == CanBegin(old(View()), id) && View() == Begin(old(View()), id)
    {
      if id !in tasks || tasks[id].status != Queued {
        return false;
      }
      tasks := tasks[id := tasks[id].(status := Running)];
      begun := true;
    }

    method ShouldStopRemoteTask(id: Id, saw: bool) returns (stop: bool)
      requires Valid()
      modifies `tasks, `order
      ensures Valid()
      ensures stop == MustStop(old(View()), id, saw) && View() == StopCheck(old(View()), id, saw)
    {
      if saw {
        CancelRemoteTask(id);
        return true;
      }
      stop := id !in tasks || tasks[id].status == Cancelled;
    }

    /** updateTask, given the task it would store. */
    method UpdateTask(id: Id, task: Task)
      requires Valid() && id in tasks
      modifies `tasks, `order
      ensures Valid()
      ensures View() == Store(old(View()), id, task)
    {
      tasks := tasks[id := task];
      if task.status != Queued && task.status != Running {
        TrimTerminalTasks(id);
      }
    }

    method SetBytesTotal(id: Id, total: int)
      requires Valid()
      modifies `tasks, `order
      ensures Valid()
      ensures View() == SetTotal(old(View()), id, total)
    {
      if id in tasks {
        UpdateTask(id, tasks[id].(bytesTotal := total));
      }
    }

    method AddCopiedBytes(id: Id, n: int)
      requires Valid()
      modifies `tasks, `order
      ensures Valid()
      ensures View() == AddBytes(old(View()), id, n)
    {
      if id in tasks {
        var task := tasks[id].(bytesCopied := tasks[id].bytesCopied + n);
        UpdateTask(id, task.(progress := Progress(task.bytesCopied, task.bytesTotal)));
      }
    }

    /** publishRemoteTask: the rename happens inside this critical section, and only from Running. The files
        are whatever the paths of the file system hold; `renamed` says whether a rename succeeds. */
    method PublishRemoteTask<Path(==), Content>(id: Id, saw: bool, renamed: bool, temporary: Path, destination: Path,
                                                files: map<Path, Content>)
      returns (published: bool, failed: bool, files': map<Path, Content>)
      requires Valid() && temporary in files
      modifies `tasks, `order
      ensures Valid()
      ensures published == (WillRename(old(View()), id, saw) && renamed)
      ensures failed == (WillRename(old(View()), id, saw) && !renamed)
      ensures files' == if published then (files - {temporary})[destination := files[temporary]] else files
      ensures View() == Publish(old(View()), id, saw, renamed)
    {
      published, failed, files' := false, false, files;
      if id !in tasks {
        return;
      }
      if tasks[id].status == Cancelled || saw {
        if tasks[id].Active() {
          MarkTaskCancelled(id);
        }
        return;
      }
      if tasks[id].status != Running {
        return;
      }
      if !renamed {
        failed := true;
        return;
      }
      files' := (files - {temporary})[destination := files[temporary]];
      var task := tasks[id].(status := Completed);
      if task.bytesTotal <= 0 {
        task := task.(bytesTotal := task.bytesCopied);
      }
      tasks := tasks[id := task.(progress := 100)];
      TrimTerminalTasks(id);
      published := true;
    }

    /** The deferred clean-up of a worker, up to the end of its critical section. */
    method CleanUp(id: Id, destination: string)
      requires Valid()
      modifies `remoteCancels, `remoteReservations, `cancelledContexts
      ensures Valid()
      ensures View() == CleanMaps(old(View()), id, destination)
      ensures cancelledContexts == old(cancelledContexts) + {id}
    {
      cancelledContexts := cancelledContexts + {id};
      remoteCancels := remoteCancels - {id};
      remoteReservations := remoteReservations - {destination};
    }
  }

  lemma FreshEntry(before: Memory, after: Memory, task: Task)
    requires WellFormed(before) && after.next == before.next + 1
    requires after.order == [after.next] + before.order
    requires after.tasks == before.tasks[after.next := task]
    ensures WellFormed(after)
  {
    assert after.next !in Elements(before.order);
    assert Elements(after.order) == Elements(before.order) + {after.next};
  }

  /** Progress of a trim: `gone` has been dropped so far and the rest is still to be dropped from `m`. */
  ghost predicate Trimming(start: Memory, keep: set<Id>, gone: set<Id>, m: Memory) {
    && WellFormed(m)
    && m == start.(tasks := start.tasks - gone, order := Without(start.order, gone))
    && gone !! keep
    && gone + Dropped(m.order, keep, |m.order| - MAX_REMEMBERED_TASKS)
       == Dropped(start.order, keep, |start.order| - MAX_REMEMBERED_TASKS)
  }

  lemma TrimBegins(start: Memory, keep: set<Id>)
    requires WellFormed(start)
    ensures Trimming(start, keep, {}, start)
  {
    WithoutNothing(start.order);
  }

  lemma TrimKeeps(start: Memory, keep: set<Id>, gone: set<Id>, m: Memory, preserve: Id, id: Id)
    requires Trimming(start, keep, gone, m) && keep == Protected(start.tasks, preserve)
    ensures id == preserve || (id in m.tasks && m.tasks[id].Active()) ==> id in keep
    ensures id !in keep ==> id != preserve && !(id in m.tasks && m.tasks[id].Active())
  {
  }

  lemma TrimEnds(start: Memory, keep: set<Id>, gone: set<Id>, m: Memory, preserve: Id)
    requires Trimming(start, keep, gone, m) && keep == Protected(start.tasks, preserve)
    requires Dropped(m.order, keep, |m.order| - MAX_REMEMBERED_TASKS) == {}
    ensures WellFormed(m) && m == Trim(start, preserve)
  {
    assert gone == TrimGone(start, preserve) by {
      assert gone + {} == gone;
    }
  }

  lemma TrimDrops(start: Memory, keep: set<Id>, gone: set<Id>, m: Memory, preserve: Id, index: nat)
    requires Trimming(start, keep, gone, m) && keep == Protected(start.tasks, preserve)
    requires |m.order| > MAX_REMEMBERED_TASKS
    requires index < |m.order| && m.order[index] != preserve
    requires !(m.order[index] in m.tasks && m.tasks[m.order[index]].Active())
    requires forall j :: index < j < |m.order| ==> m.order[j] in keep
    ensures var id := m.order[index];
      Trimming(start, keep, gone + {id},
               m.(tasks := m.tasks - {id}, order := m.order[..index] + m.order[index + 1..]))
  {
    hide Dropped, Without;
    var id := m.order[index];
    var next := m.(tasks := m.tasks - {id}, order := m.order[..index] + m.order[index + 1..]);
    assert id in m.tasks by {
      assert id in Elements(m.order);
    }
    assert id !in keep;
    DropOne(m.order, keep, index, |m.order| - MAX_REMEMBERED_TASKS);
    WithoutOne(m.order, index);
    WithoutTwice(start.order, gone, {id});
    WithoutFacts(m.order, {id});
    WithoutElements(m.order, {id});
    assert next.tasks == start.tasks - (gone + {id});
    assert next.tasks.Keys == m.tasks.Keys - {id};
  }
}
