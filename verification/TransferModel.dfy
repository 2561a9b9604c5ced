/** What the critical sections of the transfer service do to the fields guarded by its mutex. */
module TransferModel {
  import opened Prelude
  import opened HistoryTrim
  import opened TransferStream

  const MAX_REMOTE_DOWNLOADS := 3
  const MAX_REMEMBERED_TASKS := 100

  /** The number inside a task id such as T000042; numbers are handed out by a counter. */
  type Id = nat

  datatype Status = Queued | Running | Completed | Failed | Cancelled | Submitted

  datatype Task = Task(
    destination: string, status: Status, error: string,
    bytesTotal: int, bytesCopied: int, progress: int)
  {
    predicate Active() {
      status == Queued || status == Running
    }
  }

  /** The guarded fields of the service. The cancel functions are known by the ids they stand for,
      the semaphore and the wait group by their counts. */
  datatype Memory = Memory(
    next: nat, tasks: map<Id, Task>, order: seq<Id>,
    cancels: set<Id>, reservations: set<string>,
    slots: nat, waitGroup: nat, closed: bool)

  /** `order` lists exactly the remembered tasks, once each, and no id is newer than the counter. */
  ghost predicate WellFormed(m: Memory) {
    && NoDuplicates(m.order)
    && Elements(m.order) == m.tasks.Keys
    && forall id <- m.tasks :: 1 <= id <= m.next
  }

  /** The tasks a trim must not touch. */
  function Protected(tasks: map<Id, Task>, preserve: Id): set<Id> {
    {preserve} + set id | id in tasks && tasks[id].Active()
  }

  function TrimGone(m: Memory, preserve: Id): set<Id> {
    Dropped(m.order, Protected(m.tasks, preserve), |m.order| - MAX_REMEMBERED_TASKS)
  }

  function Trim(m: Memory, preserve: Id): Memory {
    var gone := TrimGone(m, preserve);
    m.(tasks := m.tasks - gone, order := Without(m.order, gone))
  }

  /** A trim forgets finished tasks only, and not the preserved one. */
  lemma TrimFacts(m: Memory, preserve: Id)
    requires WellFormed(m)
    ensures WellFormed(Trim(m, preserve))
    ensures forall id <- Trim(m, preserve).tasks :: id in m.tasks && Trim(m, preserve).tasks[id] == m.tasks[id]
    ensures forall id <- m.tasks :: id == preserve || m.tasks[id].Active() ==> id in Trim(m, preserve).tasks
    ensures |Trim(m, preserve).order| <= |m.order|
  {
    var gone := TrimGone(m, preserve);
    DroppedIsOutside(m.order, Protected(m.tasks, preserve), |m.order| - MAX_REMEMBERED_TASKS);
    WithoutFacts(m.order, gone);
    WithoutElements(m.order, gone);
    assert Trim(m, preserve).tasks.Keys == m.tasks.Keys - gone;
  }

  function SetTask(m: Memory, id: Id, task: Task): Memory {
    m.(tasks := m.tasks[id := task])
  }

  /** StartRemoteDownload's critical section, once a destination has been found. */
  function Register(m: Memory, destination: string, declared: int): Memory {
    var id := m.next + 1;
    var task := Task(destination, Queued, "", Max(declared, 0), 0, 0);
    Trim(m.(next := id,
            tasks := m.tasks[id := task],
            cancels := m.cancels + {id},
            reservations := m.reservations + {destination},
            order := [id] + m.order), id).(waitGroup := m.waitGroup + 1)
  }

  function RecordSubmitted(m: Memory, destination: string): Memory {
    var id := m.next + 1;
    var task := Task(destination, Submitted, "", 0, 0, 0);
    Trim(m.(next := id, tasks := m.tasks[id := task], order := [id] + m.order), id)
  }

  function MarkCancelled(task: Task): Task {
    task.(status := Cancelled, error := "")
  }

  predicate Cancellable(m: Memory, id: Id) {
    id in m.tasks && id in m.cancels && m.tasks[id].Active()
  }

  /** CancelRemoteDownload; the caller is told whether it took effect. */
  function CancelRemote(m: Memory, id: Id): Memory {
    if Cancellable(m, id) then Trim(SetTask(m, id, MarkCancelled(m.tasks[id])), id) else m
  }

  predicate IsActive(m: Memory, id: Id) {
    id in m.tasks && m.tasks[id].Active()
  }

  function FailTask(m: Memory, id: Id, error: string): Memory {
    if !IsActive(m, id) then m
    else
      var t := m.tasks[id];
      Trim(SetTask(m, id, t.(status := Failed, error := error,
                             progress := Progress(t.bytesCopied, t.bytesTotal))), id)
  }

  function CancelTask(m: Memory, id: Id): Memory {
    if IsActive(m, id) then Trim(SetTask(m, id, MarkCancelled(m.tasks[id])), id) else m
  }

  predicate CanBegin(m: Memory, id: Id) {
    id in m.tasks && m.tasks[id].status == Queued
  }

  function Begin(m: Memory, id: Id): Memory {
    if CanBegin(m, id) then SetTask(m, id, m.tasks[id].(status := Running)) else m
  }

  /** shouldStopRemoteTask, given whether the context was seen cancelled. */
  function StopCheck(m: Memory, id: Id, saw: bool): Memory {
    if saw then CancelTask(m, id) else m
  }

  predicate MustStop(m: Memory, id: Id, saw: bool) {
    saw || id !in m.tasks || m.tasks[id].status == Cancelled
  }

  /** The tail of updateTask: a finished task prompts a trim. */
  function Store(m: Memory, id: Id, task: Task): Memory {
    var stored := SetTask(m, id, task);
    if task.Active() then stored else Trim(stored, id)
  }

  function SetTotal(m: Memory, id: Id, total: int): Memory {
    if id in m.tasks then Store(m, id, m.tasks[id].(bytesTotal := total)) else m
  }

  function AddBytes(m: Memory, id: Id, n: int): Memory {
    if id in m.tasks then
      var t := m.tasks[id];
      Store(m, id, t.(bytesCopied := t.bytesCopied + n, progress := Progress(t.bytesCopied + n, t.bytesTotal)))
    else m
  }

  /** Whether publishRemoteTask gets as far as the rename. */
  predicate WillRename(m: Memory, id: Id, saw: bool) {
    id in m.tasks && m.tasks[id].status == Running && !saw
  }

  /** publishRemoteTask; `renamed` is the fate of the rename when there is one. */
  function Publish(m: Memory, id: Id, saw: bool, renamed: bool): Memory {
    if id !in m.tasks then m
    else
      var t := m.tasks[id];
      if t.status == Cancelled || saw then
        if t.Active() then SetTask(m, id, MarkCancelled(t)) else m
      else if t.status != Running || !renamed then m
      else
        Trim(SetTask(m, id, t.(status := Completed, progress := 100,
                               bytesTotal := if t.bytesTotal <= 0 then t.bytesCopied else t.bytesTotal)), id)
  }

  function CleanMaps(m: Memory, id: Id, destination: string): Memory {
    m.(cancels := m.cancels - {id}, reservations := m.reservations - {destination})
  }
}
