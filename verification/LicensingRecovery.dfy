/** The licensing server with its disk: operations, crashes at any moment, and restarts that check what they
    load. Every run of it comes down to a run of operations that take effect entirely or not at all. */
module LicensingRecovery {
  import opened Prelude
  import opened LicensingModel
  import opened LicensingInvariant
  import opened LicensingDisk
  import opened LicensingRuns
  import opened LicensingStore

  /** A process that may be down, what it holds in memory, and its disk. */
  datatype Server = Server(up: bool, memory: Records, disk: Disk<Records>)

  datatype ServerStep =
    | Operate(event: Event, w: Write)
    | CrashDuring(event: Event, w: Write, after: nat)
    | Crash
    | Restart(io: Reads)

  /** The checks that load makes. */
  ghost predicate Accepts(s: Records) {
    ValidRecords(s) && TokensOpen(s.devices)
  }

  /** One step. A write whose rollback rename fails is outside the claim. */
  ghost predicate ServerNext(n: Server, step: ServerStep, upper: string -> string, n': Server) {
    match step
    case Operate(event, w) =>
      && n.up && FreshIds(n.memory, event) && (WriteFails(n.disk, w) ==> w.fates.rollBack)
      && var p := PlanOf(n.memory, event, upper);
      n' == if !p.Change? then n
            else Server(true, if WriteFails(n.disk, w) then n.memory else p.next, Written(n.disk, p.next, w))
    case CrashDuring(event, w, after) =>
      && n.up && FreshIds(n.memory, event)
      && var p := PlanOf(n.memory, event, upper);
      && p.Change? && after < |Images(n.disk, p.next, w.fates)|
      && n' == n.(up := false, disk := if w.written then Images(n.disk, p.next, w.fates)[after] else n.disk)
    case Crash => n.up && n' == n.(up := false)
    case Restart(io) =>
      && !n.up
      && var found := Recovered(n.disk, EMPTY);
      n' == if !Loads(n.disk, io) then n
            else if Accepts(found) then Server(true, found, LoadedDisk(n.disk))
            else n.(disk := LoadedDisk(n.disk))
  }

  ghost predicate ServerRun(nodes: seq<Server>, steps: seq<ServerStep>, upper: string -> string) {
    && |nodes| == |steps| + 1
    && nodes[0] == Server(false, EMPTY, Disk(None, None))
    && forall i :: 0 <= i < |steps| ==> ServerNext(nodes[i], steps[i], upper, nodes[i + 1])
  }

  /** What survives a crash right now. */
  function Surviving(n: Server): Records {
    Recovered(n.disk, EMPTY)
  }

  ghost predicate ServerOk(n: Server) {
    StoreOk(Surviving(n)) && (n.up ==> Agree(n.memory, n.disk))
  }

  /** The operation a step performs on what survives, if it performs one. */
  ghost function Effect(n: Server, step: ServerStep, n': Server): Option<Call> {
    match step
    case Operate(event, w) => Some(Call(event, !WriteFails(n.disk, w)))
    case CrashDuring(event, _, _) => if Surviving(n') == Surviving(n) then None else Some(Call(event, true))
    case _ => None
  }

  /** Every step acts on what survives like one whole operation, or not at all. */
  lemma StepIsCall(n: Server, step: ServerStep, upper: string -> string, n': Server)
    requires ServerOk(n) && ServerNext(n, step, upper, n')
    ensures n'.up ==> Agree(n'.memory, n'.disk)
    ensures match Effect(n, step, n')
            case None => Surviving(n') == Surviving(n)
            case Some(call) => FreshIds(Surviving(n), call.event) && Surviving(n') == After(Surviving(n), call, upper)
  {
    hide PlanOf, FreshIds, StoreOk, ValidRecords, TokensOpen, Images;
    match step
    case Operate(event, w) =>
      var p := PlanOf(n.memory, event, upper);
      if p.Change? {
        ReplaceIsAtomic(n.disk, p.next, EMPTY, w.fates);
      }
    case CrashDuring(event, w, after) =>
      var p := PlanOf(n.memory, event, upper);
      ReplaceIsAtomic(n.disk, p.next, EMPTY, w.fates);
    case Crash =>
    case Restart(_) =>
  }

  lemma StepKeepsServerOk(n: Server, step: ServerStep, upper: string -> string, n': Server)
    requires ServerOk(n) && ServerNext(n, step, upper, n')
    ensures ServerOk(n')
  {
    hide PlanOf, FreshIds, StoreOk, ServerNext, Effect, Surviving, Agree;
    StepIsCall(n, step, upper, n');
    var effect := Effect(n, step, n');
    if effect.Some? {
      var p := PlanOf(Surviving(n), effect.value.event, upper);
      if p.Change? {
        PlanKeeps(Surviving(n), effect.value.event, upper);
      }
    }
  }

  lemma {:induction false} RunKeepsServerOk(nodes: seq<Server>, steps: seq<ServerStep>, upper: string -> string, i: nat)
    requires ServerRun(nodes, steps, upper) && i < |nodes|
    ensures ServerOk(nodes[i])
    decreases i
  {
    hide StoreOk, ServerNext;
    if i == 0 {
      EmptyStoreOk();
    } else {
      RunKeepsServerOk(nodes, steps, upper, i - 1);
      StepKeepsServerOk(nodes[i - 1], steps[i - 1], upper, nodes[i]);
    }
  }

  /** A restart is never refused by the checks: once the files can be read and renamed, the server comes up with
      exactly what survived, and that satisfies the full invariant. */
  lemma ReloadIsNeverRefused(nodes: seq<Server>, steps: seq<ServerStep>, upper: string -> string, i: nat)
    requires ServerRun(nodes, steps, upper) && i < |steps| && steps[i].Restart?
    ensures Accepts(Surviving(nodes[i])) && StoreOk(Surviving(nodes[i]))
    ensures Loads(nodes[i].disk, steps[i].io) ==>
              nodes[i + 1].up && nodes[i + 1].memory == Surviving(nodes[i]) == Surviving(nodes[i + 1])
    ensures steps[i].io == Reads(true, true, true) ==> nodes[i + 1].up
  {
    hide StoreOk, Accepts, ServerNext, Surviving, Agree;
    RunKeepsServerOk(nodes, steps, upper, i);
    Acceptable(Surviving(nodes[i]));
    assert ServerNext(nodes[i], steps[i], upper, nodes[i + 1]);
    ComesUp(nodes[i], steps[i].io, upper, nodes[i + 1]);
  }

  lemma ComesUp(n: Server, io: Reads, upper: string -> string, n': Server)
    requires Accepts(Surviving(n)) && ServerNext(n, Restart(io), upper, n')
    ensures Loads(n.disk, io) ==> n'.up && n'.memory == Surviving(n) == Surviving(n')
  {
    hide Accepts, PlanOf, FreshIds;
  }

  lemma Acceptable(s: Records)
    requires StoreOk(s)
    ensures Accepts(s)
  {
    hide LimitsOk, IdentityOk, LeasesOk, RevocationOk, DevicesPaid, ReleasedOk, ValidRecords, TokensOpen;
  }

  /** The operations that took effect in the first `i` steps, in order. */
  ghost function Effects(nodes: seq<Server>, steps: seq<ServerStep>, i: nat): seq<Call>
    requires i < |nodes| <= |steps| + 1
  {
    if i == 0 then []
    else
      var effect := Effect(nodes[i - 1], steps[i - 1], nodes[i]);
      Effects(nodes, steps, i - 1) + if effect.Some? then [effect.value] else []
  }

  /** Whatever crashes and restarts there were, what survives is the result of a run of the operations that took
      effect, each as a whole; so every guarantee about such runs holds of it. */
  lemma {:induction false} SurvivesAsRun(nodes: seq<Server>, steps: seq<ServerStep>, upper: string -> string, i: nat)
    returns (states: seq<Records>)
    requires ServerRun(nodes, steps, upper) && i < |nodes|
    ensures StoreRun(states, Effects(nodes, steps, i), upper) && states[|states| - 1] == Surviving(nodes[i])
    ensures nodes[i].up ==> nodes[i].memory == Surviving(nodes[i])
    decreases i
  {
    hide ServerNext, ServerOk, Effect, Surviving, StoreRun;
    if i == 0 {
      states := [EMPTY];
      NothingSurvives(nodes[0]);
      NoCalls(upper);
    } else {
      states := SurvivesAsRun(nodes, steps, upper, i - 1);
      RunKeepsServerOk(nodes, steps, upper, i - 1);
      states := SurvivesStep(states, Effects(nodes, steps, i - 1), nodes[i - 1], steps[i - 1], upper, nodes[i]);
    }
    RunKeepsServerOk(nodes, steps, upper, i);
    MemorySurvives(nodes[i]);
  }

  lemma SurvivesStep(states: seq<Records>, calls: seq<Call>, n: Server, step: ServerStep, upper: string -> string,
                     n': Server)
    returns (states': seq<Records>)
    requires ServerOk(n) && ServerNext(n, step, upper, n')
    requires StoreRun(states, calls, upper) && states[|states| - 1] == Surviving(n)
    ensures StoreRun(states', calls + (if Effect(n, step, n').Some? then [Effect(n, step, n').value] else []), upper)
    ensures states'[|states'| - 1] == Surviving(n')
  {
    StepIsCall(n, step, upper, n');
    RunLength(states, calls, upper);
    var effect := Effect(n, step, n');
    hide ServerNext, ServerOk, Effect, Surviving, StoreRun, FreshIds, After;
    states' := states;
    if effect.Some? {
      OneMoreCall(states, calls, effect.value, upper);
      states' := states + [Surviving(n')];
    } else {
      assert calls + [] == calls;
    }
  }

  lemma OneMoreCall(states: seq<Records>, calls: seq<Call>, call: Call, upper: string -> string)
    requires StoreRun(states, calls, upper) && FreshIds(states[|calls|], call.event)
    ensures StoreRun(states + [After(states[|calls|], call, upper)], calls + [call], upper)
  {
    hide FreshIds, After;
  }

  lemma NoCalls(upper: string -> string)
    ensures StoreRun([EMPTY], [], upper)
  {
  }

  lemma RunLength(states: seq<Records>, calls: seq<Call>, upper: string -> string)
    requires StoreRun(states, calls, upper)
    ensures |states| == |calls| + 1
  {
  }

  lemma NothingSurvives(n: Server)
    requires n.disk == Disk(None, None)
    ensures Surviving(n) == EMPTY
  {
  }

  lemma MemorySurvives(n: Server)
    requires ServerOk(n)
    ensures n.up ==> n.memory == Surviving(n)
  {
  }
}
