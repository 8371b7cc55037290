/**
 * Bring-up and teardown as each thread runs them: the descriptor guards, the
 * fallible steps of `Engine::start` with the drops its early returns imply,
 * `Engine::stop`, and the entry points of the core, the shim and the Android service.
 */
module Startup {
  import opened Util
  import opened Descriptors
  import opened Cancellation
  import Tasks

  class Kernel {
    var table: FdTable

    constructor (table: FdTable)
      ensures this.table == table
    {
      this.table := table;
    }

    method Close(fd: int, closer: Closer)
      modifies this
      ensures table == old(table).Close(fd, closer)
    {
      table := table.Close(fd, closer);
    }
  }

  /** Closes its descriptor when dropped, unless it was disarmed. Negative numbers are no descriptor. */
  class FdGuard {
    var fd: Option<int>
    const kernel: Kernel
    const closer: Closer

    constructor (kernel: Kernel, fd: int, closer: Closer)
      ensures this.kernel == kernel && this.closer == closer
      ensures this.fd == if fd < 0 then None else Some(fd)
    {
      this.kernel := kernel;
      this.closer := closer;
      this.fd := if fd < 0 then None else Some(fd);
    }

    /** Consumes the guard; dropping what is left of it finds nothing to close. */
    method Disarm()
      modifies this
      ensures fd.None?
    {
      fd := None;
    }

    method Drop()
      modifies this, kernel
      ensures fd.None?
      ensures kernel.table
           == if old(fd).Some? then old(kernel.table).Close(old(fd).value, closer) else old(kernel.table)
    {
      match fd {
        case Some(n) =>
          fd := None;
          kernel.Close(n, closer);
        case None =>
      }
    }
  }

  /** A spawned task, as seen through its handle. */
  class Task {
    const name: Tasks.Name
    const token: Token
    var aborted: bool

    constructor (name: Tasks.Name, token: Token)
      ensures this.name == name && this.token == token && !aborted
    {
      this.name, this.token, aborted := name, token, false;
    }

    method Abort()
      modifies this
      ensures aborted
    {
      aborted := true;
    }
  }

  /** Leaf #1 in its role as pluggable transport; it owns the task's handle until shut down. */
  class LeafPt {
    const token: Token
    var task: Task?

    constructor (token: Token, task: Task)
      ensures this.token == token && this.task == task
    {
      this.token, this.task := token, task;
    }

    /** `shutdown` and `drop` alike: cancel, take the handle, abort it. */
    method Release()
      modifies this, token.channel, task
      ensures token.Raised() && task == null
      ensures old(task) != null ==> old(task).aborted
    {
      token.Cancel();
      var handle := task;
      task := null;
      if handle != null {
        handle.Abort();
      }
    }
  }

  datatype Provider = Leaf | Lyrebird | Xray

  /** How each fallible step of the bring-up turns out. */
  datatype Plan = Plan(
    provider: Provider,
    ptPort: bool,
    ptConfig: bool,
    artiPort: bool,
    leafConfig: bool,
    dnsBind: bool,
    dohClient: bool,
    ipcBind: bool,
    ipcPermissions: bool)
  {
    /** How many tasks are spawned before the first failing step. */
    function Reached(): (n: nat)
      ensures n <= 5
    {
      if !(provider.Leaf? && ptPort && ptConfig) then 0
      else if !artiPort then 1
      else if !leafConfig then 2
      else if !(dnsBind && dohClient) then 3
      else if !(ipcBind && ipcPermissions) then 4
      else 5
    }
  }

  const ORDER: seq<Tasks.Name> := [Tasks.Leaf1, Tasks.ArtiTask, Tasks.Leaf2, Tasks.DnsTask, Tasks.IpcTask]

  /** The tasks come up in the order in which the interleaved model spawns them. */
  lemma OrderIsSpawnOrder(s: Tasks.State, k: nat, n: Tasks.Name)
    requires k < 5
    ensures Tasks.Present(Tasks.SpawnTask(s, k), n) <==> Tasks.Present(s, n) || n == ORDER[k]
  {
  }

  /** All five come up exactly if no step fails; else the first failing step says how many. */
  lemma ReachedIff(plan: Plan)
    ensures plan.Reached() > 0 <==> plan.provider == Leaf && plan.ptPort && plan.ptConfig
    ensures plan.Reached() > 1 <==> plan.Reached() > 0 && plan.artiPort
    ensures plan.Reached() > 2 <==> plan.Reached() > 1 && plan.leafConfig
    ensures plan.Reached() > 3 <==> plan.Reached() > 2 && plan.dnsBind && plan.dohClient
    ensures plan.Reached() > 4 <==> plan.Reached() > 3 && plan.ipcBind && plan.ipcPermissions
  {
  }

  class Engine {
    const token: Token
    var running: bool
    var tasks: seq<Task>
    var pt: LeafPt?

    ghost function Handles(): set<object>
      reads this, pt
    {
      {this, token.channel} + (set t | t in tasks) + (if pt == null then {} else {pt})
      + (if pt == null || pt.task == null then {} else {pt.task})
    }

    /** Freshly brought up: four handles and the PT, one token, nothing cancelled or aborted. */
    ghost predicate Live()
      reads this, pt, token.channel
      reads if pt == null || pt.task == null then {} else {pt.task}
      reads tasks
    {
      && running && !token.Raised()
      && pt != null && pt.token.channel == token.channel && pt.task != null
      && pt.task.name == Tasks.Leaf1 && pt.task.token.channel == token.channel && !pt.task.aborted
      && |tasks| == 4
      && forall i | 0 <= i < 4 ::
           tasks[i].name == ORDER[i + 1] && tasks[i].token.channel == token.channel && !tasks[i].aborted
    }

    ghost predicate Valid()
      reads this, pt
    {
      && (pt != null ==> pt.token.channel == token.channel)
    }

    constructor (token: Token, tasks: seq<Task>, pt: LeafPt)
      ensures this.token == token && running && this.tasks == tasks && this.pt == pt
    {
      this.token, this.tasks, this.pt := token, tasks, pt;
      running := true;
    }

    /** `Engine::stop`: cancel, shut the PT down, then abort every remaining handle. */
    method Stop()
      requires Valid()
      modifies Handles()
      ensures token.Raised() && !running && pt == null && tasks == []
      ensures old(pt) != null && old(pt.task) != null ==> old(pt.task).aborted
      ensures forall t | t in old(tasks) :: t.aborted
    {
      token.Cancel();
      var transport := pt;
      pt := null;
      if transport != null {
        transport.Release();
      }
      var handles := tasks;
      tasks := [];
      for i := 0 to |handles|
        invariant token.Raised() && pt == null && tasks == []
        invariant old(pt) != null && old(pt.task) != null ==> old(pt.task).aborted
        invariant forall j | 0 <= j < i :: handles[j].aborted
        modifies set t | t in handles
      {
        handles[i].Abort();
      }
      running := false;
    }
  }

  /** The first tasks of the bring-up order, all holding clones of `token`, none aborted. */
  ghost predicate Brought(spawned: seq<Task>, token: Token)
    reads spawned
  {
    && |spawned| <= 5
    && forall i | 0 <= i < |spawned| ::
         spawned[i].name == ORDER[i] && spawned[i].token.channel == token.channel && !spawned[i].aborted
  }

  method SpawnNext(spawned: seq<Task>, token: Token) returns (task: Task)
    requires Brought(spawned, token) && |spawned| < 5
    ensures fresh(task) && Brought(spawned + [task], token)
  {
    var clone := new Token.Clone(token);
    task := new Task(ORDER[|spawned|], clone);
  }

  /** An early return out of the bring-up: the PT goes out of scope. */
  method Unwind(pt: LeafPt, spawned: seq<Task>)
    requires Brought(spawned, pt.token) && spawned != [] && pt.task == spawned[0]
    modifies pt, pt.token.channel, pt.task
    ensures forall t | t in spawned :: t.token.Raised()
    ensures spawned[0].aborted
  {
    pt.Release();
  }

  /** What a bring-up that got to `plan.Reached()` leaves behind. */
  ghost predicate BroughtUp(plan: Plan, engine: Engine?, spawned: seq<Task>)
    reads engine, spawned, set t | t in spawned :: t.token.channel
    reads if engine == null then {} else {engine.token.channel}
    reads if engine == null || engine.pt == null then {} else {engine.pt}
    reads if engine == null then [] else engine.tasks
    reads if engine == null || engine.pt == null || engine.pt.task == null then {} else {engine.pt.task}
  {
    && |spawned| == plan.Reached()
    && (forall i | 0 <= i < |spawned| :: spawned[i].name == ORDER[i])
    && (engine != null <==> plan.Reached() == 5)
    && (engine == null ==> (forall t | t in spawned :: t.token.Raised()) && (spawned != [] ==> spawned[0].aborted))
    && (engine != null ==> engine.Live() && engine.pt.task == spawned[0] && engine.tasks == spawned[1..])
  }

  /** A launched engine shares one token with everything that was spawned for it. */
  lemma LaunchedShares(plan: Plan, engine: Engine, spawned: seq<Task>)
    requires BroughtUp(plan, engine, spawned)
    ensures plan.Reached() == 5 && engine.Valid() && engine.running && !engine.token.Raised()
    ensures forall t | t in spawned :: t.token.channel == engine.token.channel
    ensures engine.pt != null && engine.pt.task != null && engine.pt.task in spawned
            && forall t | t in engine.tasks :: t in spawned
  {
  }

  lemma UnwoundIsCancelled(plan: Plan, spawned: seq<Task>)
    requires BroughtUp(plan, null, spawned)
    ensures |spawned| == plan.Reached() < 5 && forall t | t in spawned :: t.token.Raised()
  {
  }

  /** `Engine::start`, steps 1 and 2, Leaf #1 and Arti, and the rest. */
  method StartEngine(plan: Plan) returns (engine: Engine?, spawned: seq<Task>)
    ensures BroughtUp(plan, engine, spawned)
    ensures forall t | t in spawned :: fresh(t)
    ensures engine != null ==> fresh(engine) && fresh(engine.token.channel) && fresh(engine.pt)
  {
    var token := new Token();
    spawned := [];
    engine := null;
    if !(plan.provider.Leaf? && plan.ptPort && plan.ptConfig) {
      return;
    }
    var leaf1 := SpawnNext(spawned, token);
    spawned := spawned + [leaf1];
    var ptToken := new Token.Clone(token);
    var pt := new LeafPt(ptToken, leaf1);
    if !plan.artiPort {
      Unwind(pt, spawned);
      return;
    }
    var arti := SpawnNext(spawned, token);
    spawned := spawned + [arti];
    engine, spawned := StartTun(plan, pt, spawned);
  }

  /** Step 3 of `Engine::start`, Leaf #2, and the rest. */
  method StartTun(plan: Plan, pt: LeafPt, before: seq<Task>) returns (engine: Engine?, spawned: seq<Task>)
    requires plan.Reached() >= 2 && Brought(before, pt.token) && |before| == 2 && pt.task == before[0]
             && !pt.token.Raised()
    modifies pt, pt.token.channel, before[0]
    ensures BroughtUp(plan, engine, spawned)
    ensures before <= spawned && forall i | 2 <= i < |spawned| :: fresh(spawned[i])
    ensures engine != null ==> fresh(engine) && engine.token == pt.token && engine.pt == pt
  {
    if !plan.leafConfig {
      Unwind(pt, before);
      return null, before;
    }
    var leaf2 := SpawnNext(before, pt.token);
    engine, spawned := StartListeners(plan, pt, before + [leaf2]);
  }

  /** Steps 4 and 5 of `Engine::start`: the DNS proxy and the IPC server. */
  method StartListeners(plan: Plan, pt: LeafPt, before: seq<Task>) returns (engine: Engine?, spawned: seq<Task>)
    requires plan.Reached() >= 3 && Brought(before, pt.token) && |before| == 3 && pt.task == before[0]
             && !pt.token.Raised()
    modifies pt, pt.token.channel, before[0]
    ensures BroughtUp(plan, engine, spawned)
    ensures before <= spawned && forall i | 3 <= i < |spawned| :: fresh(spawned[i])
    ensures engine != null ==> fresh(engine) && engine.token == pt.token && engine.pt == pt
  {
    spawned := before;
    engine := null;
    if !(plan.dnsBind && plan.dohClient) {
      Unwind(pt, spawned);
      return;
    }
    var dns := SpawnNext(spawned, pt.token);
    spawned := spawned + [dns];
    if !(plan.ipcBind && plan.ipcPermissions) {
      Unwind(pt, spawned);
      return;
    }
    var ipc := SpawnNext(spawned, pt.token);
    spawned := spawned + [ipc];
    engine := new Engine(pt.token, spawned[1..], pt);
  }

  datatype StartResult = Launched | AlreadyRunning | BringUpFailed

  /** The table after a guard or the platform gives up on `fd`. */
  function GivenUp(t: FdTable, fd: int, closer: Closer): FdTable {
    if fd < 0 then t else t.Close(fd, closer)
  }

  /** The process-wide slot and the three entry points of the core. */
  class Core {
    const kernel: Kernel
    var slot: Engine?

    ghost predicate Valid()
      reads this, slot, if slot == null || slot.pt == null then {} else {slot.pt}
    {
      slot != null ==> slot.Valid() && slot.running
    }

    ghost function Owned(): set<object>
      reads this, slot, if slot == null || slot.pt == null then {} else {slot.pt}
    {
      if slot == null then {} else slot.Handles()
    }

    constructor (kernel: Kernel)
      ensures this.kernel == kernel && slot == null && Valid()
    {
      this.kernel, slot := kernel, null;
    }

    /** `start`: from here on the core's guard is responsible for `fd`. */
    method Start(plan: Plan, fd: int) returns (r: StartResult, ghost spawned: seq<Task>)
      requires Valid()
      modifies this, kernel
      ensures Valid()
      ensures r.AlreadyRunning? <==> old(slot) != null
      ensures r.Launched? <==> old(slot) == null && plan.Reached() == 5
      ensures r.AlreadyRunning? ==> spawned == []
      ensures !r.AlreadyRunning? ==> BroughtUp(plan, slot, spawned) && forall t | t in spawned :: fresh(t)
      ensures r.Launched? ==> slot != null && fresh(slot) && fresh(Owned()) && kernel.table == old(kernel.table)
      ensures !r.Launched? ==> slot == old(slot) && kernel.table == GivenUp(old(kernel.table), fd, CoreGuard)
    {
      hide BroughtUp;
      spawned := [];
      var guard := new FdGuard(kernel, fd, CoreGuard);
      if slot != null {
        guard.Drop();
        return AlreadyRunning, spawned;
      }
      var engine, tasks := StartEngine(plan);
      spawned := tasks;
      if engine == null {
        UnwoundIsCancelled(plan, spawned);
        guard.Drop();
        return BringUpFailed, spawned;
      }
      LaunchedShares(plan, engine, spawned);
      slot := engine;
      guard.Disarm();
      return Launched, spawned;
    }

    /** `stop`: takes the engine out of the slot, then stops it. */
    method Stop()
      requires Valid()
      modifies this, Owned()
      ensures Valid() && slot == null
      ensures old(slot) != null ==> old(slot).token.Raised() && !old(slot).running && old(slot).pt == null
      ensures old(slot) != null ==> forall t | t in old(slot.tasks) :: t.aborted
    {
      var engine := slot;
      slot := null;
      if engine != null {
        engine.Stop();
      }
    }

    method Status() returns (running: bool)
      requires Valid()
      ensures running <==> slot != null
    {
      running := slot != null && slot.running;
    }
  }

  /** The FFI and JNI entry points: guard the descriptor while the arguments are parsed, then hand it over. */
  method ShimStart(core: Core, argumentsParse: bool, plan: Plan, fd: int) returns (rc: int, ghost spawned: seq<Task>)
    requires core.Valid()
    modifies core, core.kernel
    ensures core.Valid()
    ensures rc == 0 <==> argumentsParse && old(core.slot) == null && plan.Reached() == 5
    ensures if argumentsParse && old(core.slot) == null
            then BroughtUp(plan, core.slot, spawned) && forall t | t in spawned :: fresh(t) else spawned == []
    ensures rc == 0 ==>
              core.slot != null && fresh(core.slot) && fresh(core.Owned())
                && core.kernel.table == old(core.kernel.table)
    ensures rc != 0 ==> core.slot == old(core.slot)
    ensures rc != 0 ==>
              core.kernel.table == GivenUp(old(core.kernel.table), fd, if argumentsParse then CoreGuard else ShimGuard)
  {
    spawned := [];
    var guard := new FdGuard(core.kernel, fd, ShimGuard);
    if !argumentsParse {
      guard.Drop();
      return 1, spawned;
    }
    guard.Disarm();
    var r, tasks := core.Start(plan, fd);
    return if r.Launched? then 0 else 1, tasks;
  }

  /** Where `startTunnel` throws, if it does; the last case is a report to the app that throws. */
  datatype Trouble = Nothing | BeforeNativeCall | MarshallingTheCall | AfterNativeCall

  datatype UiEvent = Running(on: bool) | Failed

  /** The Android service around the shim. */
  class FfVpnService {
    const core: Core
    var events: seq<UiEvent>

    constructor (core: Core)
      ensures this.core == core && events == []
    {
      this.core, events := core, [];
    }

    method StopTunnel()
      requires core.Valid()
      modifies this, core, core.Owned()
      ensures core.Valid() && core.slot == null && events == old(events) + [Running(false)]
      ensures old(core.slot) != null ==> old(core.slot).token.Raised() && !old(core.slot).running
    {
      core.Stop();
      events := events + [Running(false)];
    }

    /**
     * `startTunnel` from the detached descriptor on. Exactly one party gives the
     * descriptor up when the attempt fails, except that a failure while the native
     * call is being marshalled leaves it to nobody, and one after a successful call
     * leaves it to Leaf. Every failure, a refusal because an engine is already
     * running included, ends with the running engine stopped, and with every task
     * that this attempt spawned holding a cancelled token.
     */
    method StartTunnel(fd: int, trouble: Trouble, argumentsParse: bool, plan: Plan)
      returns (started: bool, ghost spawned: seq<Task>)
      requires core.Valid()
      modifies this, core, core.kernel, core.Owned()
      ensures core.Valid()
      ensures started <==> trouble.Nothing? && argumentsParse && old(core.slot) == null && plan.Reached() == 5
      ensures |spawned| == if (trouble.Nothing? || trouble.AfterNativeCall?) && argumentsParse && old(core.slot) == null
                           then plan.Reached() else 0
      ensures started ==>
                BroughtUp(plan, core.slot, spawned) && core.kernel.table == old(core.kernel.table)
                && events == old(events) + [Running(true)]
      ensures !started ==> core.slot == null && Running(false) in events && old(events) < events
      ensures !started ==> forall t | t in spawned :: t.token.Raised()
      ensures !started && old(core.slot) != null ==> old(core.slot).token.Raised() && !old(core.slot).running
      ensures !started ==>
                core.kernel.table ==
                match trouble
                case BeforeNativeCall => old(core.kernel.table).Close(fd, Kotlin)
                case MarshallingTheCall => old(core.kernel.table)
                case _ =>
                  if argumentsParse && old(core.slot) == null && plan.Reached() == 5 then old(core.kernel.table)
                  else GivenUp(old(core.kernel.table), fd, if argumentsParse then CoreGuard else ShimGuard)
    {
      var nativeStartCalled := false;
      spawned := [];
      if trouble.Nothing? || trouble.AfterNativeCall? {
        nativeStartCalled := true;
        var rc, tasks := ShimStart(core, argumentsParse, plan, fd);
        spawned := tasks;
        if trouble.Nothing? {
          if rc != 0 {
            StopTunnel();
            return false, spawned;
          }
          events := events + [Running(true)];
          return true, spawned;
        }
        if rc != 0 {
          core.Stop();
        }
      }
      nativeStartCalled := nativeStartCalled || trouble.MarshallingTheCall?;
      Recover(fd, nativeStartCalled);
      return false, spawned;
    }

    /** The handler around the whole start. */
    method Recover(fd: int, nativeStartCalled: bool)
      requires core.Valid()
      modifies this, core, core.kernel, core.Owned()
      ensures core.Valid() && core.slot == null && events == old(events) + [Failed, Running(false)]
      ensures old(core.slot) != null ==> old(core.slot).token.Raised() && !old(core.slot).running
      ensures core.kernel.table == if nativeStartCalled then old(core.kernel.table)
              else old(core.kernel.table).Close(fd, Kotlin)
    {
      events := events + [Failed];
      if !nativeStartCalled {
        core.kernel.Close(fd, Kotlin);
      }
      StopTunnel();
    }
  }
}
