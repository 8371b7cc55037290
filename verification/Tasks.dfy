/**
 * One engine's tasks around their shared cancellation token: Leaf #1, Arti,
 * Leaf #2, the DNS proxy and the IPC listener, brought up one after the other by
 * `Engine::start`, torn down by its failure or by `Engine::stop`, and interleaved
 * in any order.
 */
module Tasks {

  /** `leaf::start` on its blocking thread. */
  datatype Blocking = Running | Returned | Ended

  /** The task that waits for the token and then calls `leaf::shutdown`. */
  datatype Watcher = Waiting | Fired | Stopped

  /** The task whose handle the engine keeps; it awaits the blocking one. */
  datatype Wrapper = Joining | Joined | Dropped

  datatype Leaf = Absent | Leaf(blocking: Blocking, watcher: Watcher, wrapper: Wrapper) {
    predicate Over() {
      Leaf? && wrapper != Joining
    }
  }

  datatype Arti =
    | NoArti
    | Bootstrapping  // does not look at the token
    | Accepting      // selects on the token
    | Leaving        // `run` has returned, the token is cancelled next
    | ArtiExited
    | ArtiAborted
  {
    predicate Over() {
      ArtiExited? || ArtiAborted?
    }
  }

  /** A receive or accept loop that selects on the token. */
  datatype Loop = NoLoop | Looping | LoopExited | LoopAborted {
    predicate Over() {
      LoopExited? || LoopAborted?
    }
  }

  datatype Owner =
    | Starting(next: nat)  // about to bring up task number `next`
    | Up
    | Failed
    | Stopping(next: nat)
    | Gone

  datatype Name = Leaf1 | ArtiTask | Leaf2 | DnsTask | IpcTask

  datatype State = State(
    cancelled: bool,
    leaf1: Leaf,
    arti: Arti,
    leaf2: Leaf,
    dns: Loop,
    ipc: Loop,
    owner: Owner,
    aborts: set<Name>)

  const START := State(false, Absent, NoArti, Absent, NoLoop, NoLoop, Starting(0), {})
  const LEAF_UP := Leaf(Running, Waiting, Joining)

  datatype Event =
    // the owner
    | Spawn
    | SpawnFails
    | Stop
    | StopNext
    // outside events
    | ExternalCancel
    | LeafDies(second: bool)
    | ArtiReady
    | ArtiFails
    // the tasks' own steps
    | Watch(second: bool)
    | LeafReturns(second: bool)
    | LeafCancels(second: bool)
    | Join(second: bool)
    | DropWrapper(second: bool)
    | ArtiLeaves
    | ArtiCancels
    | DropArti
    | DnsLeaves
    | DropDns
    | IpcLeaves
    | DropIpc

  function GetLeaf(s: State, second: bool): Leaf {
    if second then s.leaf2 else s.leaf1
  }

  function SetLeaf(s: State, second: bool, l: Leaf): State {
    if second then s.(leaf2 := l) else s.(leaf1 := l)
  }

  function LeafName(second: bool): Name {
    if second then Leaf2 else Leaf1
  }

  predicate Enabled(s: State, e: Event) {
    match e
    case Spawn | SpawnFails => s.owner.Starting? && s.owner.next < 5
    case Stop => s.owner.Up?
    case StopNext => s.owner.Stopping? && s.owner.next < 6 && (s.owner.next == 1 ==> s.leaf1.Over())
    case ExternalCancel => true
    case LeafDies(k) => GetLeaf(s, k).Leaf? && GetLeaf(s, k).blocking == Running
    case ArtiReady | ArtiFails => s.arti.Bootstrapping?
    case Watch(k) => GetLeaf(s, k).Leaf? && GetLeaf(s, k).watcher == Waiting && s.cancelled
    case LeafReturns(k) => GetLeaf(s, k).Leaf? && GetLeaf(s, k).blocking == Running && GetLeaf(s, k).watcher == Fired
    case LeafCancels(k) => GetLeaf(s, k).Leaf? && GetLeaf(s, k).blocking == Returned
    case Join(k) => GetLeaf(s, k).Leaf? && GetLeaf(s, k).wrapper == Joining && GetLeaf(s, k).blocking == Ended
    case DropWrapper(k) => GetLeaf(s, k).Leaf? && GetLeaf(s, k).wrapper == Joining && LeafName(k) in s.aborts
    case ArtiLeaves => s.arti.Accepting? && s.cancelled
    case ArtiCancels => s.arti.Leaving?
    case DropArti => (s.arti.Bootstrapping? || s.arti.Accepting?) && ArtiTask in s.aborts
    case DnsLeaves => s.dns.Looping? && s.cancelled
    case DropDns => s.dns.Looping? && DnsTask in s.aborts
    case IpcLeaves => s.ipc.Looping? && s.cancelled
    case DropIpc => s.ipc.Looping? && IpcTask in s.aborts
  }

  /** Step `k` of the bring-up: spawn task number `k`. */
  function SpawnTask(s: State, k: nat): State
    requires k < 5
  {
    var t := s.(owner := if k == 4 then Up else Starting(k + 1));
    match k
    case 0 => t.(leaf1 := LEAF_UP)
    case 1 => t.(arti := Bootstrapping)
    case 2 => t.(leaf2 := LEAF_UP)
    case 3 => t.(dns := Looping)
    case _ => t.(ipc := Looping)
  }

  /** A bring-up step fails: if there is a PT, dropping it cancels the token and aborts Leaf #1. */
  function FailBringUp(s: State): State {
    if s.leaf1.Leaf? then s.(owner := Failed, cancelled := true, aborts := s.aborts + {Leaf1})
    else s.(owner := Failed)
  }

  /** `Engine::stop` after its first cancel: PT shutdown and its await, then the other handles in order. */
  function TearDown(s: State, k: nat): State
    requires k < 6
  {
    var t := s.(owner := if k == 5 then Gone else Stopping(k + 1));
    match k
    case 0 => t.(cancelled := true, aborts := s.aborts + {Leaf1})
    case 1 => t
    case 2 => t.(aborts := s.aborts + {ArtiTask})
    case 3 => t.(aborts := s.aborts + {Leaf2})
    case 4 => t.(aborts := s.aborts + {DnsTask})
    case _ => t.(aborts := s.aborts + {IpcTask})
  }

  function Apply(s: State, e: Event): State
    requires Enabled(s, e)
  {
    match e
    case Spawn => SpawnTask(s, s.owner.next)
    case SpawnFails => FailBringUp(s)
    case Stop => s.(owner := Stopping(0), cancelled := true)
    case StopNext => TearDown(s, s.owner.next)
    case ExternalCancel => s.(cancelled := true)
    case LeafDies(k) => SetLeaf(s, k, GetLeaf(s, k).(blocking := Returned))
    case LeafReturns(k) => SetLeaf(s, k, GetLeaf(s, k).(blocking := Returned))
    case ArtiReady => s.(arti := Accepting)
    case ArtiFails | ArtiLeaves => s.(arti := Leaving)
    case Watch(k) => SetLeaf(s, k, GetLeaf(s, k).(watcher := Fired))
    case LeafCancels(k) =>
      var l := GetLeaf(s, k);
      SetLeaf(s.(cancelled := true), k,
              l.(blocking := Ended, watcher := if l.watcher == Waiting then Stopped else l.watcher))
    case Join(k) => SetLeaf(s, k, GetLeaf(s, k).(wrapper := Joined))
    case DropWrapper(k) => SetLeaf(s, k, GetLeaf(s, k).(wrapper := Dropped))
    case ArtiCancels => s.(arti := ArtiExited, cancelled := true)
    case DropArti => s.(arti := ArtiAborted)
    case DnsLeaves => s.(dns := LoopExited)
    case DropDns => s.(dns := LoopAborted)
    case IpcLeaves => s.(ipc := LoopExited)
    case DropIpc => s.(ipc := LoopAborted)
  }

  predicate ValidRun(s: State, events: seq<Event>)
    decreases |events|
  {
    events == [] || (Enabled(s, events[0]) && ValidRun(Apply(s, events[0]), events[1..]))
  }

  function Run(s: State, events: seq<Event>): State
    requires ValidRun(s, events)
    decreases |events|
  {
    if events == [] then s else Run(Apply(s, events[0]), events[1..])
  }

  // ---- Fail together ---------------------------------------------------------

  predicate LeafInv(s: State, l: Leaf) {
    l.Leaf? ==>
      && (l.blocking == Ended ==> s.cancelled && l.watcher != Waiting)
      && (l.watcher == Fired ==> s.cancelled)
      && (l.watcher == Stopped ==> l.blocking == Ended)
      && (l.wrapper == Joined ==> l.blocking == Ended)
      && (l.wrapper == Dropped ==> s.cancelled)
  }

  /** How many tasks the owner has brought up. */
  predicate Spawned(s: State, n: nat) {
    && (s.leaf1.Leaf? <==> n > 0)
    && (!s.arti.NoArti? <==> n > 1)
    && (s.leaf2.Leaf? <==> n > 2)
    && (!s.dns.NoLoop? <==> n > 3)
    && (!s.ipc.NoLoop? <==> n > 4)
  }

  ghost predicate OwnerInv(s: State) {
    match s.owner
    case Starting(k) => k < 5 && Spawned(s, k) && s.aborts == {}
    case Up => Spawned(s, 5) && s.aborts == {}
    case Failed => (exists n: nat | n < 5 :: Spawned(s, n)) && (s.leaf1.Leaf? ==> s.cancelled) && s.aborts <= {Leaf1}
    case Stopping(k) =>
      && k < 6 && Spawned(s, 5) && s.cancelled
      && s.aborts == (if k > 0 then {Leaf1} else {}) + (if k > 2 then {ArtiTask} else {})
                   + (if k > 3 then {Leaf2} else {}) + (if k > 4 then {DnsTask} else {})
    case Gone => Spawned(s, 5) && s.cancelled && s.aborts == {Leaf1, ArtiTask, Leaf2, DnsTask, IpcTask}
  }

  ghost predicate Inv(s: State) {
    && LeafInv(s, s.leaf1) && LeafInv(s, s.leaf2)
    && (s.arti.Over() || s.dns.Over() || s.ipc.Over() || s.aborts != {} ==> s.cancelled)
    && OwnerInv(s)
  }

  predicate OwnerEvent(e: Event) {
    e.Spawn? || e.SpawnFails? || e.Stop? || e.StopNext?
  }

  predicate LeafEvent(e: Event) {
    e.LeafDies? || e.Watch? || e.LeafReturns? || e.LeafCancels? || e.Join? || e.DropWrapper?
  }

  /** Tasks moving about never change what has been brought up. */
  lemma TaskEventKeepsOwner(s: State, e: Event)
    requires OwnerInv(s) && Enabled(s, e) && !OwnerEvent(e)
    ensures OwnerInv(Apply(s, e))
  {
    var t := Apply(s, e);
    assert forall n: nat :: Spawned(s, n) <==> Spawned(t, n);
  }

  lemma OwnerEventKeepsInv(s: State, e: Event)
    requires Inv(s) && Enabled(s, e) && OwnerEvent(e)
    ensures Inv(Apply(s, e))
  {
    if e.SpawnFails? {
      assert Spawned(FailBringUp(s), s.owner.next);
    }
  }

  lemma StepKeepsInv(s: State, e: Event)
    requires Inv(s) && Enabled(s, e)
    ensures Inv(Apply(s, e))
  {
    if OwnerEvent(e) {
      OwnerEventKeepsInv(s, e);
    } else {
      TaskEventKeepsOwner(s, e);
      hide OwnerInv, Spawned;
    }
  }

  lemma {:induction false} RunKeepsInv(s: State, events: seq<Event>)
    requires Inv(s) && ValidRun(s, events)
    ensures Inv(Run(s, events))
    decreases |events|
  {
    hide Inv, Enabled, Apply;
    if events == [] {
    } else {
      StepKeepsInv(s, events[0]);
      RunKeepsInv(Apply(s, events[0]), events[1..]);
    }
  }

  /** The task behind a handle has terminated or was aborted. */
  predicate Over(s: State, n: Name) {
    match n
    case Leaf1 => s.leaf1.Over()
    case ArtiTask => s.arti.Over()
    case Leaf2 => s.leaf2.Over()
    case DnsTask => s.dns.Over()
    case IpcTask => s.ipc.Over()
  }

  predicate Present(s: State, n: Name) {
    match n
    case Leaf1 => s.leaf1.Leaf?
    case ArtiTask => !s.arti.NoArti?
    case Leaf2 => s.leaf2.Leaf?
    case DnsTask => !s.dns.NoLoop?
    case IpcTask => !s.ipc.NoLoop?
  }

  lemma StartInv()
    ensures Inv(START)
  {
  }

  /** No task ends, for whatever reason, without the token being cancelled. */
  lemma FailTogether(events: seq<Event>)
    requires ValidRun(START, events)
    ensures var s := Run(START, events); (exists n :: Over(s, n)) ==> s.cancelled
  {
    hide Run, ValidRun, Enabled, Apply;
    StartInv();
    RunKeepsInv(START, events);
  }

  /**
   * A bring-up is all or nothing: it fails with every task it spawned holding a
   * cancelled token, or succeeds with all five tasks spawned.
   */
  lemma BringUpAllOrNothing(events: seq<Event>)
    requires ValidRun(START, events)
    ensures var s := Run(START, events);
            && (s.owner.Failed? ==> !Present(s, IpcTask) && ((exists n :: Present(s, n)) ==> s.cancelled))
            && (!s.owner.Failed? && !s.owner.Starting? ==> forall n :: Present(s, n))
  {
    hide Run, ValidRun, Enabled, Apply;
    StartInv();
    RunKeepsInv(START, events);
  }

  // ---- Winding down ----------------------------------------------------------

  /** A step that some task takes by itself, without waiting for the outside world or the owner. */
  predicate OwnStep(e: Event) {
    !e.Spawn? && !e.SpawnFails? && !e.Stop? && !e.StopNext?
    && !e.ExternalCancel? && !e.LeafDies? && !e.ArtiReady? && !e.ArtiFails?
  }

  ghost predicate Quiescent(s: State) {
    forall e | OwnStep(e) :: !Enabled(s, e)
  }

  /** Arti is still bootstrapping and nobody has aborted it. */
  predicate Stranded(s: State) {
    s.arti.Bootstrapping? && ArtiTask !in s.aborts
  }

  /** The task whose own step `e` is; Leaf's helper tasks count as Leaf. */
  predicate StepOf(e: Event, n: Name) {
    OwnStep(e) &&
    match n
    case ArtiTask => e.ArtiLeaves? || e.ArtiCancels? || e.DropArti?
    case DnsTask => e.DnsLeaves? || e.DropDns?
    case IpcTask => e.IpcLeaves? || e.DropIpc?
    case _ => LeafEvent(e) && n == LeafName(e.second)
  }

  /** Nothing of the task is left: for a Leaf not only the handle but the blocking thread has ended. */
  predicate Through(s: State, n: Name) {
    && Over(s, n)
    && (n == Leaf1 ==> s.leaf1.blocking == Ended)
    && (n == Leaf2 ==> s.leaf2.blocking == Ended)
  }

  /** The step with which a task that is still there goes on towards its end. */
  function ExitStep(s: State, n: Name): Event {
    match n
    case ArtiTask => if s.arti.Accepting? then ArtiLeaves else if s.arti.Leaving? then ArtiCancels else DropArti
    case DnsTask => DnsLeaves
    case IpcTask => IpcLeaves
    case _ =>
      var k := n == Leaf2;
      var l := GetLeaf(s, k);
      if l.Absent? || l.blocking == Ended then Join(k)
      else if l.blocking == Returned then LeafCancels(k)
      else if l.watcher == Waiting then Watch(k)
      else LeafReturns(k)
  }

  lemma ExitStepEnabled(s: State, n: Name)
    requires Inv(s) && s.cancelled && Present(s, n) && !Through(s, n) && !(n == ArtiTask && Stranded(s))
    ensures StepOf(ExitStep(s, n), n) && Enabled(s, ExitStep(s, n))
  {
    hide OwnerInv;
  }

  /**
   * Once the token is cancelled, each task that is not through has a step of its own towards its end, whatever the
   * others do, with one exception: an Arti that is bootstrapping and not aborted has none.
   */
  lemma EachCanMove(s: State, n: Name)
    requires Inv(s) && s.cancelled && Present(s, n) && !Through(s, n)
    ensures (exists e :: StepOf(e, n) && Enabled(s, e)) <==> !(n == ArtiTask && Stranded(s))
  {
    if !(n == ArtiTask && Stranded(s)) {
      ExitStepEnabled(s, n);
    }
  }

  lemma {:induction false} CancelIsForEver(s: State, events: seq<Event>)
    requires s.cancelled && ValidRun(s, events)
    ensures Run(s, events).cancelled
    decreases |events|
  {
    if events == [] {
    } else {
      assert Apply(s, events[0]).cancelled;
      hide Apply, Enabled;
      CancelIsForEver(Apply(s, events[0]), events[1..]);
    }
  }

  /** So it is in every state from the cancel on. */
  lemma FromTheCancelOn(events: seq<Event>, later: seq<Event>, n: Name)
    requires ValidRun(START, events)
    requires var s := Run(START, events); s.cancelled && ValidRun(s, later)
    ensures var s := Run(Run(START, events), later);
            && s.cancelled
            && (Present(s, n) && !Through(s, n) ==>
                  ((exists e :: StepOf(e, n) && Enabled(s, e)) <==> !(n == ArtiTask && Stranded(s))))
  {
    hide Apply, Enabled, StepOf, Through;
    StartInv();
    RunKeepsInv(START, events);
    var s := Run(START, events);
    RunKeepsInv(s, later);
    CancelIsForEver(s, later);
    if Present(Run(s, later), n) && !Through(Run(s, later), n) {
      EachCanMove(Run(s, later), n);
    }
  }

  /**
   * Hence, once no task can move by itself any more, every task that was brought up is through,
   * except exactly an Arti that is bootstrapping and not aborted.
   */
  lemma QuietMeansOver(events: seq<Event>)
    requires ValidRun(START, events)
    requires var s := Run(START, events); s.cancelled && Quiescent(s)
    ensures var s := Run(START, events);
            forall n | Present(s, n) :: Through(s, n) <==> !(n == ArtiTask && Stranded(s))
  {
    hide Run, ValidRun, Apply, Enabled;
    StartInv();
    RunKeepsInv(START, events);
    var s := Run(START, events);
    forall n | Present(s, n)
      ensures Through(s, n) <==> !(n == ArtiTask && Stranded(s))
    {
      if !Through(s, n) {
        EachCanMove(s, n);
      }
    }
  }

  /**
   * `Engine::stop` aborts every handle, so after it quiet means that everything is over, both Leaf
   * threads included.
   */
  lemma StopEndsEverything(events: seq<Event>)
    requires ValidRun(START, events)
    requires var s := Run(START, events); s.owner.Gone? && Quiescent(s)
    ensures forall n :: Through(Run(START, events), n)
  {
    hide Run, ValidRun, Apply, Enabled, Quiescent;
    StartInv();
    RunKeepsInv(START, events);
    QuietMeansOver(events);
    var s := Run(START, events);
    assert forall n :: Present(s, n);
  }

  /**
   * A failed bring-up has no such guarantee: Arti's handle is dropped, not
   * aborted, and an Arti that is still bootstrapping outlives the failure.
   */
  lemma FailedBringUpStrandsArti() returns (events: seq<Event>)
    ensures ValidRun(START, events)
    ensures var s := Run(START, events);
            s.owner.Failed? && s.cancelled && Quiescent(s) && !Over(s, ArtiTask) && Stranded(s)
  {
    var failed := START.(leaf1 := LEAF_UP, arti := Bootstrapping, owner := Failed, cancelled := true,
                         aborts := {Leaf1});
    var rest := LeafWindsDown(failed);
    var s1 := START.(leaf1 := LEAF_UP, owner := Starting(1));
    var s2 := s1.(arti := Bootstrapping, owner := Starting(2));
    hide Run, ValidRun;
    RunOne(s2, SpawnFails, rest, failed);
    RunOne(s1, Spawn, [SpawnFails] + rest, s2);
    RunOne(START, Spawn, [Spawn] + ([SpawnFails] + rest), s1);
    events := [Spawn] + ([Spawn] + ([SpawnFails] + rest));
  }

  /** Leaf #1 going away after the token was cancelled. */
  lemma LeafWindsDown(s: State) returns (events: seq<Event>)
    requires s.leaf1 == LEAF_UP && s.cancelled
    ensures ValidRun(s, events) && Run(s, events) == s.(leaf1 := Leaf(Ended, Fired, Joined))
  {
    var s1 := s.(leaf1 := Leaf(Running, Fired, Joining));
    var s2 := s.(leaf1 := Leaf(Returned, Fired, Joining));
    var s3 := s.(leaf1 := Leaf(Ended, Fired, Joining));
    var s4 := s.(leaf1 := Leaf(Ended, Fired, Joined));
    assert ValidRun(s4, []) && Run(s4, []) == s4;
    hide Run, ValidRun;
    RunOne(s3, Join(false), [], s4);
    RunOne(s2, LeafCancels(false), [Join(false)] + [], s3);
    RunOne(s1, LeafReturns(false), [LeafCancels(false)] + ([Join(false)] + []), s2);
    RunOne(s, Watch(false), [LeafReturns(false)] + ([LeafCancels(false)] + ([Join(false)] + [])), s1);
    events := [Watch(false)] + ([LeafReturns(false)] + ([LeafCancels(false)] + ([Join(false)] + [])));
  }

  lemma RunOne(s: State, e: Event, rest: seq<Event>, t: State)
    requires Enabled(s, e) && Apply(s, e) == t
    ensures ValidRun(s, [e] + rest) <==> ValidRun(t, rest)
    ensures ValidRun(t, rest) ==> Run(s, [e] + rest) == Run(t, rest)
  {
    hide Enabled, Apply;
    assert ([e] + rest)[1..] == rest;
  }

  // ---- Every run settles -----------------------------------------------------

  function LeafWork(l: Leaf): nat {
    if l.Absent? then 0
    else
      (match l.blocking case Running => 2 case Returned => 1 case Ended => 0)
      + (if l.watcher == Waiting then 1 else 0) + (if l.wrapper == Joining then 1 else 0)
  }

  function ArtiWork(a: Arti): nat {
    match a
    case NoArti => 0
    case Bootstrapping => 3
    case Accepting => 2
    case Leaving => 1
    case ArtiExited => 0
    case ArtiAborted => 0
  }

  function OwnerWork(o: Owner): nat {
    match o
    case Starting(k) => if k < 5 then 8 + 5 * (5 - k) else 8
    case Up => 8
    case Failed => 0
    case Stopping(k) => if k < 7 then 7 - k else 0
    case Gone => 0
  }

  /** How much can still happen to an engine. */
  function Work(s: State): nat {
    OwnerWork(s.owner) + LeafWork(s.leaf1) + LeafWork(s.leaf2) + ArtiWork(s.arti)
    + (if s.dns.Looping? then 1 else 0) + (if s.ipc.Looping? then 1 else 0)
  }

  lemma WorkShrinks(s: State, e: Event)
    requires Inv(s) && Enabled(s, e)
    ensures if e.ExternalCancel? then Work(Apply(s, e)) == Work(s) else Work(Apply(s, e)) < Work(s)
  {
    if LeafEvent(e) {
      LeafWorkShrinks(s, e);
    }
  }

  lemma LeafWorkShrinks(s: State, e: Event)
    requires Enabled(s, e) && LeafEvent(e)
    ensures Work(Apply(s, e)) < Work(s)
  {
  }

  /** The events of a run that are not repeated external cancels. */
  function Moves(events: seq<Event>): nat {
    if events == [] then 0 else (if events[0].ExternalCancel? then 0 else 1) + Moves(events[1..])
  }

  lemma {:induction false} WorkBounds(s: State, events: seq<Event>)
    requires Inv(s) && ValidRun(s, events)
    ensures Moves(events) + Work(Run(s, events)) <= Work(s)
    decreases |events|
  {
    hide Inv, Enabled, Apply, Work;
    if events == [] {
    } else {
      StepKeepsInv(s, events[0]);
      WorkShrinks(s, events[0]);
      WorkBounds(Apply(s, events[0]), events[1..]);
    }
  }

  /** No engine goes on for ever: start, failures, teardown and all tasks make at most 33 moves. */
  lemma EveryRunSettles(events: seq<Event>)
    requires ValidRun(START, events)
    ensures Moves(events) <= 33
  {
    hide Run, ValidRun, Enabled, Apply;
    StartInv();
    WorkBounds(START, events);
  }

  // ---- A whole life ------------------------------------------------------------

  lemma RunNothing(s: State)
    ensures ValidRun(s, []) && Run(s, []) == s
  {
  }

  /** Five spawns and a bootstrap bring everything up, with nothing cancelled and nothing aborted. */
  lemma ComesUp() returns (events: seq<Event>)
    ensures events == [Spawn, Spawn, Spawn, Spawn, Spawn, ArtiReady] && ValidRun(START, events)
    ensures Run(START, events) == State(false, LEAF_UP, Accepting, LEAF_UP, Looping, Looping, Up, {})
  {
    var s1 := START.(leaf1 := LEAF_UP, owner := Starting(1));
    var s2 := s1.(arti := Bootstrapping, owner := Starting(2));
    var s3 := s2.(leaf2 := LEAF_UP, owner := Starting(3));
    var s4 := s3.(dns := Looping, owner := Starting(4));
    var s5 := s4.(ipc := Looping, owner := Up);
    var s6 := s5.(arti := Accepting);
    hide Run, ValidRun;
    RunNothing(s6);
    var rest := [ArtiReady] + [];
    RunOne(s5, ArtiReady, [], s6);
    RunOne(s4, Spawn, rest, s5);
    RunOne(s3, Spawn, [Spawn] + rest, s4);
    RunOne(s2, Spawn, [Spawn] + ([Spawn] + rest), s3);
    RunOne(s1, Spawn, [Spawn] + ([Spawn] + ([Spawn] + rest)), s2);
    RunOne(START, Spawn, [Spawn] + ([Spawn] + ([Spawn] + ([Spawn] + rest))), s1);
    events := [Spawn] + ([Spawn] + ([Spawn] + ([Spawn] + ([Spawn] + rest))));
  }

  /** What cancels the token by itself. */
  predicate Cancels(e: Event) {
    e.ExternalCancel? || e.Stop? || e.LeafCancels? || e.ArtiCancels?
  }

  lemma CancelStep(s: State, e: Event)
    requires Inv(s) && Enabled(s, e)
    ensures Apply(s, e).cancelled <==> s.cancelled || Cancels(e) || (e.SpawnFails? && s.leaf1.Leaf?)
    ensures Apply(s, e).leaf1.Leaf? <==> s.leaf1.Leaf? || (e.Spawn? && s.owner == Starting(0))
    ensures e.Spawn? ==> Apply(s, e).leaf1.Leaf?
  {
  }

  /**
   * The token is cancelled exactly if the history has a reason: an outside cancel, a stop, a Leaf or Arti that ended,
   * or a bring-up that failed after its first spawn.
   */
  lemma {:induction false} CancelledIff(s: State, events: seq<Event>)
    requires Inv(s) && ValidRun(s, events)
    ensures Run(s, events).cancelled
       <==> s.cancelled || (exists e :: e in events && Cancels(e))
            || (SpawnFails in events && (s.leaf1.Leaf? || Spawn in events))
    decreases |events|
  {
    if events == [] {
    } else {
      var e, tail := events[0], events[1..];
      CancelStep(s, e);
      StepKeepsInv(s, e);
      var t := Apply(s, e);
      assert events == [e] + tail;
      if e.SpawnFails? {
        NoSpawnAfterFailure(t, tail);
      }
      hide Inv, Enabled, Apply;
      CancelledIff(t, tail);
      assert Cancels(e) ==> e in events;
    }
  }

  lemma {:induction false} NoSpawnAfterFailure(s: State, events: seq<Event>)
    requires Inv(s) && s.owner.Failed? && ValidRun(s, events)
    ensures Spawn !in events && SpawnFails !in events
    decreases |events|
  {
    if events == [] {
    } else {
      StepKeepsInv(s, events[0]);
      assert Apply(s, events[0]).owner.Failed?;
      NoSpawnAfterFailure(Apply(s, events[0]), events[1..]);
      assert events == [events[0]] + events[1..];
    }
  }

  predicate TornDown(s: State) {
    s.owner.Stopping? || s.owner.Gone?
  }

  lemma {:induction false} StopIsRemembered(s: State, events: seq<Event>)
    requires ValidRun(s, events)
    ensures TornDown(Run(s, events)) <==> TornDown(s) || Stop in events
    decreases |events|
  {
    if events == [] {
    } else {
      assert TornDown(Apply(s, events[0])) <==> TornDown(s) || events[0] == Stop;
      hide Enabled, Apply, TornDown;
      StopIsRemembered(Apply(s, events[0]), events[1..]);
      assert events == [events[0]] + events[1..];
    }
  }

  /**
   * A stop always comes to its end: when neither it nor any task can move, all handles are aborted
   * and all is through.
   */
  lemma StopCompletes(events: seq<Event>)
    requires ValidRun(START, events) && Stop in events
    requires var s := Run(START, events); Quiescent(s) && !Enabled(s, StopNext)
    ensures Run(START, events).owner.Gone? && forall n :: Through(Run(START, events), n)
  {
    StartInv();
    RunKeepsInv(START, events);
    StopIsRemembered(START, events);
    var s := Run(START, events);
    hide Run, ValidRun, Apply;
    assert OwnStep(DropWrapper(false)) && !Enabled(s, DropWrapper(false));
    StopEndsEverything(events);
  }

  lemma RunCons(s: State, e: Event, rest: seq<Event>)
    requires Enabled(s, e)
    ensures ValidRun(s, [e] + rest) <==> ValidRun(Apply(s, e), rest)
    ensures ValidRun(Apply(s, e), rest) ==> Run(s, [e] + rest) == Run(Apply(s, e), rest)
  {
    RunOne(s, e, rest, Apply(s, e));
  }

  /** Every engine that is up can be stopped, and every stop under way can be carried to its end. */
  lemma {:induction false} CanStop(s: State) returns (events: seq<Event>)
    requires Inv(s) && (s.owner.Up? || s.owner.Stopping? || s.owner.Gone?)
    ensures ValidRun(s, events) && Run(s, events).owner.Gone?
    decreases OwnerWork(s.owner), if s.leaf1.Over() then 0 else 1
  {
    if s.owner.Gone? {
      events := [];
      RunNothing(s);
    } else {
      var e := if s.owner.Up? then Stop
               else if s.owner.next == 1 && !s.leaf1.Over() then DropWrapper(false)
               else StopNext;
      StepKeepsInv(s, e);
      hide Inv, Run, ValidRun;
      var rest := CanStop(Apply(s, e));
      RunCons(s, e, rest);
      events := [e] + rest;
    }
  }

  /** The teardown goes past the transport only when its handle is over. */
  lemma {:induction false} StopWaitsForTransport(s: State, events: seq<Event>)
    requires ValidRun(s, events) && (s.owner.Stopping? && s.owner.next > 1 ==> s.leaf1.Over())
    ensures var t := Run(s, events); t.owner.Stopping? && t.owner.next > 1 ==> t.leaf1.Over()
    decreases |events|
  {
    if events == [] {
    } else {
      OverStays(s, events[0]);
      hide Enabled, Apply;
      StopWaitsForTransport(Apply(s, events[0]), events[1..]);
    }
  }

  lemma OverStays(s: State, e: Event)
    requires Enabled(s, e) && (s.owner.Stopping? && s.owner.next > 1 ==> s.leaf1.Over())
    ensures var t := Apply(s, e); t.owner.Stopping? && t.owner.next > 1 ==> t.leaf1.Over()
  {
  }

  /** A Leaf that dies takes the others with it: two steps and the token is cancelled. */
  lemma LeafDeathSpreads(s: State, second: bool)
    requires Inv(s) && GetLeaf(s, second).Leaf? && GetLeaf(s, second).blocking == Running
    ensures ValidRun(s, [LeafDies(second), LeafCancels(second)])
    ensures Run(s, [LeafDies(second), LeafCancels(second)]).cancelled
  {
    var t := Apply(s, LeafDies(second));
    hide Run, ValidRun;
    RunNothing(Apply(t, LeafCancels(second)));
    RunCons(t, LeafCancels(second), []);
    RunCons(s, LeafDies(second), [LeafCancels(second)] + []);
    assert [LeafDies(second)] + ([LeafCancels(second)] + []) == [LeafDies(second), LeafCancels(second)];
  }

  /** So does an Arti that cannot bootstrap. */
  lemma ArtiFailureSpreads(s: State)
    requires Inv(s) && s.arti.Bootstrapping?
    ensures ValidRun(s, [ArtiFails, ArtiCancels])
    ensures Run(s, [ArtiFails, ArtiCancels]).cancelled && Run(s, [ArtiFails, ArtiCancels]).arti.Over()
  {
    var t := Apply(s, ArtiFails);
    hide Run, ValidRun;
    RunNothing(Apply(t, ArtiCancels));
    RunCons(t, ArtiCancels, []);
    RunCons(s, ArtiFails, [ArtiCancels] + []);
    assert [ArtiFails] + ([ArtiCancels] + []) == [ArtiFails, ArtiCancels];
  }

  /** The end that an abort brings about. */
  function Drop(n: Name): Event {
    match n
    case Leaf1 => DropWrapper(false)
    case Leaf2 => DropWrapper(true)
    case ArtiTask => DropArti
    case DnsTask => DropDns
    case IpcTask => DropIpc
  }

  /** An aborted task can end in one step, whatever it was doing, unless it is over or already on its last step. */
  lemma AbortIsEnough(s: State, n: Name)
    requires n in s.aborts && Present(s, n) && !Over(s, n) && !(n == ArtiTask && s.arti.Leaving?)
    ensures Enabled(s, Drop(n)) && Over(Apply(s, Drop(n)), n) && OwnStep(Drop(n))
  {
  }
}
