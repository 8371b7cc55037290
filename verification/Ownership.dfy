/**
 * Who has to close the TUN descriptor. Any number of start attempts on any
 * number of threads pass their descriptor from the platform through the shim's
 * guard and the core's guard to Leaf #2, in a process where unrelated code opens
 * and closes descriptors and closed numbers are reused.
 *
 * Assumed: Leaf closes the descriptor only after the start that launched it
 * reported success, and unrelated code closes only what it opened.
 */
module Ownership {
  import opened Util
  import opened Descriptors

  type Thread = nat

  /** Where a thread's start attempt stands, with the descriptor it is responsible for. */
  datatype Attempt =
    | Idle
    | AtPlatform(d: Desc)  // detached from its wrapper, native code not entered
    | InShim(d: Desc)      // guarded by the FFI or JNI entry point
    | Crossing(d: Desc)    // that guard disarmed, the core not entered yet
    | InCore(d: Desc)      // guarded by `start`
  {
    function Carried(): Option<Desc> {
      if Idle? || d.fd < 0 then None else Some(d)
    }
  }

  datatype State = State(
    table: FdTable,
    threads: map<Thread, Attempt>,
    leaf: set<Desc>,             // owned by the Leaf #2 of a launched engine
    outside: set<Desc>,          // owned by unrelated code
    lost: set<Desc>,             // nobody's any more, but still open
    handedIn: set<nat>,          // files the platform detached for a start attempt
    verdicts: map<nat, bool>)    // handed-in file -> whether its attempt reported success

  const START := State(FdTable(map[], 0, []), map[], {}, {}, {}, {}, map[])

  datatype Step =
    | Establish(fd: int)  // the platform detaches a descriptor, or passes a negative number
    | PlatformThrows      // before native code is called
    | MarshalThrows       // after the flag says native code was called, but before it is
    | EnterShim
    | ShimFails
    | HandOver
    | EnterCore
    | CoreFails           // already running, or the bring-up failed
    | Launch
    | LeafCloses(d: Desc)
    | OutsideOpens(fd: int)
    | OutsideCloses(d: Desc)

  function At(s: State, t: Thread): Attempt {
    if t in s.threads then s.threads[t] else Idle
  }

  predicate Enabled(s: State, t: Thread, e: Step) {
    var c := At(s, t);
    match e
    case Establish(fd) => c.Idle? && fd !in s.table.open
    case PlatformThrows | MarshalThrows | EnterShim => c.AtPlatform?
    case ShimFails | HandOver => c.InShim?
    case EnterCore => c.Crossing?
    case CoreFails | Launch => c.InCore?
    case LeafCloses(d) => d in s.leaf
    case OutsideOpens(fd) => fd >= 0 && fd !in s.table.open
    case OutsideCloses(d) => d in s.outside
  }

  /** The end of an attempt that closes its descriptor; a negative number is not one. */
  function GiveUp(s: State, t: Thread, d: Desc, closer: Closer): State {
    var s1 := s.(threads := s.threads[t := Idle]);
    if d.fd < 0 then s1 else s1.(table := s.table.Close(d.fd, closer), verdicts := s.verdicts[d.file := false])
  }

  function Apply(s: State, t: Thread, e: Step): State
    requires Enabled(s, t, e)
  {
    var c := At(s, t);
    match e
    case Establish(fd) =>
      var d := Desc(fd, s.table.next);
      var s1 := s.(threads := s.threads[t := AtPlatform(d)]);
      if fd < 0 then s1 else s1.(table := s.table.Open(fd), handedIn := s.handedIn + {d.file})
    case PlatformThrows => GiveUp(s, t, c.d, Kotlin)
    case MarshalThrows =>
      var s1 := s.(threads := s.threads[t := Idle]);
      if c.d.fd < 0 then s1 else s1.(lost := s.lost + {c.d}, verdicts := s.verdicts[c.d.file := false])
    case EnterShim => s.(threads := s.threads[t := InShim(c.d)])
    case ShimFails => GiveUp(s, t, c.d, ShimGuard)
    case HandOver => s.(threads := s.threads[t := Crossing(c.d)])
    case EnterCore => s.(threads := s.threads[t := InCore(c.d)])
    case CoreFails => GiveUp(s, t, c.d, CoreGuard)
    case Launch =>
      var s1 := s.(threads := s.threads[t := Idle]);
      if c.d.fd < 0 then s1 else s1.(leaf := s.leaf + {c.d}, verdicts := s.verdicts[c.d.file := true])
    case LeafCloses(d) => s.(table := s.table.Close(d.fd, LeafEngine), leaf := s.leaf - {d})
    case OutsideOpens(fd) => s.(table := s.table.Open(fd), outside := s.outside + {Desc(fd, s.table.next)})
    case OutsideCloses(d) => s.(table := s.table.Close(d.fd, Outsider), outside := s.outside - {d})
  }

  datatype Event = Event(thread: Thread, step: Step)

  predicate ValidRun(s: State, events: seq<Event>)
    decreases |events|
  {
    events == [] ||
    (Enabled(s, events[0].thread, events[0].step)
     && ValidRun(Apply(s, events[0].thread, events[0].step), events[1..]))
  }

  function Run(s: State, events: seq<Event>): State
    requires ValidRun(s, events)
    decreases |events|
  {
    if events == [] then s else Run(Apply(s, events[0].thread, events[0].step), events[1..])
  }

  // ---- Owners ----------------------------------------------------------------

  datatype Party = ThreadParty(t: Thread) | LeafParty | OutsideParty | NobodyParty

  /** The party responsible for closing `d`. */
  predicate Owns(s: State, p: Party, d: Desc) {
    match p
    case ThreadParty(t) => At(s, t).Carried() == Some(d)
    case LeafParty => d in s.leaf
    case OutsideParty => d in s.outside
    case NobodyParty => d in s.lost
  }

  ghost predicate OwnInv(s: State) {
    && s.table.Valid()
    && (forall p, d | Owns(s, p, d) :: s.table.Holds(d))
    && (forall p, q, d | Owns(s, p, d) && Owns(s, q, d) :: p == q)
    && (forall fd | fd in s.table.open :: exists p :: Owns(s, p, Desc(fd, s.table.open[fd])))
  }

  /** One descriptor changes hands, or none does. */
  lemma MovedKeepsOwnInv(s: State, s': State, from: Party, to: Party, d: Desc)
    requires OwnInv(s) && s'.table == s.table && Owns(s, from, d)
    requires forall p, x :: Owns(s', p, x) <==> if x == d then p == to else Owns(s, p, x)
    ensures OwnInv(s')
  {
    forall fd | fd in s'.table.open
      ensures exists p :: Owns(s', p, Desc(fd, s'.table.open[fd]))
    {
      var x := Desc(fd, s.table.open[fd]);
      var p :| Owns(s, p, x);
      assert if x == d then Owns(s', to, x) else Owns(s', p, x);
    }
  }

  /** A fresh descriptor appears with one owner. */
  lemma OpenedKeepsOwnInv(s: State, s': State, to: Party, fd: int)
    requires OwnInv(s) && fd >= 0 && fd !in s.table.open && s'.table == s.table.Open(fd)
    requires var d := Desc(fd, s.table.next);
             forall p, x :: Owns(s', p, x) <==> if x == d then p == to else Owns(s, p, x)
    ensures OwnInv(s')
  {
    var d := Desc(fd, s.table.next);
    forall g | g in s'.table.open
      ensures exists p :: Owns(s', p, Desc(g, s'.table.open[g]))
    {
      var x := Desc(g, s'.table.open[g]);
      if x == d {
        assert Owns(s', to, x);
      } else {
        var p :| Owns(s, p, x);
        assert Owns(s', p, x);
      }
    }
  }

  /** A descriptor is closed by its owner. */
  lemma ClosedKeepsOwnInv(s: State, s': State, d: Desc, closer: Closer)
    requires OwnInv(s) && s.table.Holds(d) && s'.table == s.table.Close(d.fd, closer)
    requires forall p, x :: Owns(s', p, x) <==> x != d && Owns(s, p, x)
    ensures OwnInv(s')
    ensures s'.table.closed == s.table.closed + [Closed(d.file, closer)]
  {
    forall p, x | Owns(s', p, x)
      ensures s'.table.Holds(x)
    {
      assert Owns(s, p, x);
      assert s.table.Holds(x);
    }
    forall g | g in s'.table.open
      ensures exists p :: Owns(s', p, Desc(g, s'.table.open[g]))
    {
      var x := Desc(g, s.table.open[g]);
      var p :| Owns(s, p, x);
      assert Owns(s', p, x);
    }
  }

  lemma OnlyOwner(s: State, p: Party, d: Desc)
    requires OwnInv(s) && Owns(s, p, d)
    ensures s.table.Holds(d) && d.fd >= 0
    ensures forall q | Owns(s, q, d) :: q == p
  {
  }

  lemma NothingFresh(s: State)
    requires OwnInv(s)
    ensures forall p, x | Owns(s, p, x) :: x.file != s.table.next
  {
    forall p, x | Owns(s, p, x)
      ensures x.file != s.table.next
    {
      assert s.table.Holds(x);
    }
  }

  lemma SameKeepsOwnInv(s: State, s': State)
    requires OwnInv(s) && s'.table == s.table
    requires forall p, x :: Owns(s', p, x) <==> Owns(s, p, x)
    ensures OwnInv(s')
  {
    forall fd | fd in s'.table.open
      ensures exists p :: Owns(s', p, Desc(fd, s'.table.open[fd]))
    {
      var p :| Owns(s, p, Desc(fd, s.table.open[fd]));
      assert Owns(s', p, Desc(fd, s.table.open[fd]));
    }
  }

  /** A thread goes on to `c`; nobody else is concerned. */
  lemma Retasked(s: State, t: Thread, c: Attempt, p: Party, x: Desc)
    ensures Owns(s.(threads := s.threads[t := c]), p, x)
       <==> if p == ThreadParty(t) then c.Carried() == Some(x) else Owns(s, p, x)
  {
  }

  lemma ProceedingKeepsOwnInv(s: State, t: Thread, c: Attempt)
    requires OwnInv(s) && c.Carried() == At(s, t).Carried()
    ensures OwnInv(s.(threads := s.threads[t := c]))
  {
    hide OwnInv;
    var s' := s.(threads := s.threads[t := c]);
    forall p, x
      ensures Owns(s', p, x) <==> Owns(s, p, x)
    {
      Retasked(s, t, c, p, x);
    }
    SameKeepsOwnInv(s, s');
  }

  /** The thread's attempt ends and its descriptor goes to `to`, or the attempt never had one. */
  lemma PassingOnKeepsOwnInv(s: State, t: Thread, s': State, to: Party)
    requires OwnInv(s) && s'.table == s.table && s'.threads == s.threads[t := Idle] && s'.outside == s.outside
    requires At(s, t).Carried().Some?
    requires var d := At(s, t).d;
             || (to == LeafParty && s'.leaf == s.leaf + {d} && s'.lost == s.lost)
             || (to == NobodyParty && s'.lost == s.lost + {d} && s'.leaf == s.leaf)
    ensures OwnInv(s')
  {
    var d := At(s, t).d;
    assert Owns(s, ThreadParty(t), d);
    OnlyOwner(s, ThreadParty(t), d);
    hide OwnInv;
    forall p, x
      ensures Owns(s', p, x) <==> if x == d then p == to else Owns(s, p, x)
    {
      Retasked(s, t, Idle, p, x);
    }
    MovedKeepsOwnInv(s, s', ThreadParty(t), to, d);
  }

  lemma GivingUpKeepsOwnInv(s: State, t: Thread, d: Desc, closer: Closer)
    requires OwnInv(s) && !At(s, t).Idle? && At(s, t).d == d
    ensures OwnInv(GiveUp(s, t, d, closer))
    ensures d.fd >= 0 ==> GiveUp(s, t, d, closer).table.closed == s.table.closed + [Closed(d.file, closer)]
  {
    var s' := GiveUp(s, t, d, closer);
    if d.fd < 0 {
      ProceedingKeepsOwnInv(s, t, Idle);
    } else {
      assert Owns(s, ThreadParty(t), d);
      OnlyOwner(s, ThreadParty(t), d);
      hide OwnInv;
      forall p, x
        ensures Owns(s', p, x) <==> x != d && Owns(s, p, x)
      {
        Retasked(s, t, Idle, p, x);
      }
      ClosedKeepsOwnInv(s, s', d, closer);
    }
  }

  lemma EstablishingKeepsOwnInv(s: State, t: Thread, fd: int)
    requires OwnInv(s) && Enabled(s, t, Establish(fd))
    ensures OwnInv(Apply(s, t, Establish(fd)))
  {
    var s' := Apply(s, t, Establish(fd));
    var d := Desc(fd, s.table.next);
    if fd < 0 {
      ProceedingKeepsOwnInv(s, t, AtPlatform(d));
    } else {
      NothingFresh(s);
      hide OwnInv;
      forall p, x
        ensures Owns(s', p, x) <==> if x == d then p == ThreadParty(t) else Owns(s, p, x)
      {
        Retasked(s, t, AtPlatform(d), p, x);
      }
      OpenedKeepsOwnInv(s, s', ThreadParty(t), fd);
    }
  }

  /** The other parties gain or lose descriptors; no thread is concerned. */
  lemma Regrouped(s: State, s': State, p: Party, x: Desc)
    requires s'.threads == s.threads && s'.lost == s.lost
    ensures Owns(s', p, x)
       <==> if p == LeafParty then x in s'.leaf else if p == OutsideParty then x in s'.outside else Owns(s, p, x)
  {
    assert p.ThreadParty? ==> At(s', p.t) == At(s, p.t);
  }

  lemma OthersKeepOwnInv(s: State, t: Thread, e: Step)
    requires OwnInv(s) && Enabled(s, t, e) && (e.LeafCloses? || e.OutsideOpens? || e.OutsideCloses?)
    ensures OwnInv(Apply(s, t, e))
    ensures e.LeafCloses? ==> Apply(s, t, e).table.closed == s.table.closed + [Closed(e.d.file, LeafEngine)]
    ensures e.OutsideCloses? ==> Apply(s, t, e).table.closed == s.table.closed + [Closed(e.d.file, Outsider)]
  {
    var s' := Apply(s, t, e);
    if e.OutsideOpens? {
      NothingFresh(s);
      hide OwnInv;
      forall p, x
        ensures Owns(s', p, x) <==> if x == Desc(e.fd, s.table.next) then p == OutsideParty else Owns(s, p, x)
      {
        Regrouped(s, s', p, x);
        assert Owns(s, p, x) ==> x.file != s.table.next;
      }
      OpenedKeepsOwnInv(s, s', OutsideParty, e.fd);
    } else {
      var owner := if e.LeafCloses? then LeafParty else OutsideParty;
      assert Owns(s, owner, e.d);
      OnlyOwner(s, owner, e.d);
      hide OwnInv;
      forall p, x
        ensures Owns(s', p, x) <==> x != e.d && Owns(s, p, x)
      {
        Regrouped(s, s', p, x);
        assert Owns(s, p, e.d) ==> p == owner;
      }
      ClosedKeepsOwnInv(s, s', e.d, if e.LeafCloses? then LeafEngine else Outsider);
    }
  }

  lemma StepKeepsOwnInv(s: State, t: Thread, e: Step)
    requires OwnInv(s) && Enabled(s, t, e)
    ensures OwnInv(Apply(s, t, e))
  {
    hide OwnInv;
    var c := At(s, t);
    match e
    case Establish(fd) => EstablishingKeepsOwnInv(s, t, fd);
    case PlatformThrows => GivingUpKeepsOwnInv(s, t, c.d, Kotlin);
    case ShimFails => GivingUpKeepsOwnInv(s, t, c.d, ShimGuard);
    case CoreFails => GivingUpKeepsOwnInv(s, t, c.d, CoreGuard);
    case MarshalThrows =>
      if c.d.fd < 0 {
        ProceedingKeepsOwnInv(s, t, Idle);
      } else {
        PassingOnKeepsOwnInv(s, t, Apply(s, t, e), NobodyParty);
      }
    case Launch =>
      if c.d.fd < 0 {
        ProceedingKeepsOwnInv(s, t, Idle);
      } else {
        PassingOnKeepsOwnInv(s, t, Apply(s, t, e), LeafParty);
      }
    case EnterShim => ProceedingKeepsOwnInv(s, t, InShim(c.d));
    case HandOver => ProceedingKeepsOwnInv(s, t, Crossing(c.d));
    case EnterCore => ProceedingKeepsOwnInv(s, t, InCore(c.d));
    case LeafCloses(_) => OthersKeepOwnInv(s, t, e);
    case OutsideOpens(_) => OthersKeepOwnInv(s, t, e);
    case OutsideCloses(_) => OthersKeepOwnInv(s, t, e);
  }

  // ---- Fates -----------------------------------------------------------------

  const GUARDS: set<Closer> := {Kotlin, ShimGuard, CoreGuard}

  /** Each closer closes only what was its to close. */
  predicate Rightful(s: State, c: Closed) {
    match c.closer
    case Outsider => c.file !in s.handedIn
    case LeafEngine => c.file in s.verdicts && s.verdicts[c.file]
    case _ => c.file in s.verdicts && !s.verdicts[c.file]
  }

  ghost predicate FateInv(s: State) {
    && s.table.Accounted()
    && s.verdicts.Keys <= s.handedIn
    && (forall f | f in s.handedIn :: f < s.table.next)
    && (forall t: Thread | At(s, t).Carried().Some? :: At(s, t).d.file in s.handedIn && At(s, t).d.file !in s.verdicts)
    && (forall d | d in s.leaf :: d.file in s.verdicts && s.verdicts[d.file])
    && (forall d | d in s.lost :: d.file in s.verdicts && !s.verdicts[d.file])
    && (forall d | d in s.outside :: d.file !in s.handedIn && d.file < s.table.next)
    && (forall i | 0 <= i < |s.table.closed| :: Rightful(s, s.table.closed[i]))
  }

  /** The attempt of thread `t`, which carries a real descriptor, is judged; nobody else's fate is affected. */
  lemma JudgingKeepsFates(s: State, t: Thread, s': State, verdict: bool)
    requires OwnInv(s) && FateInv(s) && At(s, t).Carried().Some?
    requires var d := At(s, t).d;
             && s'.threads == s.threads[t := Idle] && s'.outside == s.outside && s'.handedIn == s.handedIn
             && s'.verdicts == s.verdicts[d.file := verdict] && s'.table.next == s.table.next
             && s'.leaf <= s.leaf + (if verdict then {d} else {}) && s'.lost <= s.lost + (if verdict then {} else {d})
             && (s'.table.closed == s.table.closed
                 || (!verdict && exists c | c in GUARDS :: s'.table.closed == s.table.closed + [Closed(d.file, c)]))
    requires s'.table.Accounted()
    ensures FateInv(s')
  {
    var d := At(s, t).d;
    forall u: Thread | At(s', u).Carried().Some?
      ensures At(s', u).d.file in s'.handedIn && At(s', u).d.file !in s'.verdicts
    {
      assert At(s', u) == At(s, u) && u != t;
      assert Owns(s, ThreadParty(u), At(s, u).d) && Owns(s, ThreadParty(t), d);
      assert s.table.Holds(At(s, u).d) && s.table.Holds(d);
    }
    forall i | 0 <= i < |s'.table.closed|
      ensures Rightful(s', s'.table.closed[i])
    {
      if i < |s.table.closed| {
        assert s'.table.closed[i] == s.table.closed[i] && Rightful(s, s.table.closed[i]);
      }
    }
  }

  lemma ProceedingKeepsFates(s: State, t: Thread, c: Attempt)
    requires FateInv(s) && c.Carried() == At(s, t).Carried()
    ensures FateInv(s.(threads := s.threads[t := c]))
  {
    var s' := s.(threads := s.threads[t := c]);
    forall u: Thread | At(s', u).Carried().Some?
      ensures At(s', u).d.file in s'.handedIn && At(s', u).d.file !in s'.verdicts
    {
      assert At(s, u).Carried() == At(s', u).Carried();
      assert At(s, u).Carried().Some?;
    }
  }

  lemma GivingUpKeepsFates(s: State, t: Thread, d: Desc, closer: Closer)
    requires OwnInv(s) && FateInv(s) && !At(s, t).Idle? && At(s, t).d == d && closer in GUARDS
    ensures FateInv(GiveUp(s, t, d, closer))
  {
    if d.fd < 0 {
      ProceedingKeepsFates(s, t, Idle);
    } else {
      GivingUpKeepsOwnInv(s, t, d, closer);
      CloseKeepsAccounted(s.table, d.fd, closer);
      JudgingKeepsFates(s, t, GiveUp(s, t, d, closer), false);
    }
  }

  lemma EstablishingKeepsFates(s: State, t: Thread, fd: int)
    requires OwnInv(s) && FateInv(s) && Enabled(s, t, Establish(fd))
    ensures FateInv(Apply(s, t, Establish(fd)))
  {
    var s' := Apply(s, t, Establish(fd));
    if fd < 0 {
      ProceedingKeepsFates(s, t, AtPlatform(Desc(fd, s.table.next)));
    } else {
      OpenKeepsAccounted(s.table, fd);
      forall u: Thread | At(s', u).Carried().Some?
        ensures At(s', u).d.file in s'.handedIn && At(s', u).d.file !in s'.verdicts
      {
        assert u != t ==> At(s', u) == At(s, u);
      }
      forall i | 0 <= i < |s'.table.closed|
        ensures Rightful(s', s'.table.closed[i])
      {
        assert Rightful(s, s.table.closed[i]);
      }
    }
  }

  lemma OthersKeepFates(s: State, t: Thread, e: Step)
    requires OwnInv(s) && FateInv(s) && Enabled(s, t, e) && (e.LeafCloses? || e.OutsideOpens? || e.OutsideCloses?)
    ensures FateInv(Apply(s, t, e))
  {
    var s' := Apply(s, t, e);
    OthersKeepOwnInv(s, t, e);
    if e.OutsideOpens? {
      OpenKeepsAccounted(s.table, e.fd);
    } else {
      CloseKeepsAccounted(s.table, e.d.fd, if e.LeafCloses? then LeafEngine else Outsider);
    }
    forall u: Thread | At(s', u).Carried().Some?
      ensures At(s', u).d.file in s'.handedIn && At(s', u).d.file !in s'.verdicts
    {
      assert At(s', u) == At(s, u);
    }
    forall i | 0 <= i < |s'.table.closed|
      ensures Rightful(s', s'.table.closed[i])
    {
      if i < |s.table.closed| {
        assert s'.table.closed[i] == s.table.closed[i] && Rightful(s, s.table.closed[i]);
      }
    }
  }

  lemma StepKeepsFates(s: State, t: Thread, e: Step)
    requires OwnInv(s) && FateInv(s) && Enabled(s, t, e)
    ensures FateInv(Apply(s, t, e))
  {
    var c := At(s, t);
    if e.MarshalThrows? || e.Launch? {
      if c.d.fd < 0 {
        ProceedingKeepsFates(s, t, Idle);
      } else {
        assert s.table.Accounted();
        JudgingKeepsFates(s, t, Apply(s, t, e), e.Launch?);
      }
      return;
    }
    hide OwnInv, FateInv;
    match e
    case Establish(fd) => EstablishingKeepsFates(s, t, fd);
    case PlatformThrows => GivingUpKeepsFates(s, t, c.d, Kotlin);
    case ShimFails => GivingUpKeepsFates(s, t, c.d, ShimGuard);
    case CoreFails => GivingUpKeepsFates(s, t, c.d, CoreGuard);
    case EnterShim => ProceedingKeepsFates(s, t, InShim(c.d));
    case HandOver => ProceedingKeepsFates(s, t, Crossing(c.d));
    case EnterCore => ProceedingKeepsFates(s, t, InCore(c.d));
    case LeafCloses(_) => OthersKeepFates(s, t, e);
    case OutsideOpens(_) => OthersKeepFates(s, t, e);
    case OutsideCloses(_) => OthersKeepFates(s, t, e);
  }

  lemma {:induction false} RunKeepsInv(s: State, events: seq<Event>)
    requires OwnInv(s) && FateInv(s) && ValidRun(s, events)
    ensures OwnInv(Run(s, events)) && FateInv(Run(s, events))
    decreases |events|
  {
    hide OwnInv, FateInv;
    if events == [] {
    } else {
      var t, e := events[0].thread, events[0].step;
      StepKeepsOwnInv(s, t, e);
      StepKeepsFates(s, t, e);
      RunKeepsInv(Apply(s, t, e), events[1..]);
    }
  }

  lemma StartInv()
    ensures OwnInv(START) && FateInv(START)
  {
  }

  /**
   * At every moment of every run each open descriptor, handed in or not, has
   * exactly one party that is responsible for it, and its number stands for it.
   */
  lemma ExactlyOneOwner(events: seq<Event>, d: Desc)
    requires ValidRun(START, events)
    ensures var s := Run(START, events);
            && (s.table.Holds(d) <==> exists p :: Owns(s, p, d))
            && (forall p, q | Owns(s, p, d) && Owns(s, q, d) :: p == q)
  {
    hide Run, ValidRun, Apply, Enabled;
    StartInv();
    RunKeepsInv(START, events);
  }

  /**
   * What becomes of a descriptor the platform hands in. While its attempt runs,
   * one thread carries it. A successful attempt gives it to Leaf, and nobody but
   * Leaf ever closes it, at most once. A failed attempt has closed it exactly
   * once, or has lost it.
   */
  lemma FateOfHandedIn(events: seq<Event>, f: nat)
    requires ValidRun(START, events) && f in Run(START, events).handedIn
    ensures var s := Run(START, events);
            if f !in s.verdicts then
              exists fd, t :: Owns(s, ThreadParty(t), Desc(fd, f)) && s.table.Holds(Desc(fd, f))
            else if s.verdicts[f] then
              (exists fd :: Desc(fd, f) in s.leaf && s.table.Holds(Desc(fd, f))) != s.table.ClosedOnce(f, {LeafEngine})
            else
              (exists fd :: Desc(fd, f) in s.lost && s.table.Holds(Desc(fd, f))) != s.table.ClosedOnce(f, GUARDS)
  {
    StartInv();
    RunKeepsInv(START, events);
    var s := Run(START, events);
    hide Run, ValidRun, Apply, Enabled;
    assert s.table.Known(f);
    if i :| 0 <= i < |s.table.closed| && s.table.closed[i].file == f {
      assert Rightful(s, s.table.closed[i]);
      ClosedFileIsClosedOnce(s.table, i);
    } else {
      var fd :| s.table.Holds(Desc(fd, f));
      var p :| Owns(s, p, Desc(fd, f));
    }
  }

  lemma ClosedFileIsClosedOnce(t: FdTable, i: nat)
    requires t.Valid() && i < |t.closed|
    ensures t.ClosedOnce(t.closed[i].file, {t.closed[i].closer})
    ensures forall fd :: !t.Holds(Desc(fd, t.closed[i].file))
  {
  }

  // ---- When a descriptor is lost -----------------------------------------------

  /** The failure between setting the flag and entering native code, in an attempt with a real descriptor. */
  predicate Drops(s: State, e: Event) {
    e.step.MarshalThrows? && At(s, e.thread).Carried().Some?
  }

  /** The descriptors that such failures of a run let go. */
  function Dropped(s: State, events: seq<Event>): set<Desc>
    requires ValidRun(s, events)
    decreases |events|
  {
    if events == [] then {}
    else
      var t, e := events[0].thread, events[0].step;
      (if Drops(s, events[0]) then {At(s, t).d} else {}) + Dropped(Apply(s, t, e), events[1..])
  }

  lemma {:induction false} LostIsDropped(s: State, events: seq<Event>)
    requires ValidRun(s, events)
    ensures Run(s, events).lost == s.lost + Dropped(s, events)
    decreases |events|
  {
    if events == [] {
    } else {
      var t, e := events[0].thread, events[0].step;
      LostIsDropped(Apply(s, t, e), events[1..]);
      assert Apply(s, t, e).lost == s.lost + if Drops(s, events[0]) then {At(s, t).d} else {};
      hide Apply, Enabled;
    }
  }

  predicate NeverDrops(s: State, events: seq<Event>)
    requires ValidRun(s, events)
    decreases |events|
  {
    events == [] || (!Drops(s, events[0]) && NeverDrops(Apply(s, events[0].thread, events[0].step), events[1..]))
  }

  lemma {:induction false} DroppedNothing(s: State, events: seq<Event>)
    requires ValidRun(s, events)
    ensures Dropped(s, events) == {} <==> NeverDrops(s, events)
    decreases |events|
  {
    hide Apply, Enabled;
    if events == [] {
    } else {
      DroppedNothing(Apply(s, events[0].thread, events[0].step), events[1..]);
      assert Drops(s, events[0]) ==> At(s, events[0].thread).d in Dropped(s, events);
    }
  }

  /** A run loses no descriptor if and only if no attempt with a real one fails between the flag and the native call. */
  lemma NothingLostIff(events: seq<Event>)
    requires ValidRun(START, events)
    ensures Run(START, events).lost == {} <==> NeverDrops(START, events)
  {
    hide Run, Apply, Enabled, Dropped, NeverDrops;
    LostIsDropped(START, events);
    DroppedNothing(START, events);
  }

  /**
   * Exactly when a failed attempt closes what it was handed: its descriptor was closed once, by Kotlin or one of the
   * guards, if and only if it was not let go by such a failure; otherwise it is still open, and nobody's.
   */
  lemma FailureClosesIff(events: seq<Event>, f: nat)
    requires ValidRun(START, events)
    requires var s := Run(START, events); f in s.verdicts && !s.verdicts[f]
    ensures var s, dropped := Run(START, events), exists fd :: Desc(fd, f) in Dropped(START, events);
            && (s.table.ClosedOnce(f, GUARDS) <==> !dropped)
            && (dropped ==> exists fd :: s.table.Holds(Desc(fd, f)) && Owns(s, NobodyParty, Desc(fd, f)))
  {
    StartInv();
    RunKeepsInv(START, events);
    LostIsDropped(START, events);
    FateOfHandedIn(events, f);
    var s := Run(START, events);
    hide Run, Apply, Enabled, ValidRun, Dropped;
    forall fd | Desc(fd, f) in s.lost
      ensures s.table.Holds(Desc(fd, f)) && Owns(s, NobodyParty, Desc(fd, f))
    {
      assert Owns(s, NobodyParty, Desc(fd, f));
    }
  }

  /** The smallest run that loses a descriptor: one attempt, which fails after setting the flag. */
  lemma MarshalFailureLeaks(t: Thread, fd: int) returns (events: seq<Event>)
    requires fd >= 0
    ensures ValidRun(START, events) && !NeverDrops(START, events)
    ensures var s := Run(START, events);
            && 0 in s.handedIn && 0 in s.verdicts && !s.verdicts[0]
            && s.table.Holds(Desc(fd, 0)) && Owns(s, NobodyParty, Desc(fd, 0)) && s.table.closed == []
  {
    events := [Event(t, Establish(fd)), Event(t, MarshalThrows)];
    var s1 := Apply(START, t, Establish(fd));
    assert At(s1, t) == AtPlatform(Desc(fd, 0));
    var s2 := Apply(s1, t, MarshalThrows);
    assert events[1..] == [Event(t, MarshalThrows)] && events[1..][1..] == [];
    assert ValidRun(s2, []) && Run(s2, []) == s2;
    assert ValidRun(s1, events[1..]) && Run(s1, events[1..]) == s2 && !NeverDrops(s1, events[1..]);
  }

  // ---- Judged by the history ---------------------------------------------------

  predicate Ends(e: Step) {
    e.PlatformThrows? || e.MarshalThrows? || e.ShimFails? || e.CoreFails? || e.Launch?
  }

  /** The step that ended the attempt which carried file `f`, if it has ended in this run. */
  function EndOf(s: State, events: seq<Event>, f: nat): Option<Step>
    requires ValidRun(s, events)
    decreases |events|
  {
    if events == [] then None
    else
      var t, e := events[0].thread, events[0].step;
      if Ends(e) && At(s, t).Carried().Some? && At(s, t).d.file == f then Some(e)
        else EndOf(Apply(s, t, e), events[1..], f)
  }

  /** Verdicts stand, the log only grows, and what is lost stays lost. */
  ghost predicate Grows(s: State, s': State) {
    && (forall f | f in s.verdicts :: f in s'.verdicts && s'.verdicts[f] == s.verdicts[f])
    && s.table.closed <= s'.table.closed && s.lost <= s'.lost
  }

  lemma StepGrows(s: State, t: Thread, e: Step)
    requires FateInv(s) && Enabled(s, t, e)
    ensures Grows(s, Apply(s, t, e))
  {
    assert At(s, t).Carried().Some? ==> At(s, t).d.file !in s.verdicts;
  }

  lemma {:induction false} RunGrows(s: State, events: seq<Event>)
    requires OwnInv(s) && FateInv(s) && ValidRun(s, events)
    ensures Grows(s, Run(s, events))
    decreases |events|
  {
    hide OwnInv, FateInv;
    if events == [] {
    } else {
      var t, e := events[0].thread, events[0].step;
      StepGrows(s, t, e);
      StepKeepsOwnInv(s, t, e);
      StepKeepsFates(s, t, e);
      hide Apply, Enabled;
      RunGrows(Apply(s, t, e), events[1..]);
    }
  }

  /** The mark that the end of an attempt leaves behind. */
  ghost predicate Marked(s: State, f: nat, end: Step) {
    && f in s.verdicts && s.verdicts[f] == end.Launch?
    && (end.PlatformThrows? ==> Closed(f, Kotlin) in s.table.closed)
    && (end.ShimFails? ==> Closed(f, ShimGuard) in s.table.closed)
    && (end.CoreFails? ==> Closed(f, CoreGuard) in s.table.closed)
    && (end.MarshalThrows? ==> exists d :: d in s.lost && d.file == f)
  }

  lemma EndMarks(s: State, t: Thread, e: Step)
    requires OwnInv(s) && Enabled(s, t, e) && Ends(e) && At(s, t).Carried().Some?
    ensures Marked(Apply(s, t, e), At(s, t).d.file, e)
  {
    var d := At(s, t).d;
    assert Owns(s, ThreadParty(t), d);
    OnlyOwner(s, ThreadParty(t), d);
    hide OwnInv;
    if e.MarshalThrows? {
      assert d in Apply(s, t, e).lost;
    }
  }

  lemma MarkStays(s: State, s': State, f: nat, end: Step)
    requires Marked(s, f, end) && Grows(s, s')
    ensures Marked(s', f, end)
  {
    assert forall c | c in s.table.closed :: c in s'.table.closed;
    if end.MarshalThrows? {
      var d :| d in s.lost && d.file == f;
      assert d in s'.lost;
    }
  }

  lemma NotEnded(s: State, t: Thread, e: Step, f: nat)
    requires Enabled(s, t, e) && f !in s.verdicts
    requires !(Ends(e) && At(s, t).Carried().Some? && At(s, t).d.file == f)
    ensures f !in Apply(s, t, e).verdicts
  {
  }

  lemma {:induction false} EndDecides(s: State, events: seq<Event>, f: nat)
    requires OwnInv(s) && FateInv(s) && ValidRun(s, events) && f !in s.verdicts
    ensures var s', end := Run(s, events), EndOf(s, events, f);
            if end.None? then f !in s'.verdicts else Marked(s', f, end.value)
    decreases |events|
  {
    hide OwnInv, FateInv, Marked, Grows;
    if events == [] {
    } else {
      var t, e := events[0].thread, events[0].step;
      StepKeepsOwnInv(s, t, e);
      StepKeepsFates(s, t, e);
      if Ends(e) && At(s, t).Carried().Some? && At(s, t).d.file == f {
        EndMarks(s, t, e);
        RunGrows(Apply(s, t, e), events[1..]);
        MarkStays(Apply(s, t, e), Run(s, events), f, e);
      } else {
        NotEnded(s, t, e, f);
        hide Apply, Enabled, Ends;
        EndDecides(Apply(s, t, e), events[1..], f);
      }
    }
  }

  /**
   * The fate of a handed-in descriptor by what happened to its attempt. Still on its way: carried by one thread, and
   * open. Launched: Leaf has it open, or has closed it, once; no guard ever does. Failed: closed once, by the very
   * party that held it then. Failed between the flag and the native call: open, and nobody's.
   */
  lemma FateByHistory(events: seq<Event>, f: nat)
    requires ValidRun(START, events) && f in Run(START, events).handedIn
    ensures var s := Run(START, events);
            match EndOf(START, events, f)
            case None => exists fd, t :: Owns(s, ThreadParty(t), Desc(fd, f)) && s.table.Holds(Desc(fd, f))
            case Some(end) =>
              && (end.Launch? ==>
                    (exists fd :: Owns(s, LeafParty, Desc(fd, f)) && s.table.Holds(Desc(fd, f)))
                    != s.table.ClosedOnce(f, {LeafEngine}))
              && (end.PlatformThrows? ==> s.table.ClosedOnce(f, {Kotlin}))
              && (end.ShimFails? ==> s.table.ClosedOnce(f, {ShimGuard}))
              && (end.CoreFails? ==> s.table.ClosedOnce(f, {CoreGuard}))
              && (end.MarshalThrows? ==> exists fd :: Owns(s, NobodyParty, Desc(fd, f)) && s.table.Holds(Desc(fd, f)))
  {
    StartInv();
    EndDecides(START, events, f);
    RunKeepsInv(START, events);
    FateOfHandedIn(events, f);
    var s, end := Run(START, events), EndOf(START, events, f);
    hide Run, ValidRun, EndOf;
    if end.Some? {
      MarkTells(s, f, end.value);
    }
  }

  lemma MarkTells(s: State, f: nat, end: Step)
    requires OwnInv(s) && Marked(s, f, end)
    requires s.verdicts[f] ==>
               (exists fd :: Desc(fd, f) in s.leaf && s.table.Holds(Desc(fd, f))) != s.table.ClosedOnce(f, {LeafEngine})
    ensures end.Launch? ==>
              (exists fd :: Owns(s, LeafParty, Desc(fd, f)) && s.table.Holds(Desc(fd, f)))
              != s.table.ClosedOnce(f, {LeafEngine})
    ensures end.PlatformThrows? ==> s.table.ClosedOnce(f, {Kotlin})
    ensures end.ShimFails? ==> s.table.ClosedOnce(f, {ShimGuard})
    ensures end.CoreFails? ==> s.table.ClosedOnce(f, {CoreGuard})
    ensures end.MarshalThrows? ==> exists fd :: Owns(s, NobodyParty, Desc(fd, f)) && s.table.Holds(Desc(fd, f))
  {
    match end {
      case PlatformThrows => LoggedOnce(s.table, f, Kotlin);
      case ShimFails => LoggedOnce(s.table, f, ShimGuard);
      case CoreFails => LoggedOnce(s.table, f, CoreGuard);
      case MarshalThrows =>
        var d :| d in s.lost && d.file == f;
        assert Owns(s, NobodyParty, Desc(d.fd, f));
      case Launch =>
        assert forall fd :: Owns(s, LeafParty, Desc(fd, f)) <==> Desc(fd, f) in s.leaf;
      case _ =>
    }
  }

  lemma LoggedOnce(t: FdTable, f: nat, closer: Closer)
    requires t.Valid() && Closed(f, closer) in t.closed
    ensures t.ClosedOnce(f, {closer})
  {
    var i :| 0 <= i < |t.closed| && t.closed[i] == Closed(f, closer);
    ClosedFileIsClosedOnce(t, i);
  }

  /** A descriptor table in which a handed-in number stands for file 0, if it is a number at all. */
  function Only(fd: int): map<int, nat> {
    if fd < 0 then map[] else map[fd := 0]
  }

  /** The first steps of an attempt, up to the core. */
  function ToCore(t: Thread, fd: int, rest: seq<Event>): seq<Event> {
    [Event(t, Establish(fd))] + ToShim(t, [Event(t, HandOver)] + ([Event(t, EnterCore)] + rest))
  }

  function ToShim(t: Thread, rest: seq<Event>): seq<Event> {
    [Event(t, EnterShim)] + rest
  }

  /** Every stage of an attempt can be reached, with a descriptor or without one. */
  lemma Reaches(t: Thread, fd: int, rest: seq<Event>)
    ensures var s := InCoreState(t, fd);
            && (ValidRun(START, ToCore(t, fd, rest)) <==> ValidRun(s, rest))
            && (ValidRun(s, rest) ==> Run(START, ToCore(t, fd, rest)) == Run(s, rest))
  {
    var s1 := Apply(START, t, Establish(fd));
    var s2 := Apply(s1, t, EnterShim);
    var s3 := Apply(s2, t, HandOver);
    var s4 := Apply(s3, t, EnterCore);
    assert s4 == InCoreState(t, fd);
    hide Run, ValidRun;
    RunOne(s3, t, EnterCore, rest);
    RunOne(s2, t, HandOver, [Event(t, EnterCore)] + rest);
    RunOne(s1, t, EnterShim, [Event(t, HandOver)] + ([Event(t, EnterCore)] + rest));
    RunOne(START, t, Establish(fd), ToShim(t, [Event(t, HandOver)] + ([Event(t, EnterCore)] + rest)));
  }

  /** The first attempt of all, guarded by the core. */
  function InCoreState(t: Thread, fd: int): State {
    var table := FdTable(Only(fd), if fd < 0 then 0 else 1, []);
    START.(table := table, threads := map[t := InCore(Desc(fd, 0))], handedIn := if fd < 0 then {} else {0})
  }

  /** A start that goes through: the descriptor is Leaf's, open, and nothing has been closed. */
  lemma SuccessfulStart(t: Thread, fd: int) returns (events: seq<Event>)
    ensures ValidRun(START, events)
    ensures var s := Run(START, events);
            && s.table.closed == [] && s.table.open == Only(fd) && s.lost == {} && At(s, t).Idle?
            && s.leaf == if fd < 0 then {} else {Desc(fd, 0)}
  {
    var s := InCoreState(t, fd);
    hide Run, ValidRun;
    RunNothing(Apply(s, t, Launch));
    RunOne(s, t, Launch, []);
    Reaches(t, fd, [Event(t, Launch)] + []);
    events := ToCore(t, fd, [Event(t, Launch)] + []);
  }

  /** A start that the core refuses or cannot bring up: its guard has closed the descriptor, if there is one. */
  lemma FailedStart(t: Thread, fd: int) returns (events: seq<Event>)
    ensures ValidRun(START, events)
    ensures var s := Run(START, events);
            && s.table.closed == (if fd < 0 then [] else [Closed(0, CoreGuard)]) && s.table.open == map[]
            && s.lost == {} && s.leaf == {} && At(s, t).Idle?
  {
    var s := InCoreState(t, fd);
    hide Run, ValidRun;
    RunNothing(Apply(s, t, CoreFails));
    RunOne(s, t, CoreFails, []);
    Reaches(t, fd, [Event(t, CoreFails)] + []);
    events := ToCore(t, fd, [Event(t, CoreFails)] + []);
  }

  /** What is lost is lost for ever: it stays open whatever the run goes on to do. */
  lemma LostForEver(s: State, events: seq<Event>, d: Desc)
    requires OwnInv(s) && FateInv(s) && ValidRun(s, events) && d in s.lost
    ensures d in Run(s, events).lost && Run(s, events).table.Holds(d)
  {
    RunGrows(s, events);
    RunKeepsInv(s, events);
    assert Owns(Run(s, events), NobodyParty, d);
    hide Run, ValidRun, FateInv;
  }

  /** Everything else that is open can still be closed by the party that owns it. */
  lemma OwnerCanClose(s: State, d: Desc) returns (events: seq<Event>)
    requires OwnInv(s) && FateInv(s) && s.table.Holds(d) && d !in s.lost
    ensures ValidRun(s, events) && !Run(s, events).table.Holds(d)
  {
    var p :| Owns(s, p, d);
    match p {
      case ThreadParty(t) =>
        if At(s, t).Crossing? {
          var s1 := Apply(s, t, EnterCore);
          var s2 := Apply(s1, t, CoreFails);
          hide Run, ValidRun, OwnInv, FateInv;
          RunNothing(s2);
          RunOne(s1, t, CoreFails, []);
          events := [Event(t, EnterCore)] + ([Event(t, CoreFails)] + []);
          RunOne(s, t, EnterCore, [Event(t, CoreFails)] + []);
        } else {
          var e := if At(s, t).AtPlatform? then PlatformThrows else if At(s, t).InShim? then ShimFails else CoreFails;
          events := ClosesNow(s, t, e, d);
        }
      case LeafParty =>
        events := ClosesNow(s, 0, LeafCloses(d), d);
      case OutsideParty =>
        events := ClosesNow(s, 0, OutsideCloses(d), d);
      case NobodyParty =>
    }
  }

  lemma ClosesNow(s: State, t: Thread, e: Step, d: Desc) returns (events: seq<Event>)
    requires Enabled(s, t, e) && !Apply(s, t, e).table.Holds(d)
    ensures ValidRun(s, events) && !Run(s, events).table.Holds(d)
  {
    hide Run, ValidRun, Enabled, Apply;
    RunNothing(Apply(s, t, e));
    RunOne(s, t, e, []);
    events := [Event(t, e)] + [];
  }

  /** In every reachable state an open descriptor can still come to be closed if and only if it is not lost. */
  lemma ClosableIff(events: seq<Event>, d: Desc)
    requires ValidRun(START, events) && Run(START, events).table.Holds(d)
    ensures var s := Run(START, events);
            (exists more :: ValidRun(s, more) && !Run(s, more).table.Holds(d)) <==> d !in s.lost
  {
    hide Run, ValidRun, OwnInv, FateInv;
    StartInv();
    RunKeepsInv(START, events);
    var s := Run(START, events);
    if d in s.lost {
      forall more | ValidRun(s, more)
        ensures Run(s, more).table.Holds(d)
      {
        LostForEver(s, more, d);
      }
    } else {
      var more := OwnerCanClose(s, d);
    }
  }

  lemma RunNothing(s: State)
    ensures ValidRun(s, []) && Run(s, []) == s
  {
  }

  lemma RunOne(s: State, t: Thread, e: Step, rest: seq<Event>)
    requires Enabled(s, t, e)
    ensures ValidRun(s, [Event(t, e)] + rest) <==> ValidRun(Apply(s, t, e), rest)
    ensures ValidRun(Apply(s, t, e), rest) ==> Run(s, [Event(t, e)] + rest) == Run(Apply(s, t, e), rest)
  {
    hide Enabled, Apply;
    assert ([Event(t, e)] + rest)[1..] == rest;
  }

  // ---- A platform without descriptors ------------------------------------------

  /** Every attempt of the run passes a negative number, as on a platform that has no descriptor to give. */
  predicate AllNegative(events: seq<Event>) {
    forall i | 0 <= i < |events| && events[i].step.Establish? :: events[i].step.fd < 0
  }

  ghost predicate Untouched(s: State) {
    && s.handedIn == {} && s.leaf == {} && s.lost == {} && s.verdicts == map[]
    && (forall t: Thread :: At(s, t).Idle? || At(s, t).d.fd < 0)
    && (forall i | 0 <= i < |s.table.closed| :: s.table.closed[i].closer == Outsider)
  }

  lemma NegativeStep(s: State, t: Thread, e: Step)
    requires Untouched(s) && Enabled(s, t, e) && (e.Establish? ==> e.fd < 0)
    ensures Untouched(Apply(s, t, e))
  {
    var s' := Apply(s, t, e);
    forall u: Thread
      ensures At(s', u).Idle? || At(s', u).d.fd < 0
    {
      assert At(s, u).Idle? || At(s, u).d.fd < 0;
      assert At(s, t).Idle? || At(s, t).d.fd < 0;
    }
  }

  /** In such a run no guard and no engine ever closes anything, whatever the attempts come to. */
  lemma {:induction false} NegativeRunsCloseNothing(s: State, events: seq<Event>)
    requires Untouched(s) && ValidRun(s, events) && AllNegative(events)
    ensures Untouched(Run(s, events))
    decreases |events|
  {
    if events == [] {
    } else {
      var t, e := events[0].thread, events[0].step;
      NegativeStep(s, t, e);
      assert forall i | 0 <= i < |events[1..]| :: events[1..][i] == events[i + 1];
      hide Untouched, Apply, Enabled;
      NegativeRunsCloseNothing(Apply(s, t, e), events[1..]);
    }
  }
}
