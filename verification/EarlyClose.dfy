/**
 * Why Ownership may not let Leaf close early. Leaf #2 is spawned with the descriptor
 * before the last steps of the bring-up (rust/core/src/engine.rs), while the core's
 * guard still holds it. Here Leaf may close at any moment from the spawn on, before or
 * after the guard, among unrelated code that reuses the number.
 */
module EarlyClose {
  import opened Util
  import opened Descriptors

  datatype Guard = Armed | Fired | Disarmed

  /** One bring-up from the spawn of Leaf #2 on; `others` are the descriptors of unrelated code. */
  datatype Race = Race(table: FdTable, guard: Guard, leafClosed: bool, others: set<Desc>)

  datatype Event =
    | LeafCloses
    | CoreFails
    | Launches
    | OutsideOpens(fd: int)
    | OutsideCloses(d: Desc)

  /** The descriptor is open, and everything else that is open belongs to unrelated code. */
  ghost predicate Begins(s: Race, d: Desc) {
    && s.table.Valid() && s.table.Holds(d) && s.guard == Armed && !s.leafClosed
    && forall x :: x in s.others <==> s.table.Holds(x) && x != d
  }

  predicate Enabled(s: Race, e: Event) {
    match e
    case LeafCloses => !s.leafClosed
    case CoreFails => s.guard == Armed
    case Launches => s.guard == Armed
    case OutsideOpens(fd) => fd >= 0 && fd !in s.table.open
    case OutsideCloses(x) => x in s.others
  }

  /** Both the guard and Leaf close the number they were given; they cannot tell what it stands for. */
  function Apply(s: Race, d: Desc, e: Event): Race
    requires Enabled(s, e)
  {
    match e
    case LeafCloses => s.(table := s.table.Close(d.fd, LeafEngine), leafClosed := true, others := After(s, d))
    case CoreFails => s.(table := s.table.Close(d.fd, CoreGuard), guard := Fired, others := After(s, d))
    case Launches => s.(guard := Disarmed)
    case OutsideOpens(fd) => s.(table := s.table.Open(fd), others := s.others + {Desc(fd, s.table.next)})
    case OutsideCloses(x) => s.(table := s.table.Close(x.fd, Outsider), others := s.others - {x})
  }

  /** A descriptor whose number was closed under its owner is the owner's no more. */
  function After(s: Race, d: Desc): set<Desc> {
    set x | x in s.others && x.fd != d.fd
  }

  predicate ValidRun(s: Race, d: Desc, events: seq<Event>)
    decreases |events|
  {
    events == [] || (Enabled(s, events[0]) && ValidRun(Apply(s, d, events[0]), d, events[1..]))
  }

  function Run(s: Race, d: Desc, events: seq<Event>): Race
    requires ValidRun(s, d, events)
    decreases |events|
  {
    if events == [] then s else Run(Apply(s, d, events[0]), d, events[1..])
  }

  /** Exactly the descriptor, while nobody has closed it, and those of unrelated code are open. */
  ghost predicate Inv(s: Race, d: Desc) {
    && s.table.Valid() && d.fd >= 0 && d.file < s.table.next
    && (forall x :: s.table.Holds(x) <==> x in s.others || (x == d && !s.leafClosed && s.guard != Fired))
    && d !in s.others
  }

  lemma StepKeepsInv(s: Race, d: Desc, e: Event)
    requires Inv(s, d) && Enabled(s, e)
    ensures Inv(Apply(s, d, e), d)
  {
    var s' := Apply(s, d, e);
    forall x
      ensures s'.table.Holds(x) <==> x in s'.others || (x == d && !s'.leafClosed && s'.guard != Fired)
    {
      assert s.table.Holds(x) <==> x in s.others || (x == d && !s.leafClosed && s.guard != Fired);
      if e.OutsideCloses? {
        assert s.table.Holds(e.d);
      }
    }
  }

  lemma {:induction false} RunKeepsInv(s: Race, d: Desc, events: seq<Event>)
    requires Inv(s, d) && ValidRun(s, d, events)
    ensures var s' := Run(s, d, events);
            && Inv(s', d)
            && (s'.leafClosed <==> s.leafClosed || LeafCloses in events)
            && (s'.guard == Fired <==> s.guard == Fired || CoreFails in events)
            && (s'.guard == Disarmed <==> s.guard == Disarmed || Launches in events)
    decreases |events|
  {
    if events == [] {
    } else {
      StepKeepsInv(s, d, events[0]);
      assert events == [events[0]] + events[1..];
      var t := Apply(s, d, events[0]);
      assert t.leafClosed <==> s.leafClosed || events[0] == LeafCloses;
      assert t.guard == Fired <==> s.guard == Fired || events[0] == CoreFails;
      assert t.guard == Disarmed <==> s.guard == Disarmed || events[0] == Launches;
      hide Inv, Apply, Enabled;
      RunKeepsInv(t, d, events[1..]);
    }
  }

  /** The next close of the number by `closer`: what it does to the files. */
  ghost predicate ClosesRightly(s: Race, s': Race, d: Desc, closer: Closer) {
    s.table.Holds(d) && s'.table.closed == s.table.closed + [Closed(d.file, closer)]
  }

  /** Nothing, because the number is free, or a file of unrelated code that got the number in the meantime. */
  ghost predicate ClosesAstray(s: Race, s': Race, d: Desc, closer: Closer) {
    && !s.table.Holds(d)
    && (if d.fd in s.table.open
        then Desc(d.fd, s.table.open[d.fd]) in s.others
             && s'.table.closed == s.table.closed + [Closed(s.table.open[d.fd], closer)]
        else s'.table == s.table)
  }

  lemma EitherWay(s: Race, d: Desc, closer: Closer)
    requires Inv(s, d)
    ensures var s' := s.(table := s.table.Close(d.fd, closer));
            if !s.leafClosed && s.guard != Fired then ClosesRightly(s, s', d, closer)
              else ClosesAstray(s, s', d, closer)
  {
    assert s.table.Holds(d) <==> !s.leafClosed && s.guard != Fired;
    if d.fd in s.table.open {
      assert s.table.Holds(Desc(d.fd, s.table.open[d.fd]));
    }
  }

  /**
   * A failing bring-up closes the descriptor it was given if and only if Leaf has not closed it first; otherwise the
   * guard's close goes astray, and takes the file of whoever was given the number in between.
   */
  lemma GuardStraysIff(s: Race, d: Desc, events: seq<Event>)
    requires Begins(s, d) && ValidRun(s, d, events) && Run(s, d, events).guard == Armed
    ensures var t := Run(s, d, events); var t' := Apply(t, d, CoreFails);
            if LeafCloses in events then ClosesAstray(t, t', d, CoreGuard) else ClosesRightly(t, t', d, CoreGuard)
  {
    RunKeepsInv(s, d, events);
    hide ValidRun, Run, Inv;
    EitherWay(Run(s, d, events), d, CoreGuard);
  }

  /** Leaf's close likewise: it is right if and only if the bring-up has not failed before it. */
  lemma LeafStraysIff(s: Race, d: Desc, events: seq<Event>)
    requires Begins(s, d) && ValidRun(s, d, events) && !Run(s, d, events).leafClosed
    ensures var t := Run(s, d, events); var t' := Apply(t, d, LeafCloses);
            if CoreFails in events then ClosesAstray(t, t', d, LeafEngine) else ClosesRightly(t, t', d, LeafEngine)
  {
    RunKeepsInv(s, d, events);
    hide ValidRun, Run, Inv;
    EitherWay(Run(s, d, events), d, LeafEngine);
  }

  /** A failing bring-up in which Leaf closes early and the number is reused: the guard closes the newcomer's file. */
  lemma NewcomerIsHit(s: Race, d: Desc) returns (events: seq<Event>)
    requires Begins(s, d)
    ensures ValidRun(s, d, events)
    ensures Run(s, d, events).table.closed
         == s.table.closed + [Closed(d.file, LeafEngine), Closed(s.table.next, CoreGuard)]
  {
    events := [LeafCloses, OutsideOpens(d.fd), CoreFails];
    var s1 := Apply(s, d, LeafCloses);
    var s2 := Apply(s1, d, OutsideOpens(d.fd));
    var s3 := Apply(s2, d, CoreFails);
    assert events[1..] == [OutsideOpens(d.fd), CoreFails] && events[1..][1..] == [CoreFails]
           && events[1..][1..][1..] == [];
    assert ValidRun(s3, d, []) && Run(s3, d, []) == s3;
    assert ValidRun(s2, d, [CoreFails]) && Run(s2, d, [CoreFails]) == s3;
    assert ValidRun(s1, d, events[1..]) && Run(s1, d, events[1..]) == s3;
  }

  /** If the newcomer has closed its file by then, the guard's close hits nothing. */
  lemma NewcomerIsGone(s: Race, d: Desc) returns (events: seq<Event>)
    requires Begins(s, d)
    ensures ValidRun(s, d, events) && CoreFails in events
    ensures Run(s, d, events).table.closed
         == s.table.closed + [Closed(d.file, LeafEngine), Closed(s.table.next, Outsider)]
  {
    var newcomer := Desc(d.fd, s.table.next);
    events := [LeafCloses, OutsideOpens(d.fd), OutsideCloses(newcomer), CoreFails];
    var s1 := Apply(s, d, LeafCloses);
    var s2 := Apply(s1, d, OutsideOpens(d.fd));
    var s3 := Apply(s2, d, OutsideCloses(newcomer));
    var s4 := Apply(s3, d, CoreFails);
    assert events[1..] == [OutsideOpens(d.fd), OutsideCloses(newcomer), CoreFails];
    assert events[1..][1..] == [OutsideCloses(newcomer), CoreFails] && events[1..][1..][1..] == [CoreFails];
    assert events[1..][1..][1..][1..] == [];
    assert ValidRun(s4, d, []) && Run(s4, d, []) == s4;
    assert ValidRun(s3, d, [CoreFails]) && Run(s3, d, [CoreFails]) == s4;
    assert ValidRun(s2, d, events[1..][1..]) && Run(s2, d, events[1..][1..]) == s4;
    assert ValidRun(s1, d, events[1..]) && Run(s1, d, events[1..]) == s4;
  }
}
