/**
 * The process's descriptor table. A closed number may be handed out again at
 * once, so a number alone does not say which open file it stands for.
 */
module Descriptors {
  import opened Util

  /** A descriptor number together with the open file it stood for when it was handed over. */
  datatype Desc = Desc(fd: int, file: nat)

  datatype Closer = Kotlin | ShimGuard | CoreGuard | LeafEngine | Outsider

  datatype Closed = Closed(file: nat, closer: Closer)

  /** Open files are numbered in the order in which they were opened. */
  datatype FdTable = FdTable(open: map<int, nat>, next: nat, closed: seq<Closed>) {

    predicate Valid() {
      && (forall fd | fd in open :: fd >= 0 && open[fd] < next)
      && (forall fd, fd' | fd in open && fd' in open && open[fd] == open[fd'] :: fd == fd')
      && (forall i | 0 <= i < |closed| :: closed[i].file < next && closed[i].file !in open.Values)
      && (forall i, j | 0 <= i < j < |closed| :: closed[i].file != closed[j].file)
    }

    /** `open(2)` picks any number that is not in use. */
    function Open(fd: int): (t: FdTable)
      requires fd >= 0 && fd !in open
      ensures Valid() ==> t.Valid()
    {
      FdTable(open[fd := next], next + 1, closed)
    }

    /** `close(2)`: whatever file the number stands for now is closed; an unused number is EBADF. */
    function Close(fd: int, closer: Closer): (t: FdTable)
      ensures Valid() ==> t.Valid()
    {
      if fd in open then FdTable(open - {fd}, next, closed + [Closed(open[fd], closer)]) else this
    }

    /** Exactly this descriptor's file is behind its number. */
    predicate Holds(d: Desc) {
      d.fd in open && open[d.fd] == d.file
    }

    /** `file` was closed, once, by one of `closers`. */
    ghost predicate ClosedOnce(file: nat, closers: set<Closer>) {
      exists i | 0 <= i < |closed| ::
        && closed[i].file == file && closed[i].closer in closers
        && forall j | 0 <= j < |closed| && closed[j].file == file :: j == i
    }

    /** The file is open under some number, or was closed. */
    ghost predicate Known(file: nat) {
      (exists fd :: Holds(Desc(fd, file))) || (exists i | 0 <= i < |closed| :: closed[i].file == file)
    }

    /** No file is ever forgotten. */
    ghost predicate Accounted() {
      forall file: nat | file < next :: Known(file)
    }
  }

  lemma OpenKeepsAccounted(t: FdTable, fd: int)
    requires t.Accounted() && fd >= 0 && fd !in t.open
    ensures t.Open(fd).Accounted()
  {
    var t' := t.Open(fd);
    forall file: nat | file < t'.next
      ensures t'.Known(file)
    {
      if file == t.next {
        assert t'.Holds(Desc(fd, file));
      } else {
        assert t.Known(file);
        if g :| t.Holds(Desc(g, file)) {
          assert t'.Holds(Desc(g, file));
        }
      }
    }
  }

  lemma CloseKeepsAccounted(t: FdTable, fd: int, closer: Closer)
    requires t.Accounted()
    ensures t.Close(fd, closer).Accounted()
  {
    var t' := t.Close(fd, closer);
    if fd in t.open {
      forall file: nat | file < t'.next
        ensures t'.Known(file)
      {
        assert t.Known(file);
        if i :| 0 <= i < |t.closed| && t.closed[i].file == file {
          assert t'.closed[i].file == file;
        } else {
          var g :| t.Holds(Desc(g, file));
          if g == fd {
            assert t'.closed[|t.closed|].file == file;
          } else {
            assert t'.Holds(Desc(g, file));
          }
        }
      }
    }
  }
}
