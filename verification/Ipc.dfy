/**
 * One connection to the IPC server (rust/core/src/ipc.rs): a token gate and a
 * command loop over request lines, against a three-state automaton.
 */
module Ipc {
  import opened Util

  datatype Status = Status(
    running: bool,
    ptProvider: Option<string>,
    ptSocks: Option<string>,
    artiSocks: Option<string>,
    tunAddr: Option<string>)

  datatype Request = Auth(token: Bytes) | GetStatus | SubscribeLogs | Stop

  /** A line as read from the peer: a request, text that is none, or a read error. */
  datatype Line = Good(request: Request) | Malformed(message: string) | Unreadable

  /** A line and the engine's status at the moment it is handled. */
  datatype Turn = Turn(line: Line, status: Status)

  datatype Reply = Ok | Err(message: string) | StatusReply(status: Status) | Log(line: string)

  datatype End = PeerClosed | Closed | ReadFailed | SendFailed | Streaming

  datatype Stage = Guest | Member | Over(end: End)

  datatype Reaction = Reaction(next: Stage, reply: Reply, cancels: bool)

  /** What a readable line does to a session that is not over. */
  function React(stage: Stage, turn: Turn, expected: Bytes): Reaction
    requires !stage.Over? && !turn.line.Unreadable?
  {
    match turn.line
    case Malformed(message) => Reaction(stage, Err(message), false)
    case Good(request) =>
      if stage.Guest? then
        if !request.Auth? then Reaction(Over(Closed), Err("auth required"), false)
        else if request.token == expected then Reaction(Member, Ok, false)
        else Reaction(Over(Closed), Err("invalid auth token"), false)
      else
        match request
        case Auth(_) => Reaction(Member, Err("already authenticated"), false)
        case GetStatus => Reaction(Member, StatusReply(turn.status), false)
        case SubscribeLogs => Reaction(Over(Streaming), Log("log stream up"), false)
        case Stop => Reaction(Over(Closed), Ok, true)
  }

  /** The replies that were sent, whether the engine's token was cancelled, how it ended, lines taken. */
  datatype Transcript = Transcript(replies: seq<Reply>, cancels: bool, end: End, taken: nat)

  /**
   * The automaton on a whole connection, whose peer takes `room` replies before
   * sends fail. A failed send ends the session, except after a malformed line.
   */
  function Talk(stage: Stage, turns: seq<Turn>, expected: Bytes, room: nat): Transcript
    decreases |turns|
  {
    if stage.Over? then Transcript([], false, stage.end, 0)
    else if turns == [] then Transcript([], false, PeerClosed, 0)
    else if turns[0].line.Unreadable? then Transcript([], false, ReadFailed, 0)
    else
      var r := React(stage, turns[0], expected);
      if room == 0 && !turns[0].line.Malformed? then Transcript([], false, SendFailed, 1)
      else
        var sent := if room == 0 then [] else [r.reply];
        var rest := Talk(r.next, turns[1..], expected, room - |sent|);
        Transcript(sent + rest.replies, r.cancels || rest.cancels, rest.end, 1 + rest.taken)
  }

  /** The process-wide token. A session compares against the value it found when it began. */
  class AuthToken {
    var value: Bytes

    constructor (random: Bytes)
      ensures value == random
    {
      value := random;
    }

    method Current() returns (token: Bytes)
      ensures token == value
    {
      token := value;
    }

    method Rotate(random: Bytes) returns (token: Bytes)
      modifies this
      ensures value == random && token == random
    {
      value := random;
      token := random;
    }
  }

  /** `whole` is what a session has done in `i` turns, continued from `stage`. */
  ghost predicate Continues(whole: Transcript, out: seq<Reply>, i: nat, stage: Stage,
                            turns: seq<Turn>, expected: Bytes, room: nat)
    requires i <= |turns| && |out| <= room
  {
    var rest := Talk(stage, turns[i..], expected, room - |out|);
    whole == Transcript(out + rest.replies, rest.cancels, rest.end, i + rest.taken)
  }

  /** One readable line, answered or not. */
  lemma Advance(whole: Transcript, out: seq<Reply>, i: nat, stage: Stage, turns: seq<Turn>, expected: Bytes, room: nat)
    requires i < |turns| && |out| <= room
    requires Continues(whole, out, i, stage, turns, expected, room)
    requires !stage.Over? && !turns[i].line.Unreadable?
    ensures var r := React(stage, turns[i], expected);
            if |out| == room && !turns[i].line.Malformed? then whole == Transcript(out, false, SendFailed, i + 1)
            else
              var out' := if |out| == room then out else out + [r.reply];
              if r.next.Over? then whole == Transcript(out', r.cancels, r.next.end, i + 1)
              else !r.cancels && Continues(whole, out', i + 1, r.next, turns, expected, room)
  {
    hide React;
    CancelsEnds(stage, turns[i], expected);
    assert turns[i..][1..] == turns[i + 1..];
    var r := React(stage, turns[i], expected);
    var sent := if |out| == room then [] else [r.reply];
    var rest := Talk(r.next, turns[i + 1..], expected, room - |out| - |sent|);
    assert out + (sent + rest.replies) == (out + sent) + rest.replies;
  }

  lemma CancelsEnds(stage: Stage, turn: Turn, expected: Bytes)
    requires !stage.Over? && !turn.line.Unreadable?
    ensures React(stage, turn, expected).cancels ==> React(stage, turn, expected).next == Over(Closed)
  {
  }

  /** The session stops reading: nothing more arrives, or the read fails. */
  lemma NoMore(whole: Transcript, out: seq<Reply>, i: nat, stage: Stage, turns: seq<Turn>, expected: Bytes, room: nat)
    requires i <= |turns| && |out| <= room
    requires Continues(whole, out, i, stage, turns, expected, room)
    requires !stage.Over? && (i == |turns| || turns[i].line.Unreadable?)
    ensures whole == Transcript(out, false, if i == |turns| then PeerClosed else ReadFailed, i)
  {
  }

  /** `handle_client`. */
  method HandleClient(turns: seq<Turn>, token: AuthToken, room: nat) returns (t: Transcript)
    ensures t == Talk(Guest, turns, token.value, room)
  {
    hide Talk;
    var authed := false;
    var expected := token.Current();
    var out: seq<Reply> := [];
    ghost var whole := Talk(Guest, turns, expected, room);
    var i := 0;
    assert turns[0..] == turns;
    while i < |turns|
      invariant 0 <= i <= |turns| && |out| <= room
      invariant Continues(whole, out, i, if authed then Member else Guest, turns, expected, room)
    {
      ghost var stage := if authed then Member else Guest;
      var line := turns[i].line;
      if line.Unreadable? {
        NoMore(whole, out, i, stage, turns, expected, room);
        return Transcript(out, false, ReadFailed, i);
      }
      Advance(whole, out, i, stage, turns, expected, room);
      hide Continues;
      i := i + 1;
      if line.Malformed? {
        if |out| < room {
          out := out + [Err(line.message)];
        }
        continue;
      }
      if |out| == room {
        return Transcript(out, false, SendFailed, i);
      }
      if !authed {
        if !line.request.Auth? {
          return Transcript(out + [Err("auth required")], false, Closed, i);
        }
        var equal, _ := CtEq(line.request.token, expected);
        if !equal {
          return Transcript(out + [Err("invalid auth token")], false, Closed, i);
        }
        authed := true;
        out := out + [Ok];
        continue;
      }
      match line.request
      case Auth(_) => out := out + [Err("already authenticated")];
      case GetStatus => out := out + [StatusReply(turns[i - 1].status)];
      case SubscribeLogs => return Transcript(out + [Log("log stream up")], false, Streaming, i);
      case Stop => return Transcript(out + [Ok], true, Closed, i);
    }
    NoMore(whole, out, i, if authed then Member else Guest, turns, expected, room);
    return Transcript(out, false, PeerClosed, i);
  }

  // ---- The gate --------------------------------------------------------------

  /** The first line that is not malformed presents the session's token. */
  predicate Authenticated(turns: seq<Turn>, expected: Bytes) {
    turns != [] &&
    if turns[0].line.Malformed? then Authenticated(turns[1..], expected) else turns[0].line == Good(Auth(expected))
  }

  function MalformedPrefix(turns: seq<Turn>): (n: nat)
    ensures n <= |turns|
  {
    if turns == [] || !turns[0].line.Malformed? then 0 else 1 + MalformedPrefix(turns[1..])
  }

  /**
   * Nothing but errors leaves a session, and it does not cancel the engine, unless
   * its first request is the right token; and an unauthenticated session handles
   * one request only, whatever follows.
   */
  lemma {:induction false} Gate(turns: seq<Turn>, expected: Bytes, room: nat)
    requires !Authenticated(turns, expected)
    ensures var t := Talk(Guest, turns, expected, room);
            && !t.cancels && (forall r | r in t.replies :: r.Err?)
            && t.taken <= MalformedPrefix(turns) + 1
    decreases |turns|
  {
    if turns != [] && turns[0].line.Malformed? {
      Gate(turns[1..], expected, if room == 0 then 0 else room - 1);
    }
  }

  // ---- Replies ---------------------------------------------------------------

  /** While sends succeed, every line taken gets exactly one reply, and status replies are up to date. */
  lemma {:induction false} OneReplyEach(stage: Stage, turns: seq<Turn>, expected: Bytes, room: nat)
    requires room >= |turns|
    ensures var t := Talk(stage, turns, expected, room);
            && |t.replies| == t.taken <= |turns|
            && forall i | 0 <= i < t.taken ::
                 && (t.replies[i].StatusReply? ==>
                       turns[i].line == Good(GetStatus) && t.replies[i].status == turns[i].status)
                 && (t.replies[i].Log? ==> turns[i].line == Good(SubscribeLogs) && i == t.taken - 1)
                 && (turns[i].line.Malformed? ==> t.replies[i] == Err(turns[i].line.message))
    decreases |turns|
  {
    hide Talk;
    TalkOne(stage, turns, expected, room);
    if stage.Over? || turns == [] || turns[0].line.Unreadable? {
    } else {
      var r := React(stage, turns[0], expected);
      OneReplyEach(r.next, turns[1..], expected, room - 1);
      TalkOne(r.next, turns[1..], expected, room - 1);
      var t, rest := Talk(stage, turns, expected, room), Talk(r.next, turns[1..], expected, room - 1);
      assert t.replies == [r.reply] + rest.replies;
      assert forall i | 1 <= i < t.taken :: turns[i] == turns[1..][i - 1] && t.replies[i] == rest.replies[i - 1];
    }
  }

  // ---- Malformed lines -------------------------------------------------------

  function WellFormed(turns: seq<Turn>): (g: seq<Turn>)
    ensures |g| <= |turns|
    ensures forall x | x in g :: !x.line.Malformed?
  {
    if turns == [] then []
    else (if turns[0].line.Malformed? then [] else [turns[0]]) + WellFormed(turns[1..])
  }

  /** Parse errors put back where the malformed lines were. */
  function Weave(turns: seq<Turn>, replies: seq<Reply>): seq<Reply> {
    if turns == [] then []
    else if turns[0].line.Malformed? then [Err(turns[0].line.message)] + Weave(turns[1..], replies)
    else if replies == [] then []
    else [replies[0]] + Weave(turns[1..], replies[1..])
  }

  /** Malformed lines are answered and otherwise change nothing: not the replies, the cancelling or the end. */
  predicate Inert(t: Transcript, turns: seq<Turn>, without: Transcript) {
    && t.taken <= |turns|
    && t.replies == Weave(turns[..t.taken], without.replies)
    && t.cancels == without.cancels && t.end == without.end
  }

  lemma {:induction false} MalformedLinesAreInert(stage: Stage, turns: seq<Turn>, expected: Bytes, room: nat)
    requires room >= |turns|
    ensures Inert(Talk(stage, turns, expected, room), turns, Talk(stage, WellFormed(turns), expected, room))
    decreases |turns|
  {
    hide Talk, React, Inert, WellFormed;
    WellFormedHead(turns);
    if stage.Over? || turns == [] || turns[0].line.Unreadable? {
      NothingTaken(stage, turns, expected, room);
    } else {
      var tail, next := turns[1..], React(stage, turns[0], expected).next;
      MalformedLinesAreInert(next, tail, expected, room - 1);
      TalkHead(stage, turns, expected, room);
      if turns[0].line.Malformed? {
        RoomEnough(stage, WellFormed(tail), expected, room, room - 1);
        MalformedFirst(turns, Talk(stage, tail, expected, room - 1), Talk(stage, WellFormed(tail), expected, room));
      } else {
        TalkHead(stage, WellFormed(turns), expected, room);
        RequestFirst(turns, React(stage, turns[0], expected), Talk(next, tail, expected, room - 1),
                     Talk(next, WellFormed(tail), expected, room - 1));
      }
    }
  }

  lemma WellFormedHead(turns: seq<Turn>)
    ensures turns == [] ==> WellFormed(turns) == []
    ensures turns != [] && turns[0].line.Malformed? ==> WellFormed(turns) == WellFormed(turns[1..])
    ensures turns != [] && !turns[0].line.Malformed? ==>
              WellFormed(turns) != [] && WellFormed(turns)[0] == turns[0]
                && WellFormed(turns)[1..] == WellFormed(turns[1..])
  {
  }

  lemma NothingTaken(stage: Stage, turns: seq<Turn>, expected: Bytes, room: nat)
    requires stage.Over? || turns == [] || turns[0].line.Unreadable?
    ensures Inert(Talk(stage, turns, expected, room), turns, Talk(stage, WellFormed(turns), expected, room))
  {
    WellFormedHead(turns);
  }

  lemma MalformedFirst(turns: seq<Turn>, rest: Transcript, without: Transcript)
    requires turns != [] && turns[0].line.Malformed? && Inert(rest, turns[1..], without)
    ensures Inert(Transcript([Err(turns[0].line.message)] + rest.replies, rest.cancels, rest.end, 1 + rest.taken),
                  turns, without)
  {
    assert turns[..1 + rest.taken][1..] == turns[1..][..rest.taken];
  }

  lemma RequestFirst(turns: seq<Turn>, r: Reaction, rest: Transcript, without: Transcript)
    requires turns != [] && !turns[0].line.Malformed? && Inert(rest, turns[1..], without)
    ensures Inert(Transcript([r.reply] + rest.replies, r.cancels || rest.cancels, rest.end, 1 + rest.taken), turns,
                  Transcript([r.reply] + without.replies, r.cancels || without.cancels, without.end, 1 + without.taken))
  {
    assert turns[..1 + rest.taken][1..] == turns[1..][..rest.taken];
    assert ([r.reply] + without.replies)[1..] == without.replies;
  }

  lemma TalkHead(stage: Stage, turns: seq<Turn>, expected: Bytes, room: nat)
    requires !stage.Over? && turns != [] && !turns[0].line.Unreadable? && room > 0
    ensures var r := React(stage, turns[0], expected);
            var rest := Talk(r.next, turns[1..], expected, room - 1);
            Talk(stage, turns, expected, room)
            == Transcript([r.reply] + rest.replies, r.cancels || rest.cancels, rest.end, 1 + rest.taken)
    ensures turns[0].line.Malformed? ==>
              React(stage, turns[0], expected) == Reaction(stage, Err(turns[0].line.message), false)
  {
  }

  /** With room for a reply to every line it does not matter how much more there is. */
  lemma {:induction false} RoomEnough(stage: Stage, turns: seq<Turn>, expected: Bytes, room: nat, room': nat)
    requires room >= |turns| && room' >= |turns|
    ensures Talk(stage, turns, expected, room) == Talk(stage, turns, expected, room')
    decreases |turns|
  {
    hide React;
    if !stage.Over? && turns != [] && !turns[0].line.Unreadable? {
      RoomEnough(React(stage, turns[0], expected).next, turns[1..], expected, room - 1, room' - 1);
    }
  }

  /** `Talk`, one line at a time. */
  lemma TalkOne(stage: Stage, turns: seq<Turn>, expected: Bytes, room: nat)
    ensures Talk(stage, turns, expected, room)
         == if stage.Over? then Transcript([], false, stage.end, 0)
            else if turns == [] then Transcript([], false, PeerClosed, 0)
            else if turns[0].line.Unreadable? then Transcript([], false, ReadFailed, 0)
            else if room == 0 && !turns[0].line.Malformed? then Transcript([], false, SendFailed, 1)
            else
              var r := React(stage, turns[0], expected);
              var sent := if room == 0 then [] else [r.reply];
              var rest := Talk(r.next, turns[1..], expected, room - |sent|);
              Transcript(sent + rest.replies, r.cancels || rest.cancels, rest.end, 1 + rest.taken)
  {
    hide React;
  }

  // ---- Stopping the engine ---------------------------------------------------

  predicate Harmless(line: Line) {
    line.Good? && (line.request.Auth? || line.request.GetStatus?)
  }

  predicate StopsAt(requests: seq<Turn>, k: nat) {
    k < |requests| && requests[k].line == Good(Stop) && forall j | 0 <= j < k :: Harmless(requests[j].line)
  }

  lemma {:induction false} MemberStops(requests: seq<Turn>, expected: Bytes, room: nat)
    requires room >= |requests| && forall x | x in requests :: !x.line.Malformed?
    ensures Talk(Member, requests, expected, room).cancels <==> exists k: nat :: StopsAt(requests, k)
    decreases |requests|
  {
    if requests == [] {
    } else {
      var head, tail := requests[0], requests[1..];
      if Harmless(head.line) {
        MemberStops(tail, expected, room - 1);
        if k: nat :| StopsAt(tail, k) {
          StopsLater(requests, k);
        }
        if k: nat :| StopsAt(requests, k) {
          StopsLater(requests, k - 1);
        }
      } else if head.line == Good(Stop) {
        assert StopsAt(requests, 0);
      }
    }
  }

  lemma StopsLater(requests: seq<Turn>, k: nat)
    requires requests != []
    ensures StopsAt(requests, k + 1) <==> Harmless(requests[0].line) && StopsAt(requests[1..], k)
  {
    var tail := requests[1..];
    assert forall j | 0 <= j < |tail| :: tail[j] == requests[j + 1];
    if Harmless(requests[0].line) && StopsAt(tail, k) {
      forall j | 0 <= j < k + 1
        ensures Harmless(requests[j].line)
      {
        assert j > 0 ==> requests[j] == tail[j - 1];
      }
    }
  }

  /**
   * Malformed lines aside: the right token first, then nothing but repeated authentications and
   * status queries up to a stop.
   */
  ghost predicate StopRequested(turns: seq<Turn>, expected: Bytes) {
    var g := WellFormed(turns);
    g != [] && g[0].line == Good(Auth(expected)) && exists k: nat :: StopsAt(g[1..], k)
  }

  /** The lines that a peer taking `room` replies can still have answered. */
  function Within(turns: seq<Turn>, room: nat): seq<Turn> {
    if room < |turns| then turns[..room] else turns
  }

  /** A session cancels the engine exactly when a stop is requested in time for its answer to be sent. */
  lemma CancelsIffStopRequested(turns: seq<Turn>, expected: Bytes, room: nat)
    ensures Talk(Guest, turns, expected, room).cancels <==> StopRequested(Within(turns, room), expected)
  {
    var heard := Within(turns, room);
    hide Talk;
    CancelNeedsRoom(Guest, turns, expected, room);
    MalformedLinesAreInert(Guest, heard, expected, room);
    var g := WellFormed(heard);
    TalkOne(Guest, g, expected, room);
    if g != [] && g[0].line == Good(Auth(expected)) {
      MemberStops(g[1..], expected, room - 1);
    } else {
      NotAuthenticated(g, expected, room);
    }
  }

  lemma NotAuthenticated(g: seq<Turn>, expected: Bytes, room: nat)
    requires g == [] || (g[0].line != Good(Auth(expected)) && !g[0].line.Malformed?)
    ensures !Talk(Guest, g, expected, room).cancels
  {
  }

  /** Lines beyond the room for replies never cancel. */
  lemma {:induction false} CancelNeedsRoom(stage: Stage, turns: seq<Turn>, expected: Bytes, room: nat)
    ensures Talk(stage, turns, expected, room).cancels == Talk(stage, Within(turns, room), expected, room).cancels
    decreases |turns|
  {
    var heard := Within(turns, room);
    TalkOne(stage, turns, expected, room);
    TalkOne(stage, heard, expected, room);
    hide Talk;
    if turns == [] || stage.Over? || turns[0].line.Unreadable? || (room == 0 && !turns[0].line.Malformed?) {
      assert heard != [] ==> heard[0] == turns[0];
    } else {
      var next, left := React(stage, turns[0], expected).next, if room == 0 then 0 else room - 1;
      CancelNeedsRoom(next, turns[1..], expected, left);
      if room == 0 {
        TalkOne(next, [], expected, 0);
        assert Within(turns[1..], 0) == [];
      } else {
        assert heard[1..] == Within(turns[1..], left);
      }
    }
  }

  // ---- Which reply to which request ---------------------------------------------

  predicate AllMalformed(turns: seq<Turn>) {
    forall x | x in turns :: x.line.Malformed?
  }

  predicate Ordinary(turns: seq<Turn>) {
    forall x | x in turns :: x.line.Malformed? || Harmless(x.line)
  }

  /** Malformed lines, then the right token, then nothing that ends the session. */
  predicate LoggedIn(turns: seq<Turn>, expected: Bytes) {
    exists k | 0 <= k < |turns| ::
      AllMalformed(turns[..k]) && turns[k].line == Good(Auth(expected)) && Ordinary(turns[k + 1..])
  }

  /** Lines that leave a session in its stage: one reply each, and on it goes. */
  lemma {:induction false} StaysInStage(stage: Stage, a: seq<Turn>, b: seq<Turn>, expected: Bytes, room: nat)
    returns (replies: seq<Reply>)
    requires room >= |a| && if stage.Guest? then AllMalformed(a) else stage.Member? && Ordinary(a)
    ensures |replies| == |a|
    ensures var rest := Talk(stage, b, expected, room - |a|);
            Talk(stage, a + b, expected, room)
            == Transcript(replies + rest.replies, rest.cancels, rest.end, |a| + rest.taken)
    decreases |a|
  {
    hide Talk, React;
    if a == [] {
      replies := [];
      assert a + b == b;
    } else {
      var head, tail := a[0], a[1..];
      Keeps(stage, head, expected);
      assert a + b == [head] + (tail + b);
      var more := StaysInStage(stage, tail, b, expected, room - 1);
      TalkCons(stage, head, tail + b, expected, room);
      replies := [React(stage, head, expected).reply] + more;
      var rest := Talk(stage, b, expected, room - |a|);
      hide AllMalformed, Ordinary;
      assert [React(stage, head, expected).reply] + (more + rest.replies) == replies + rest.replies;
    }
  }

  lemma Keeps(stage: Stage, turn: Turn, expected: Bytes)
    requires turn.line.Malformed? || (stage.Member? && Harmless(turn.line))
    requires !stage.Over?
    ensures React(stage, turn, expected).next == stage && !React(stage, turn, expected).cancels
  {
  }

  lemma TalkCons(stage: Stage, turn: Turn, rest: seq<Turn>, expected: Bytes, room: nat)
    requires !stage.Over? && !turn.line.Unreadable? && room > 0
    ensures var r := React(stage, turn, expected);
            var t := Talk(r.next, rest, expected, room - 1);
            Talk(stage, [turn] + rest, expected, room)
            == Transcript([r.reply] + t.replies, r.cancels || t.cancels, t.end, 1 + t.taken)
  {
    assert ([turn] + rest)[1..] == rest;
    TalkOne(stage, [turn] + rest, expected, room);
    hide Talk, React;
  }

  /** What becomes of a session at line `i`, if it is still there: `t` is what it did in all. */
  predicate GoesOn(t: Transcript, i: nat, reply: Reply, n: nat) {
    && i < t.taken && i < |t.replies| && t.replies[i] == reply
    && (i + 1 == n ==> t.taken == n && t.end == PeerClosed && !t.cancels)
  }

  predicate EndsWith(t: Transcript, i: nat, reply: Reply, end: End, cancels: bool) {
    t.taken == i + 1 == |t.replies| && t.replies[i] == reply && t.end == end && t.cancels == cancels
  }

  /** A failed read or a failed send: no reply any more, nothing cancelled. */
  predicate Breaks(t: Transcript, i: nat, line: Line) {
    && |t.replies| == i && !t.cancels
    && if line.Unreadable? then t.taken == i && t.end == ReadFailed else t.taken == i + 1 && t.end == SendFailed
  }

  /** The first line of a guest that is no nonsense. */
  lemma GuestIsAnswered(turns: seq<Turn>, expected: Bytes, room: nat, i: nat)
    requires i < |turns| && AllMalformed(turns[..i]) && !turns[i].line.Malformed? && room >= i
    ensures var t, line := Talk(Guest, turns, expected, room), turns[i].line;
            if line.Unreadable? || room == i then Breaks(t, i, line)
            else if line == Good(Auth(expected)) then GoesOn(t, i, Ok, |turns|)
            else if line.request.Auth? then EndsWith(t, i, Err("invalid auth token"), Closed, false)
            else EndsWith(t, i, Err("auth required"), Closed, false)
  {
    var a, b := turns[..i], turns[i..];
    assert a + b == turns && b[1..] == turns[i + 1..];
    hide Talk;
    var replies := StaysInStage(Guest, a, b, expected, room);
    AtLine(Guest, b, expected, room - i);
  }

  /** Any later line of a session that has logged in and has not been ended. */
  lemma MemberIsAnswered(turns: seq<Turn>, expected: Bytes, room: nat, i: nat)
    requires i < |turns| && LoggedIn(turns[..i], expected) && !turns[i].line.Malformed? && room >= i
    ensures var t, line := Talk(Guest, turns, expected, room), turns[i].line;
            if line.Unreadable? || room == i then Breaks(t, i, line)
            else
              match line.request
              case Auth(_) => GoesOn(t, i, Err("already authenticated"), |turns|)
              case GetStatus => GoesOn(t, i, StatusReply(turns[i].status), |turns|)
              case SubscribeLogs => EndsWith(t, i, Log("log stream up"), Streaming, false)
              case Stop => EndsWith(t, i, Ok, Closed, true)
  {
    var a, b := turns[..i], turns[i..];
    assert a + b == turns && b[1..] == turns[i + 1..];
    hide Talk;
    var replies := LogsIn(a, b, expected, room);
    AtLine(Member, b, expected, room - i);
  }

  lemma LogsIn(a: seq<Turn>, b: seq<Turn>, expected: Bytes, room: nat) returns (replies: seq<Reply>)
    requires LoggedIn(a, expected) && room >= |a|
    ensures |replies| == |a|
    ensures var rest := Talk(Member, b, expected, room - |a|);
            Talk(Guest, a + b, expected, room)
            == Transcript(replies + rest.replies, rest.cancels, rest.end, |a| + rest.taken)
  {
    hide Talk, AllMalformed, Ordinary, LoggedIn;
    var before, login, after := SplitAtLogin(a, expected);
    replies := LogsInAt(before, login, after, b, expected, room);
    assert (before + ([login] + after)) + b == before + ([login] + (after + b));
  }

  lemma SplitAtLogin(a: seq<Turn>, expected: Bytes) returns (before: seq<Turn>, login: Turn, after: seq<Turn>)
    requires LoggedIn(a, expected)
    ensures a == before + ([login] + after)
    ensures AllMalformed(before) && login.line == Good(Auth(expected)) && Ordinary(after)
  {
    var k :| 0 <= k < |a|
             && AllMalformed(a[..k]) && a[k].line == Good(Auth(expected)) && Ordinary(a[k + 1..]);
    hide AllMalformed, Ordinary;
    before, login, after := a[..k], a[k], a[k + 1..];
  }

  lemma LogsInAt(before: seq<Turn>, login: Turn, after: seq<Turn>, b: seq<Turn>, expected: Bytes, room: nat)
    returns (replies: seq<Reply>)
    requires AllMalformed(before) && login.line == Good(Auth(expected)) && Ordinary(after)
    requires room >= |before| + 1 + |after|
    ensures |replies| == |before| + 1 + |after|
    ensures var rest := Talk(Member, b, expected, room - |replies|);
            Talk(Guest, before + ([login] + (after + b)), expected, room)
            == Transcript(replies + rest.replies, rest.cancels, rest.end, |replies| + rest.taken)
  {
    assert React(Guest, login, expected) == Reaction(Member, Ok, false);
    hide Talk, React, AllMalformed, Ordinary;
    var first := StaysInStage(Guest, before, [login] + (after + b), expected, room);
    TalkCons(Guest, login, after + b, expected, room - |before|);
    var second := StaysInStage(Member, after, b, expected, room - |before| - 1);
    replies := first + ([Ok] + second);
    var rest := Talk(Member, b, expected, room - |replies|);
    assert first + ([Ok] + (second + rest.replies)) == replies + rest.replies;
  }

  /** The automaton's own next move, in the words of the source. */
  lemma AtLine(stage: Stage, b: seq<Turn>, expected: Bytes, room: nat)
    requires !stage.Over? && b != [] && !b[0].line.Malformed?
    ensures var t, line := Talk(stage, b, expected, room), b[0].line;
            if line.Unreadable? || room == 0 then Breaks(t, 0, line)
            else if stage.Guest? then
              if line == Good(Auth(expected)) then GoesOn(t, 0, Ok, |b|)
              else if line.request.Auth? then EndsWith(t, 0, Err("invalid auth token"), Closed, false)
              else EndsWith(t, 0, Err("auth required"), Closed, false)
            else
              match line.request
              case Auth(_) => GoesOn(t, 0, Err("already authenticated"), |b|)
              case GetStatus => GoesOn(t, 0, StatusReply(b[0].status), |b|)
              case SubscribeLogs => EndsWith(t, 0, Log("log stream up"), Streaming, false)
              case Stop => EndsWith(t, 0, Ok, Closed, true)
  {
    TalkOne(stage, b, expected, room);
    if !b[0].line.Unreadable? && room > 0 {
      TalkOne(React(stage, b[0], expected).next, b[1..], expected, room - 1);
    }
    hide Talk;
  }

  // ---- The process -----------------------------------------------------------

  /** What one engine shares with the sessions of its server. */
  datatype Shared = Shared(status: Status, cancelled: bool)

  /** One connection between two lines; `expected` is the token it read when it began. */
  datatype Session = Session(
    engine: nat,
    expected: Bytes,
    room: nat,
    stage: Stage,
    replies: seq<Reply>,
    cancels: bool,
    taken: nat)
  {
    /** What the session has done, were its peer to close now. */
    function SoFar(): Transcript {
      Transcript(replies, cancels, if stage.Over? then stage.end else PeerClosed, taken)
    }
  }

  /** The process: its token, the engines it has started, and all their sessions. */
  datatype World = World(token: Bytes, engines: seq<Shared>, sessions: map<nat, Session>)

  datatype Happening =
    | ServerStarts(token: Bytes, status: Status)  // an engine's IPC server comes up and rotates the token
    | Rotates(token: Bytes)
    | StatusChanges(engine: nat, status: Status)
    | CancelledElsewhere(engine: nat)
    | Begins(id: nat, engine: nat, room: nat)     // a client's task starts and reads the token
    | Arrives(id: nat, line: Line)

  /** The task of one session handles a line. */
  function HandleLine(s: Session, turn: Turn): Session {
    if s.stage.Over? then s
    else if turn.line.Unreadable? then s.(stage := Over(ReadFailed))
    else if |s.replies| >= s.room && !turn.line.Malformed? then s.(stage := Over(SendFailed), taken := s.taken + 1)
    else
      var r := React(s.stage, turn, s.expected);
      s.(stage := r.next, replies := if |s.replies| >= s.room then s.replies else s.replies + [r.reply],
         cancels := s.cancels || r.cancels, taken := s.taken + 1)
  }

  function Step(w: World, e: Happening): World {
    match e
    case ServerStarts(token, status) => w.(token := token, engines := w.engines + [Shared(status, false)])
    case Rotates(token) => w.(token := token)
    case StatusChanges(g, status) =>
      if g < |w.engines| then w.(engines := w.engines[g := w.engines[g].(status := status)]) else w
    case CancelledElsewhere(g) =>
      if g < |w.engines| then w.(engines := w.engines[g := w.engines[g].(cancelled := true)]) else w
    case Begins(id, g, room) =>
      if id in w.sessions || g >= |w.engines| then w
      else w.(sessions := w.sessions[id := Session(g, w.token, room, Guest, [], false, 0)])
    case Arrives(id, line) =>
      if id !in w.sessions || w.sessions[id].engine >= |w.engines| then w
      else
        var g := w.sessions[id].engine;
        var s := HandleLine(w.sessions[id], Turn(line, w.engines[g].status));
        w.(sessions := w.sessions[id := s],
           engines := if s.cancels then w.engines[g := w.engines[g].(cancelled := true)] else w.engines)
  }

  function Run(token: Bytes, events: seq<Happening>): World {
    if events == [] then World(token, [], map[])
    else Step(Run(token, events[..|events| - 1]), events[|events| - 1])
  }

  // What a reader of the history alone can say, without looking at any session:

  /** The process token after a history that began with `token`. */
  function TokenIn(token: Bytes, events: seq<Happening>): Bytes {
    if events == [] then token
    else
      match events[|events| - 1]
      case ServerStarts(t, _) => t
      case Rotates(t) => t
      case _ => TokenIn(token, events[..|events| - 1])
  }

  /** The statuses of the engines started so far. */
  function StatusesIn(events: seq<Happening>): seq<Status> {
    if events == [] then []
    else
      var before := StatusesIn(events[..|events| - 1]);
      match events[|events| - 1]
      case ServerStarts(_, status) => before + [status]
      case StatusChanges(g, status) => if g < |before| then before[g := status] else before
      case _ => before
  }

  /** How session `id` began: its engine, the token in force at that moment, and its peer's room. */
  datatype Opening = Opening(engine: nat, expected: Bytes, room: nat)

  function OpeningIn(token: Bytes, events: seq<Happening>, id: nat): Option<Opening> {
    if events == [] then None
    else
      var rest, e := events[..|events| - 1], events[|events| - 1];
      var before := OpeningIn(token, rest, id);
      if before.None? && e.Begins? && e.id == id && e.engine < |StatusesIn(rest)|
      then Some(Opening(e.engine, TokenIn(token, rest), e.room))
      else before
  }

  /** The lines of session `id`, each with its engine's status at that moment. */
  function TurnsIn(token: Bytes, events: seq<Happening>, id: nat): seq<Turn> {
    if events == [] then []
    else
      var rest, e := events[..|events| - 1], events[|events| - 1];
      var before, opening := TurnsIn(token, rest, id), OpeningIn(token, rest, id);
      if e.Arrives? && e.id == id && opening.Some? && opening.value.engine < |StatusesIn(rest)|
      then before + [Turn(e.line, StatusesIn(rest)[opening.value.engine])]
      else before
  }

  predicate CancelledOutside(events: seq<Happening>, g: nat) {
    events != [] &&
    (CancelledOutside(events[..|events| - 1], g)
     || (events[|events| - 1] == CancelledElsewhere(g) && g < |StatusesIn(events[..|events| - 1])|))
  }

  // ---- What the world shares -------------------------------------------------

  lemma {:induction false} RunFollowsHistory(token: Bytes, events: seq<Happening>)
    ensures var w, statuses := Run(token, events), StatusesIn(events);
            && w.token == TokenIn(token, events) && |w.engines| == |statuses|
            && forall g | 0 <= g < |statuses| :: w.engines[g].status == statuses[g]
  {
    if events == [] {
    } else {
      var rest := events[..|events| - 1];
      RunFollowsHistory(token, rest);
      hide HandleLine;
    }
  }

  /** One happening as session `id` sees it. */
  lemma SessionStep(w: World, e: Happening, id: nat)
    ensures var w' := Step(w, e);
            if id !in w.sessions then
              id in w'.sessions ==>
                e.Begins? && e.id == id && w'.sessions[id] == Session(e.engine, w.token, e.room, Guest, [], false, 0)
            else
              var g := w.sessions[id].engine;
              && id in w'.sessions
              && w'.sessions[id] == if e.Arrives? && e.id == id && g < |w.engines|
                                    then HandleLine(w.sessions[id], Turn(e.line, w.engines[g].status))
                                    else w.sessions[id]
  {
    hide HandleLine;
  }

  /** A session is there exactly if the history opens it, and keeps the engine, token and room of its opening. */
  ghost predicate Seated(w: World, id: nat, o: Option<Opening>) {
    if id !in w.sessions then o.None?
    else
      var s := w.sessions[id];
      o == Some(Opening(s.engine, s.expected, s.room)) && s.engine < |w.engines| && |s.replies| <= s.room
  }

  lemma {:induction false} SessionFollowsHistory(token: Bytes, events: seq<Happening>, id: nat)
    ensures Seated(Run(token, events), id, OpeningIn(token, events, id))
  {
    if events == [] {
    } else {
      var rest, e := events[..|events| - 1], events[|events| - 1];
      SessionFollowsHistory(token, rest, id);
      RunFollowsHistory(token, rest);
      SeatStays(Run(token, rest), e, id, OpeningIn(token, rest, id));
      hide Step, Seated;
    }
  }

  lemma SeatStays(w: World, e: Happening, id: nat, before: Option<Opening>)
    requires Seated(w, id, before)
    ensures Seated(Step(w, e), id,
                   if before.None? && e.Begins? && e.id == id && e.engine < |w.engines|
                   then Some(Opening(e.engine, w.token, e.room)) else before)
  {
    SessionStep(w, e, id);
    hide React;
  }

  // ---- Every session is the automaton's --------------------------------------

  /** What a session has done, continued by `turns`. */
  function Onward(s: Session, turns: seq<Turn>): Transcript {
    var rest := Talk(s.stage, turns, s.expected, if |s.replies| <= s.room then s.room - |s.replies| else 0);
    Transcript(s.replies + rest.replies, s.cancels || rest.cancels, rest.end, s.taken + rest.taken)
  }

  lemma LineThenRest(s: Session, turn: Turn, more: seq<Turn>)
    requires |s.replies| <= s.room
    ensures Onward(HandleLine(s, turn), more) == Onward(s, [turn] + more)
  {
    hide Talk, React;
    var room, turns := s.room - |s.replies|, [turn] + more;
    assert turns[1..] == more;
    TalkOne(s.stage, turns, s.expected, room);
    var s' := HandleLine(s, turn);
    if s'.stage.Over? {
      TalkOne(s'.stage, more, s'.expected, s'.room - |s'.replies|);
    }
    if !s.stage.Over? && !turn.line.Unreadable? && room > 0 {
      var r := React(s.stage, turn, s.expected);
      assert (s.replies + [r.reply]) + Talk(r.next, more, s.expected, room - 1).replies
          == s.replies + ([r.reply] + Talk(r.next, more, s.expected, room - 1).replies);
    }
  }

  lemma {:induction false} UnopenedIsSilent(token: Bytes, events: seq<Happening>, id: nat)
    requires OpeningIn(token, events, id).None?
    ensures TurnsIn(token, events, id) == []
  {
    if events == [] {
    } else {
      UnopenedIsSilent(token, events[..|events| - 1], id);
    }
  }

  /**
   * In every run, session `id` with any continuation is the automaton on all its lines, against the
   * token of its beginning.
   */
  lemma {:induction false} SessionIsTalk(token: Bytes, events: seq<Happening>, id: nat, more: seq<Turn>)
    requires OpeningIn(token, events, id).Some?
    ensures id in Run(token, events).sessions
    ensures var o := OpeningIn(token, events, id).value;
            Onward(Run(token, events).sessions[id], more)
            == Talk(Guest, TurnsIn(token, events, id) + more, o.expected, o.room)
    decreases |events|
  {
    var rest, e := events[..|events| - 1], events[|events| - 1];
    var w, before := Run(token, rest), OpeningIn(token, rest, id);
    SessionFollowsHistory(token, events, id);
    SessionFollowsHistory(token, rest, id);
    RunFollowsHistory(token, rest);
    SessionStep(w, e, id);
    TurnsStep(token, events, id);
    assert Run(token, events) == Step(w, e);
    hide Run, Step, HandleLine, Talk, Onward, React, TokenIn, OpeningIn, TurnsIn;
    if before.None? {
      UnopenedIsSilent(token, rest, id);
      SessionBegins(Run(token, events).sessions[id], more);
      assert TurnsIn(token, events, id) + more == more;
    } else {
      var s := w.sessions[id];
      if e.Arrives? && e.id == id {
        var turn := Turn(e.line, w.engines[s.engine].status);
        SessionIsTalk(token, rest, id, [turn] + more);
        LineThenRest(s, turn, more);
        assert TurnsIn(token, events, id) + more == TurnsIn(token, rest, id) + ([turn] + more);
      } else {
        SessionIsTalk(token, rest, id, more);
      }
    }
  }

  /** One happening as the history of session `id` records it. */
  lemma TurnsStep(token: Bytes, events: seq<Happening>, id: nat)
    requires events != []
    ensures var rest, e := events[..|events| - 1], events[|events| - 1];
            var before := OpeningIn(token, rest, id);
            && (before.Some? ==> OpeningIn(token, events, id) == before)
            && TurnsIn(token, events, id)
               == if e.Arrives? && e.id == id && before.Some? && before.value.engine < |StatusesIn(rest)|
                  then TurnsIn(token, rest, id) + [Turn(e.line, StatusesIn(rest)[before.value.engine])]
                  else TurnsIn(token, rest, id)
  {
    hide TokenIn, StatusesIn;
  }

  lemma SessionBegins(s: Session, turns: seq<Turn>)
    requires s.stage == Guest && s.replies == [] && !s.cancels && s.taken == 0
    ensures Onward(s, turns) == Talk(Guest, turns, s.expected, s.room)
  {
    hide Talk;
  }

  /**
   * However sessions, status changes, rotations, cancels and new engines interleave, what a session has done is the
   * automaton's transcript on its own lines, each with its own engine's status at that moment, against the token that
   * the process had when the session began.
   */
  lemma EverySessionIsTalk(token: Bytes, events: seq<Happening>, id: nat)
    ensures id in Run(token, events).sessions <==> OpeningIn(token, events, id).Some?
    ensures id in Run(token, events).sessions ==>
              var o := OpeningIn(token, events, id).value;
              Run(token, events).sessions[id].SoFar() == Talk(Guest, TurnsIn(token, events, id), o.expected, o.room)
  {
    SessionFollowsHistory(token, events, id);
    hide Run, Talk;
    if id in Run(token, events).sessions {
      var s, turns := Run(token, events).sessions[id], TurnsIn(token, events, id);
      SessionIsTalk(token, events, id, []);
      assert turns + [] == turns;
      TalkOne(s.stage, [], s.expected, s.room - |s.replies|);
    }
  }

  // ---- Which engines the sessions cancel -------------------------------------

  ghost predicate CancelledBySession(w: World, g: nat) {
    exists id | id in w.sessions :: w.sessions[id].engine == g && w.sessions[id].cancels
  }

  /** A session of engine `g` asks for the stop with this line, or did so before. */
  predicate CancelsNow(w: World, e: Happening, g: nat) {
    e.Arrives? && e.id in w.sessions && w.sessions[e.id].engine == g < |w.engines|
    && HandleLine(w.sessions[e.id], Turn(e.line, w.engines[g].status)).cancels
  }

  lemma CancelStep(w: World, e: Happening, g: nat)
    requires g < |w.engines|
    ensures var w' := Step(w, e);
            && g < |w'.engines|
            && (w'.engines[g].cancelled
                <==> w.engines[g].cancelled || e == CancelledElsewhere(g) || CancelsNow(w, e, g))
  {
    hide HandleLine;
  }

  lemma CancelledByStep(w: World, e: Happening, g: nat)
    requires forall id | id in w.sessions :: w.sessions[id].engine < |w.engines|
    ensures CancelledBySession(Step(w, e), g) <==> CancelledBySession(w, g) || CancelsNow(w, e, g)
  {
    var w' := Step(w, e);
    if CancelledBySession(w, g) {
      var id :| id in w.sessions && w.sessions[id].engine == g && w.sessions[id].cancels;
      SessionStep(w, e, id);
      assert w'.sessions[id].engine == g && w'.sessions[id].cancels;
    }
    if CancelsNow(w, e, g) {
      assert w'.sessions[e.id].engine == g && w'.sessions[e.id].cancels;
    }
    if CancelledBySession(w', g) {
      var id :| id in w'.sessions && w'.sessions[id].engine == g && w'.sessions[id].cancels;
      SessionStep(w, e, id);
    }
  }

  lemma {:induction false} CancelledInv(token: Bytes, events: seq<Happening>, g: nat)
    ensures var w := Run(token, events);
            if g < |w.engines| then w.engines[g].cancelled <==> CancelledOutside(events, g) || CancelledBySession(w, g)
            else !CancelledOutside(events, g) && !CancelledBySession(w, g)
  {
    if events == [] {
    } else {
      var rest, e := events[..|events| - 1], events[|events| - 1];
      var w := Run(token, rest);
      RunFollowsHistory(token, rest);
      forall id | id in w.sessions
        ensures w.sessions[id].engine < |w.engines|
      {
        SessionFollowsHistory(token, rest, id);
      }
      CancelledInv(token, rest, g);
      CancelledByStep(w, e, g);
      if g < |w.engines| {
        CancelStep(w, e, g);
        hide Step;
      }
      hide HandleLine, StatusesIn, CancelledBySession;
    }
  }

  /** Session `id` of engine `g` is asked for the stop: with the token of its beginning, and in time to be answered. */
  ghost predicate AskedToStop(token: Bytes, events: seq<Happening>, id: nat, g: nat) {
    var o := OpeningIn(token, events, id);
    o.Some? && o.value.engine == g && StopRequested(Within(TurnsIn(token, events, id), o.value.room), o.value.expected)
  }

  lemma AskedIffCancels(token: Bytes, events: seq<Happening>, id: nat, g: nat)
    ensures var w := Run(token, events);
            AskedToStop(token, events, id, g)
            <==> id in w.sessions && w.sessions[id].engine == g && w.sessions[id].cancels
  {
    SessionFollowsHistory(token, events, id);
    EverySessionIsTalk(token, events, id);
    hide Run, Talk, StopRequested, Within, TurnsIn, OpeningIn;
    var o := OpeningIn(token, events, id);
    if o.Some? {
      CancelsIffStopRequested(TurnsIn(token, events, id), o.value.expected, o.value.room);
      assert Run(token, events).sessions[id].SoFar().cancels == Run(token, events).sessions[id].cancels;
    }
  }

  /**
   * An engine is cancelled exactly if something other than its sessions cancelled it, or some session of that very
   * engine was asked to stop it, with the token in force when that session began and in time to be answered.
   */
  lemma EngineCancelledIff(token: Bytes, events: seq<Happening>, g: nat)
    requires g < |Run(token, events).engines|
    ensures Run(token, events).engines[g].cancelled
       <==> CancelledOutside(events, g) || exists id :: AskedToStop(token, events, id, g)
  {
    CancelledInv(token, events, g);
    hide Run, CancelledOutside, AskedToStop;
    forall id
      ensures var w := Run(token, events);
              AskedToStop(token, events, id, g)
              <==> id in w.sessions && w.sessions[id].engine == g && w.sessions[id].cancels
    {
      AskedIffCancels(token, events, id, g);
    }
  }
}
