/** The long-polling transport: one pending request at a time, answered with a payload. */
module PollingTransport {
  import opened Packets
  import opened Transport
  import Parser

  /** How a polling request ended: a payload, a 400 for an overlap, or a rejection after the timeout. */
  datatype Settlement =
    | Answered(poll: nat, packets: seq<Packet>)
    | Refused(poll: nat)
    | TimedOut(poll: nat)

  /**
   * The abstract value of a transport. Requests are numbered in order of arrival.
   * `timers` holds the live poll timeouts, `handlers` the requests with an abort handler
   * (every one but those refused) and `settled` what was answered, in order; `released`
   * records the polls that were pending when their own client gave up.
   */
  datatype State = State(
    writable: bool,
    readyState: ReadyState,
    pending: Option<nat>,
    timers: set<nat>,
    handlers: set<nat>,
    polls: nat,
    settled: seq<Settlement>,
    released: set<nat>)

  const Created := State(false, OPEN, None, {}, {}, 0, [], {})

  /** The request becomes the pending one. */
  function Accept(p: State): State {
    p.(pending := Some(p.polls), timers := p.timers + {p.polls}, handlers := p.handlers + {p.polls},
       polls := p.polls + 1, writable := true)
  }

  /** The request overlaps the pending one. */
  function Refuse(p: State): State {
    p.(polls := p.polls + 1, settled := p.settled + [Refused(p.polls)])
  }

  function Send(p: State, packets: seq<Packet>): State {
    match p.pending
    case None => p.(writable := false)
    case Some(poll) =>
      p.(writable := false, pending := None, timers := p.timers - {poll},
         settled := p.settled + [Answered(poll, packets)])
  }

  /** The timer of request `poll` fires. It gives up on whichever poll is pending. */
  function Expire(p: State, poll: nat): State {
    if poll !in p.timers then p
    else
      var p1 := p.(timers := p.timers - {poll});
      if p.pending.None? then p1
      else p1.(pending := None, writable := false, settled := p.settled + [TimedOut(poll)])
  }

  predicate ExpiryIsError(p: State, poll: nat) {
    poll in p.timers && p.pending.Some?
  }

  /** The client of request `poll` goes away. The handler drops whichever poll is pending. */
  function Abort(p: State, poll: nat): State {
    if !AbortIsError(p, poll) then p
    else
      var current := p.pending.value;
      p.(pending := None, timers := p.timers - {current}, writable := false,
         released := if poll == current then p.released + {poll} else p.released)
  }

  predicate AbortIsError(p: State, poll: nat) {
    poll in p.handlers && p.pending.Some?
  }

  function DoClose(p: State): State {
    var p1 :=
      if p.writable then Send(p, [Packet(if p.readyState == CLOSING then Close else Noop, None)])
      else if p.pending.Some? then p.(timers := p.timers - {p.pending.value}, pending := None)
      else p;
    p1.(readyState := CLOSED)
  }

  function Shut(p: State): State {
    if p.readyState == CLOSING || p.readyState == CLOSED then p
    else DoClose(p.(readyState := CLOSING))
  }

  // ----- one poll at a time -----

  datatype Op =
    | OpArrive
    | OpSend(packets: seq<Packet>)
    | OpExpire(poll: nat)
    | OpAbort(poll: nat)
    | OpDoClose
    | OpClose

  function Apply(p: State, op: Op): State {
    match op
    case OpArrive => if p.pending.Some? then Refuse(p) else Accept(p)
    case OpSend(ps) => Send(p, ps)
    case OpExpire(n) => Expire(p, n)
    case OpAbort(n) => Abort(p, n)
    case OpDoClose => DoClose(p)
    case OpClose => Shut(p)
  }

  function Run(p: State, ops: seq<Op>): State
    decreases |ops|
  {
    if ops == [] then p else Run(Apply(p, ops[0]), ops[1..])
  }

  predicate Settles(settled: seq<Settlement>, poll: nat) {
    settled != [] && (settled[|settled| - 1].poll == poll || Settles(settled[..|settled| - 1], poll))
  }

  /** No poll is settled twice, and only polls that arrived are. */
  predicate SettledOnce(settled: seq<Settlement>, polls: nat) {
    settled == [] ||
    var last, before := settled[|settled| - 1], settled[..|settled| - 1];
    last.poll < polls && !Settles(before, last.poll) && SettledOnce(before, polls)
  }

  /** Writable exactly while a poll is pending, and only that poll has a live timeout. */
  ghost predicate Inv(p: State) {
    && SettledOnce(p.settled, p.polls)
    && (p.writable <==> p.pending.Some?)
    && p.timers == (if p.pending.Some? then {p.pending.value} else {})
    && (p.pending.Some? ==> p.pending.value < p.polls && !Settles(p.settled, p.pending.value))
    && (forall poll | poll in p.released :: poll < p.polls && p.pending != Some(poll) && !Settles(p.settled, poll))
  }

  lemma SettlesAppend(settled: seq<Settlement>, last: Settlement)
    ensures forall poll :: Settles(settled + [last], poll) <==> Settles(settled, poll) || poll == last.poll
    ensures forall polls :: SettledOnce(settled + [last], polls) <==>
                            SettledOnce(settled, polls) && last.poll < polls && !Settles(settled, last.poll)
  {
    assert (settled + [last])[..|settled|] == settled;
  }

  lemma {:induction false} SettledBelow(settled: seq<Settlement>, polls: nat, poll: nat)
    requires SettledOnce(settled, polls) && Settles(settled, poll)
    ensures poll < polls
  {
    if settled[|settled| - 1].poll != poll {
      SettledBelow(settled[..|settled| - 1], polls, poll);
    }
  }

  lemma {:induction false} OneMorePoll(settled: seq<Settlement>, polls: nat)
    requires SettledOnce(settled, polls)
    ensures SettledOnce(settled, polls + 1) && !Settles(settled, polls)
  {
    if settled != [] {
      OneMorePoll(settled[..|settled| - 1], polls);
    }
  }

  lemma SendKeepsInv(p: State, ps: seq<Packet>)
    requires Inv(p)
    ensures Inv(Send(p, ps))
  {
    if p.pending.Some? {
      SettlesAppend(p.settled, Answered(p.pending.value, ps));
    }
  }

  lemma DoCloseKeepsInv(p: State)
    requires Inv(p)
    ensures Inv(DoClose(p))
  {
    if p.writable {
      SendKeepsInv(p, [Packet(if p.readyState == CLOSING then Close else Noop, None)]);
    }
  }

  lemma ArriveKeepsInv(p: State)
    requires Inv(p)
    ensures Inv(Apply(p, OpArrive))
  {
    OneMorePoll(p.settled, p.polls);
    SettlesAppend(p.settled, Refused(p.polls));
  }

  lemma ExpireKeepsInv(p: State, poll: nat)
    requires Inv(p)
    ensures Inv(Expire(p, poll))
  {
    if ExpiryIsError(p, poll) {
      SettlesAppend(p.settled, TimedOut(poll));
    }
  }

  lemma ApplyKeepsInv(p: State, op: Op)
    requires Inv(p)
    ensures Inv(Apply(p, op))
  {
    match op
    case OpArrive => ArriveKeepsInv(p);
    case OpSend(ps) => SendKeepsInv(p, ps);
    case OpExpire(n) => ExpireKeepsInv(p, n);
    case OpAbort(n) =>
    case OpDoClose => DoCloseKeepsInv(p);
    case OpClose => DoCloseKeepsInv(p.(readyState := CLOSING));
  }

  /** The polls of two settlements differ. */
  lemma {:induction false} SettledOnceMeansOnce(settled: seq<Settlement>, polls: nat, i: nat, j: nat)
    requires SettledOnce(settled, polls) && i < j < |settled|
    ensures settled[i].poll != settled[j].poll
  {
    var before := settled[..|settled| - 1];
    if j < |before| {
      SettledOnceMeansOnce(before, polls, i, j);
      assert before[i] == settled[i] && before[j] == settled[j];
    } else {
      SettledIsSettles(before, i);
    }
  }

  lemma {:induction false} SettledIsSettles(settled: seq<Settlement>, i: nat)
    requires i < |settled|
    ensures Settles(settled, settled[i].poll)
  {
    if i < |settled| - 1 {
      SettledIsSettles(settled[..|settled| - 1], i);
    }
  }

  /** The invariant holds throughout every run. */
  lemma {:induction false} RunKeepsInv(p: State, ops: seq<Op>)
    requires Inv(p)
    ensures Inv(Run(p, ops))
    decreases |ops|
  {
    if ops != [] {
      ApplyKeepsInv(p, ops[0]);
      RunKeepsInv(Apply(p, ops[0]), ops[1..]);
    }
  }

  // ----- which polls are left hanging -----

  /** The client is still there, but nobody will ever answer it. */
  predicate Forgotten(p: State, poll: nat) {
    poll < p.polls && p.pending != Some(poll) && poll !in p.released && !Settles(p.settled, poll)
  }

  ghost predicate SomeForgotten(p: State) {
    exists poll: nat :: Forgotten(p, poll)
  }

  /** The abort of a request that was accepted earlier reaches the pending poll of another. */
  predicate Stale(p: State, op: Op) {
    op.OpAbort? && op.poll in p.handlers && p.pending.Some? && p.pending.value != op.poll
  }

  /** A step forgets a poll exactly when it is a stale abort, and then the pending one. */
  lemma StepForgets(p: State, op: Op, poll: nat)
    requires Inv(p)
    ensures Forgotten(Apply(p, op), poll) <==> Forgotten(p, poll) || (Stale(p, op) && p.pending == Some(poll))
  {
    var p' := Apply(p, op);
    if |p'.settled| > |p.settled| {
      assert p'.settled == p.settled + [p'.settled[|p.settled|]];
      SettlesAppend(p.settled, p'.settled[|p.settled|]);
    } else {
      assert p'.settled == p.settled;
    }
  }

  /** Some step of the run is a stale abort. */
  predicate HasStaleAbort(p: State, ops: seq<Op>)
    decreases |ops|
  {
    ops != [] && (Stale(p, ops[0]) || HasStaleAbort(Apply(p, ops[0]), ops[1..]))
  }

  lemma {:induction false} ForgottenStays(p: State, ops: seq<Op>, poll: nat)
    requires Inv(p) && Forgotten(p, poll)
    ensures Forgotten(Run(p, ops), poll)
    decreases |ops|
  {
    if ops != [] {
      ApplyKeepsInv(p, ops[0]);
      StepForgets(p, ops[0], poll);
      ForgottenStays(Apply(p, ops[0]), ops[1..], poll);
    }
  }

  lemma {:induction false} RunForgets(p: State, ops: seq<Op>)
    requires Inv(p)
    requires !SomeForgotten(p)
    ensures SomeForgotten(Run(p, ops)) <==> HasStaleAbort(p, ops)
    decreases |ops|
  {
    if ops != [] {
      var p' := Apply(p, ops[0]);
      ApplyKeepsInv(p, ops[0]);
      if Stale(p, ops[0]) {
        StepForgets(p, ops[0], p.pending.value);
        ForgottenStays(p', ops[1..], p.pending.value);
        assert Run(p, ops) == Run(p', ops[1..]);
        assert Forgotten(Run(p, ops), p.pending.value);
        assert HasStaleAbort(p, ops);
      } else {
        forall poll: nat
          ensures !Forgotten(p', poll)
        {
          StepForgets(p, ops[0], poll);
        }
        RunForgets(p', ops[1..]);
      }
    }
  }

  /**
   * Over all runs: every poll is pending, settled once, or dropped by its own client,
   * exactly when no abort handler fired for a request other than the pending one.
   */
  lemma EveryPollSettledUnlessStaleAbort(ops: seq<Op>)
    ensures Inv(Run(Created, ops))
    ensures var settled := Run(Created, ops).settled;
            forall i, j | 0 <= i < j < |settled| :: settled[i].poll != settled[j].poll
    ensures SomeForgotten(Run(Created, ops)) <==> HasStaleAbort(Created, ops)
  {
    RunKeepsInv(Created, ops);
    RunForgets(Created, ops);
    var p := Run(Created, ops);
    forall i, j | 0 <= i < j < |p.settled|
      ensures p.settled[i].poll != p.settled[j].poll
    {
      SettledOnceMeansOnce(p.settled, p.polls, i, j);
    }
  }

  /** An answered request whose abort arrives late takes the next poll with it. */
  lemma StaleAbortExample()
    ensures var message := Packet(Message, Some(Text("hello")));
            Forgotten(Run(Created, [OpArrive, OpSend([message]), OpArrive, OpAbort(0)]), 1)
  {
    var message := Packet(Message, Some(Text("hello")));
    var ops := [OpArrive, OpSend([message]), OpArrive, OpAbort(0)];
    var p1 := Accept(Created);
    var p2 := Send(p1, [message]);
    var p3 := Accept(p2);
    var p4 := Abort(p3, 0);
    assert p4.settled == [Answered(0, [message])];
    assert ops[1..] == [OpSend([message]), OpArrive, OpAbort(0)] && ops[1..][1..] == [OpArrive, OpAbort(0)];
    assert ops[1..][1..][1..] == [OpAbort(0)] && ops[1..][1..][1..][1..] == [];
    assert Run(Created, ops) == Run(p1, ops[1..]) == Run(p2, ops[1..][1..]) == Run(p3, ops[1..][1..][1..]);
    assert Run(p3, [OpAbort(0)]) == Run(p4, []) == p4;
  }

  // ----- the transport object -----

  /** The HTTP replies, as the clients see them. */
  datatype Reply =
    | Ok(poll: nat, body: string)
    | BadRequest(poll: nat)
    | Rejected(poll: nat)

  function ReplyTo(s: Settlement): Reply {
    match s
    case Answered(poll, ps) => Ok(poll, Parser.Payload(ps))
    case Refused(poll) => BadRequest(poll)
    case TimedOut(poll) => Rejected(poll)
  }

  class Polling {
    var writable: bool
    var readyState: ReadyState
    var pollingPromise: Option<nat>
    var timers: set<nat>
    var handlers: set<nat>
    var polls: nat
    var replies: seq<Reply>
    ghost var settled: seq<Settlement>
    ghost var released: set<nat>

    /** The replies sent are the encodings of the settlements. */
    ghost predicate Valid()
      reads this
    {
      && |replies| == |settled|
      && forall i | 0 <= i < |replies| :: replies[i] == ReplyTo(settled[i])
    }

    ghost function Abs(): State
      reads this
    {
      State(writable, readyState, pollingPromise, timers, handlers, polls, settled, released)
    }

    constructor ()
      ensures Valid() && Abs() == Created
    {
      writable, readyState, pollingPromise := false, OPEN, None;
      timers, handlers, polls, replies := {}, {}, 0, [];
      settled, released := [], {};
    }

    /** A poll finds none pending: true, and a "drain" event is due. An overlap: an "error" event is due. */
    method OnPollRequest() returns (accepted: bool)
      requires Valid()
      modifies this
      ensures Valid() && accepted == old(Abs()).pending.None?
      ensures Abs() == if accepted then Accept(old(Abs())) else old(Abs())
    {
      if pollingPromise.Some? {
        return false;
      }
      timers := timers + {polls};
      pollingPromise := Some(polls);
      handlers := handlers + {polls};
      polls := polls + 1;
      writable := true;
      return true;
    }

    /** The 400 that goes out after the overlap was reported. */
    method RefuseOverlap()
      requires Valid()
      modifies this
      ensures Valid() && Abs() == Refuse(old(Abs()))
    {
      replies := replies + [BadRequest(polls)];
      settled := settled + [Refused(polls)];
      polls := polls + 1;
    }

    /** The timeout callback; true when an "error" event is due. */
    method OnPollTimeout(poll: nat) returns (error: bool)
      requires Valid()
      modifies this
      ensures Valid() && error == ExpiryIsError(old(Abs()), poll) && Abs() == Expire(old(Abs()), poll)
    {
      if poll !in timers {
        return false;
      }
      timers := timers - {poll};
      if pollingPromise.Some? {
        pollingPromise := None;
        writable := false;
        replies := replies + [Rejected(poll)];
        settled := settled + [TimedOut(poll)];
        return true;
      }
      return false;
    }

    /** The client of request `poll` is gone: its handler, if it has one. True when an "error" event is due. */
    method OnAbort(poll: nat) returns (error: bool)
      requires Valid()
      modifies this
      ensures Valid() && error == AbortIsError(old(Abs()), poll) && Abs() == Abort(old(Abs()), poll)
    {
      if poll !in handlers || pollingPromise.None? {
        return false;
      }
      timers := timers - {pollingPromise.value};
      if pollingPromise == Some(poll) {
        released := released + {poll};
      }
      pollingPromise := None;
      writable := false;
      return true;
    }

    method SendPackets(packets: seq<Packet>)
      requires Valid()
      modifies this
      ensures Valid() && Abs() == Send(old(Abs()), packets)
    {
      writable := false;
      var payload := Parser.EncodePayload(packets);
      if pollingPromise.None? {
        return;
      }
      timers := timers - {pollingPromise.value};
      replies := replies + [Ok(pollingPromise.value, payload)];
      settled := settled + [Answered(pollingPromise.value, packets)];
      pollingPromise := None;
    }

    /** Ends with a "close" event for whoever still listens. */
    method Finish()
      requires Valid()
      modifies this
      ensures Valid() && Abs() == DoClose(old(Abs()))
    {
      if writable {
        SendPackets([Packet(if readyState == CLOSING then PacketType.Close else Noop, None)]);
      } else if pollingPromise.Some? {
        timers := timers - {pollingPromise.value};
        pollingPromise := None;
      }
      readyState := CLOSED;
    }

    method Close()
      requires Valid()
      modifies this
      ensures Valid() && Abs() == Shut(old(Abs()))
    {
      if readyState == CLOSING || readyState == CLOSED {
        return;
      }
      readyState := CLOSING;
      Finish();
    }
  }
}
