/**
 * The two heartbeat timers of a session on an integer clock. The clock cannot pass an
 * armed deadline: a timer that is due fires before time moves on.
 */
module Heartbeat {
  import opened Packets
  import opened Transport

  datatype Timer = Idle | Armed(at: int)

  /**
   * `interval` is the ping timer the session holds on to. `strays` are ping timers that
   * are still armed but were overwritten. `timeout` is None until the first ping; from
   * then on it is a timer, armed or not. `lastPong` is history.
   */
  datatype State = State(
    now: int,
    interval: Timer,
    strays: multiset<int>,
    timeout: Option<Timer>,
    lastPong: int)

  function Start(now: int): State {
    State(now, Idle, multiset{}, None, now)
  }

  /** Before the first ping a new timer is made and the old one, if armed, is left behind. */
  function SchedulePing(opts: Options, h: State): State {
    var next := Armed(h.now + opts.pingInterval);
    if h.timeout.Some? then h.(interval := next)
    else h.(interval := next, strays := if h.interval.Armed? then h.strays + multiset{h.interval.at} else h.strays)
  }

  /** The ping is out: a pong is due. */
  function ResetPingTimeout(opts: Options, h: State): State {
    h.(timeout := Some(Armed(h.now + opts.pingTimeout)))
  }

  /** clearTimeout on a field that may never have been set. */
  function Clear(timeout: Option<Timer>): Option<Timer> {
    if timeout.Some? then Some(Idle) else None
  }

  function PongAccepted(opts: Options, h: State): State {
    SchedulePing(opts, h.(timeout := Clear(h.timeout), lastPong := h.now))
  }

  /** Closing clears the timers the session knows of; strays stay armed. */
  function Cancel(h: State): State {
    h.(interval := Idle, timeout := Clear(h.timeout))
  }

  predicate IntervalDue(h: State) {
    h.interval == Armed(h.now)
  }

  predicate StrayDue(h: State) {
    h.now in h.strays
  }

  predicate TimeoutDue(h: State) {
    h.timeout == Some(Armed(h.now))
  }

  function FireInterval(h: State): State {
    h.(interval := Idle)
  }

  function FireStray(h: State): State {
    h.(strays := h.strays - multiset{h.now})
  }

  function FireTimeout(h: State): State {
    h.(timeout := Some(Idle))
  }

  predicate CanAdvance(h: State, t: int) {
    && h.now <= t
    && (h.interval.Armed? ==> t <= h.interval.at)
    && (h.timeout.Some? && h.timeout.value.Armed? ==> t <= h.timeout.value.at)
    && forall d | d in h.strays :: t <= d
  }

  function Advance(h: State, t: int): State {
    if CanAdvance(h, t) then h.(now := t) else h
  }

  /** Some timer is armed that ends the wait, and none is armed for later than the deadline. */
  predicate Alive(opts: Options, h: State) {
    && (forall d | d in h.strays :: h.now <= d <= h.lastPong + opts.pingInterval)
    && (h.interval.Armed? ==> h.now <= h.interval.at <= h.lastPong + opts.pingInterval)
    && (h.timeout.Some? && h.timeout.value.Armed? ==>
          h.now <= h.timeout.value.at <= h.lastPong + opts.pingInterval + opts.pingTimeout)
    && (h.interval.Armed? || (h.timeout.Some? && h.timeout.value.Armed?))
    && h.lastPong <= h.now
  }
}
