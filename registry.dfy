/** The ticket registry of the login Durable Object, as a state machine over values.
    A state holds the configured ticket prefix, the live tickets (`clients`, ticket to
    stream id), every stream ever opened (its ticket, its event log and whether its
    transport was closed) and the tickets whose expiry timer is still armed.
    The class in durable_object.dfy updates the same state in place and is proved to
    follow these functions step by step. */
module Registry {

  datatype Option<T> = None | Some(value: T)

  /** One event pushed to a browser: `{code, data}`. */
  datatype Event = Event(code: int, data: string)

  const CodeIssued := 100
  const CodeSuccess := 200
  const CodeExpired := 408

  /** Payload of the expiry event. */
  const ExpiredMessage: string := "二维码已过期"
  /** Reply of a login attempt whose ticket is not live. */
  const FailureReply: string := "二维码已过期或不存在。"
  /** Reply of a login attempt that reached a waiting browser. */
  const SuccessReply: string := "登录成功！"

  function Issued(ticket: string): Event { Event(CodeIssued, ticket) }
  function Expiry(): Event { Event(CodeExpired, ExpiredMessage) }

  /** A terminal event: a login success or the expiry message. */
  predicate IsTerminal(e: Event) {
    e.code == CodeSuccess || e == Expiry()
  }

  /** One push stream: the ticket it was opened for, what was written to it, and
      whether its writer was closed. */
  datatype Stream = Stream(ticket: string, log: seq<Event>, closed: bool)

  datatype State = State(prefix: string, clients: map<string, nat>, streams: seq<Stream>, armed: set<string>)

  /** The registry as constructed: no tickets, no streams, no timers. */
  function Init(prefix: string): State {
    State(prefix, map[], [], {})
  }

  /** A ticket no stream was ever opened for. */
  predicate Fresh(s: State, ticket: string) {
    forall i | 0 <= i < |s.streams| :: s.streams[i].ticket != ticket
  }

  /** The shape every stream keeps: its ticket carries the prefix, its log is the
      issued event followed by at most one terminal event, and its writer is closed
      exactly when the terminal event is there. */
  predicate WellFormed(prefix: string, st: Stream) {
    prefix <= st.ticket &&
    ((st.log == [Issued(st.ticket)] && !st.closed) ||
     (|st.log| == 2 && st.log[0] == Issued(st.ticket) && IsTerminal(st.log[1]) && st.closed))
  }

  /** Every stream id in `clients` is a stream of the table. */
  predicate ClientsInRange(s: State) {
    forall t | t in s.clients :: s.clients[t] < |s.streams|
  }

  /** The registry invariant: each live ticket maps to an open stream opened for that
      ticket, every stream is well formed, no two streams share a ticket, and every
      live ticket still has an armed expiry timer. */
  ghost predicate Valid(s: State) {
    ClientsInRange(s) &&
    (forall t | t in s.clients :: s.streams[s.clients[t]].ticket == t && !s.streams[s.clients[t]].closed) &&
    (forall i | 0 <= i < |s.streams| :: WellFormed(s.prefix, s.streams[i])) &&
    (forall i, j | 0 <= i < j < |s.streams| :: s.streams[i].ticket != s.streams[j].ticket) &&
    s.clients.Keys <= s.armed
  }

  /** A ticket that has a stream but is no longer live: delivered, expired or abandoned. */
  predicate Settled(s: State, i: nat) {
    i < |s.streams| && s.streams[i].ticket !in s.clients
  }

  /** Writing an event to a stream. A write to a closed writer fails and the failure
      is swallowed, so it changes nothing. */
  function Write(streams: seq<Stream>, id: nat, e: Event): (r: seq<Stream>)
    requires id < |streams|
    ensures |r| == |streams|
    ensures forall j | 0 <= j < |streams| && j != id :: r[j] == streams[j]
    ensures r[id].ticket == streams[id].ticket && r[id].closed == streams[id].closed
    ensures streams[id].closed ==> r[id].log == streams[id].log
    ensures !streams[id].closed ==> r[id].log == streams[id].log + [e]
  {
    if streams[id].closed then streams
    else streams[id := streams[id].(log := streams[id].log + [e])]
  }

  /** The shared terminal step: on a live ticket, optionally write a final event,
      close the writer and drop the ticket; on any other ticket, nothing. */
  function Close(s: State, ticket: string, final: Option<Event>): (r: State)
    requires ClientsInRange(s)
    ensures ticket !in s.clients ==> r == s
    ensures r.prefix == s.prefix && r.armed == s.armed && |r.streams| == |s.streams|
    ensures r.clients == s.clients - {ticket}
    ensures ticket in s.clients ==>
      var id := s.clients[ticket];
      r.streams[id].ticket == s.streams[id].ticket && r.streams[id].closed &&
      r.streams[id].log == s.streams[id].log + (if final.Some? && !s.streams[id].closed then [final.value] else []) &&
      forall j | 0 <= j < |s.streams| && j != id :: r.streams[j] == s.streams[j]
  {
    if ticket !in s.clients then s
    else
      var id := s.clients[ticket];
      var written := if final.Some? then Write(s.streams, id, final.value) else s.streams;
      s.(streams := written[id := written[id].(closed := true)], clients := s.clients - {ticket})
  }

  /** Opening a push stream: the ticket is the prefix followed by a fresh identifier;
      it becomes live with a new stream whose only event is the issued event, and its
      expiry timer is armed. Nothing else changes. */
  function Open(s: State, uuid: string): (r: State)
    requires Valid(s) && Fresh(s, s.prefix + uuid)
    ensures Valid(r)
    ensures r.prefix == s.prefix
    ensures var t := s.prefix + uuid;
      s.prefix <= t && t in r.clients && t in r.armed &&
      r.streams[r.clients[t]] == Stream(t, [Issued(t)], false) &&
      r.clients.Keys == s.clients.Keys + {t} && r.armed == s.armed + {t} &&
      (forall u | u in s.clients :: r.clients[u] == s.clients[u])
    ensures |r.streams| == |s.streams| + 1
    ensures forall i | 0 <= i < |s.streams| :: r.streams[i] == s.streams[i]
  {
    var t := s.prefix + uuid;
    assert t[..|s.prefix|] == s.prefix;
    State(s.prefix, s.clients[t := |s.streams|], s.streams + [Stream(t, [Issued(t)], false)], s.armed + {t})
  }

  /** A scan notification for `ticket`: on a live ticket the success event carrying
      `uid` is written, the writer is closed and the ticket dropped, and the reply is
      the success string; on any other ticket nothing changes and the reply is the
      failure string. The expiry timer is left armed. */
  function Publish(s: State, ticket: string, uid: string): (r: (State, string))
    requires Valid(s)
    ensures Valid(r.0)
    ensures r.1 == (if ticket in s.clients then SuccessReply else FailureReply)
    ensures ticket !in s.clients ==> r.0 == s
    ensures ticket in s.clients ==>
      var id := s.clients[ticket];
      r.0 == s.(clients := s.clients - {ticket},
                streams := s.streams[id := Stream(ticket, [Issued(ticket), Event(CodeSuccess, uid)], true)])
  {
    if ticket !in s.clients then (s, FailureReply)
    else
      var id := s.clients[ticket];
      var r := Close(s.(streams := Write(s.streams, id, Event(CodeSuccess, uid))), ticket, None);
      var delivered := s.streams[id := Stream(ticket, [Issued(ticket), Event(CodeSuccess, uid)], true)];
      assert WellFormed(s.prefix, s.streams[id]);
      assert forall j | 0 <= j < |s.streams| :: r.streams[j] == delivered[j];
      (r, SuccessReply)
  }

  /** An armed expiry timer fires: the timer is used up, and the ticket, if still
      live, is closed with the expiry event. On a ticket that is no longer live the
      firing writes nothing and changes no stream and no live ticket. */
  function Expire(s: State, ticket: string): (r: State)
    requires Valid(s) && ticket in s.armed
    ensures Valid(r)
    ensures r.prefix == s.prefix && r.armed == s.armed - {ticket} && r.clients == s.clients - {ticket}
    ensures ticket !in s.clients ==> r == s.(armed := s.armed - {ticket})
    ensures ticket in s.clients ==>
      var id := s.clients[ticket];
      r.streams == s.streams[id := Stream(ticket, [Issued(ticket), Expiry()], true)]
  {
    var r := Close(s.(armed := s.armed - {ticket}), ticket, Some(Expiry()));
    if ticket in s.clients then
      var id := s.clients[ticket];
      var expired := s.streams[id := Stream(ticket, [Issued(ticket), Expiry()], true)];
      assert WellFormed(s.prefix, s.streams[id]);
      assert forall j | 0 <= j < |s.streams| :: r.streams[j] == expired[j];
      r
    else r
  }

  /** The browser disconnects: its timer is cleared and its ticket dropped. No event
      is written and no writer is closed. */
  function Abort(s: State, ticket: string): (r: State)
    requires Valid(s)
    ensures Valid(r)
    ensures r.streams == s.streams && r.prefix == s.prefix
    ensures ticket !in r.clients && ticket !in r.armed
    ensures r.clients == s.clients - {ticket} && r.armed == s.armed - {ticket}
  {
    s.(clients := s.clients - {ticket}, armed := s.armed - {ticket})
  }

  /** What the environment may do next: open a stream (with a fresh identifier),
      deliver a scan, fire an armed timer, or abort a connection. */
  datatype Op = OpenOp(uuid: string) | PublishOp(ticket: string, uid: string) | TimeoutOp(ticket: string) | AbortOp(ticket: string)

  predicate Enabled(s: State, op: Op) {
    match op
    case OpenOp(uuid) => Fresh(s, s.prefix + uuid)
    case TimeoutOp(ticket) => ticket in s.armed
    case _ => true
  }

  /** One handler run to completion. A step keeps every settled stream exactly as it
      was and never makes its ticket live again. */
  function Step(s: State, op: Op): (r: State)
    requires Valid(s) && Enabled(s, op)
    ensures Valid(r) && r.prefix == s.prefix && |s.streams| <= |r.streams|
    ensures forall i: nat | Settled(s, i) :: Settled(r, i) && r.streams[i] == s.streams[i]
  {
    match op
    case OpenOp(uuid) => Open(s, uuid)
    case PublishOp(ticket, uid) => Publish(s, ticket, uid).0
    case TimeoutOp(ticket) => Expire(s, ticket)
    case AbortOp(ticket) => Abort(s, ticket)
  }

  /** A sequence of operations each of which is enabled when it comes. */
  ghost predicate Admissible(s: State, ops: seq<Op>)
    requires Valid(s)
    decreases |ops|
  {
    ops == [] || (Enabled(s, ops[0]) && Admissible(Step(s, ops[0]), ops[1..]))
  }

  /** Running a sequence of operations keeps the invariant: after any run, every
      stream's log is the issued event followed by at most one terminal event. */
  function Run(s: State, ops: seq<Op>): (r: State)
    requires Valid(s) && Admissible(s, ops)
    ensures Valid(r) && r.prefix == s.prefix && |s.streams| <= |r.streams|
    decreases |ops|
  {
    if ops == [] then s else Run(Step(s, ops[0]), ops[1..])
  }

  /** Once a ticket is no longer live, no run brings it back or touches its stream:
      a delivered or expired stream gets no second terminal event, and an abandoned
      one gets none at all. */
  lemma {:induction false} SettledStreamFrozen(s: State, ops: seq<Op>, i: nat)
    requires Valid(s) && Admissible(s, ops) && Settled(s, i)
    ensures Settled(Run(s, ops), i) && Run(s, ops).streams[i] == s.streams[i]
    decreases |ops|
  {
    if ops != [] {
      SettledStreamFrozen(Step(s, ops[0]), ops[1..], i);
    }
  }

  /** A closed stream's log never grows, whatever happens afterwards. */
  lemma ClosedLogNeverGrows(s: State, ops: seq<Op>, i: nat)
    requires Valid(s) && Admissible(s, ops) && i < |s.streams| && s.streams[i].closed
    ensures Run(s, ops).streams[i].log == s.streams[i].log
  {
    SettledStreamFrozen(s, ops, i);
  }

  /** A ticket that has left the live set, by delivery, expiry or disconnect, stays
      refused: after any run, a notification for it gets the failure reply and
      changes nothing. */
  lemma SettledTicketRefused(s: State, i: nat, ops: seq<Op>, uid: string)
    requires Valid(s) && Settled(s, i) && Admissible(s, ops)
    ensures var later := Run(s, ops);
      Publish(later, s.streams[i].ticket, uid) == (later, FailureReply)
  {
    SettledStreamFrozen(s, ops, i);
  }

  /** Tickets are single use: after a successful login, any later notification for
      the same ticket, after any run, gets the failure reply and changes nothing. */
  lemma PublishIsSingleUse(s: State, ticket: string, uid: string, ops: seq<Op>, uid': string)
    requires Valid(s) && ticket in s.clients
    requires Admissible(Publish(s, ticket, uid).0, ops)
    ensures var later := Run(Publish(s, ticket, uid).0, ops);
      Publish(later, ticket, uid') == (later, FailureReply)
  {
    var s1 := Publish(s, ticket, uid).0;
    SettledTicketRefused(s1, s.clients[ticket], ops, uid');
  }

  /** A timer armed for a stream that has since settled fires without effect on any
      stream or live ticket, after any run. */
  lemma StaleTimerIsNoOp(s: State, i: nat, ops: seq<Op>)
    requires Valid(s) && Settled(s, i) && Admissible(s, ops)
    requires s.streams[i].ticket in Run(s, ops).armed
    ensures var later := Run(s, ops);
      Expire(later, s.streams[i].ticket) == later.(armed := later.armed - {s.streams[i].ticket})
  {
    SettledStreamFrozen(s, ops, i);
  }

  /** A notification and the expiry of the same live ticket race: whichever runs first
      writes the only terminal event, and the other is a no-op. */
  lemma PublishExpireRace(s: State, ticket: string, uid: string)
    requires Valid(s) && ticket in s.clients
    ensures var id := s.clients[ticket];
      var (p, reply) := Publish(s, ticket, uid);
      reply == SuccessReply && ticket in p.armed &&
      Expire(p, ticket).streams[id].log == [Issued(ticket), Event(CodeSuccess, uid)]
    ensures var id := s.clients[ticket];
      var e := Expire(s, ticket);
      e.streams[id].log == [Issued(ticket), Expiry()] &&
      Publish(e, ticket, uid) == (e, FailureReply)
  {
  }
}
