/** The login Durable Object: the ticket map, the push streams it writes to and the
    expiry timers it arms, updated in place by its handlers. Each handler runs to
    completion before the next one starts, as on the object's single event loop, and
    each is proved to perform exactly one step of the state machine in registry.dfy. */
module DurableObject {
  import opened Registry

  class WxLoginDurableObject {
    /** The configured ticket prefix. */
    const prefix: string
    /** Live tickets, each with the id of the stream waiting for it. */
    var clients: map<string, nat>
    /** Every stream opened so far, indexed by stream id. */
    var streams: seq<Stream>
    /** Tickets whose expiry timer is set and has neither fired nor been cleared. */
    var armed: set<string>

    function Model(): State
      reads this
    {
      State(prefix, clients, streams, armed)
    }

    ghost predicate Valid()
      reads this
    {
      Registry.Valid(Model())
    }

    constructor (ticketPrefix: string)
      ensures Valid() && Model() == Init(ticketPrefix)
    {
      prefix := ticketPrefix;
      clients := map[];
      streams := [];
      armed := {};
    }

    /** Writes one event to a stream; a write to a closed writer is dropped. */
    method WriteToSse(writer: nat, e: Event)
      requires writer < |streams|
      modifies this
      ensures streams == Write(old(streams), writer, e)
      ensures clients == old(clients) && armed == old(armed)
    {
      if !streams[writer].closed {
        streams := streams[writer := streams[writer].(log := streams[writer].log + [e])];
      }
    }

    /** The terminal step shared by the timer and the login handler. */
    method CloseConnection(ticket: string, finalMessage: Option<Event>)
      requires ClientsInRange(Model())
      modifies this
      ensures Model() == Close(old(Model()), ticket, finalMessage)
    {
      if ticket in clients {
        var writer := clients[ticket];
        if finalMessage.Some? {
          WriteToSse(writer, finalMessage.value);
        }
        streams := streams[writer := streams[writer].(closed := true)];
        clients := clients - {ticket};
      }
    }

    /** Opens a push stream for the ticket made of the prefix and `uuid`, arms its
        expiry timer and writes the issued event. */
    method HandleSse(uuid: string) returns (ticket: string)
      requires Valid() && Fresh(Model(), prefix + uuid)
      modifies this
      ensures Valid()
      ensures ticket == prefix + uuid && ticket in clients && streams[clients[ticket]].log == [Issued(ticket)]
      ensures Model() == Open(old(Model()), uuid)
    {
      ticket := prefix + uuid;
      var writer := |streams|;
      streams := streams + [Stream(ticket, [], false)];
      clients := clients[ticket := writer];
      armed := armed + {ticket};
      WriteToSse(writer, Issued(ticket));
    }

    /** Delivers a scan for `ticket` on behalf of user `uid`. */
    method HandleQrLogin(ticket: string, uid: string) returns (reply: string)
      requires Valid()
      modifies this
      ensures Valid()
      ensures reply == (if ticket in old(clients) then SuccessReply else FailureReply)
      ensures (Model(), reply) == Publish(old(Model()), ticket, uid)
    {
      if ticket !in clients {
        return FailureReply;
      }
      var writer := clients[ticket];
      WriteToSse(writer, Event(CodeSuccess, uid));
      CloseConnection(ticket, None);
      return SuccessReply;
    }

    /** The expiry timer armed for `ticket` fires. */
    method OnTimeout(ticket: string)
      requires Valid() && ticket in armed
      modifies this
      ensures Valid()
      ensures Model() == Expire(old(Model()), ticket)
    {
      armed := armed - {ticket};
      CloseConnection(ticket, Some(Expiry()));
    }

    /** The browser behind `ticket`'s stream disconnects. */
    method OnAbort(ticket: string)
      requires Valid()
      modifies this
      ensures Valid()
      ensures Model() == Abort(old(Model()), ticket)
    {
      armed := armed - {ticket};
      clients := clients - {ticket};
    }
  }
}
