/** Three lives of a ticket, driven through the Durable Object's handlers from a fresh
    instance, and what the browser and the notification path observe in each. */
module Scenarios {
  import opened Registry
  import opened DurableObject

  /** A scan arrives in time: the browser sees the issued event and then the success
      event; a second scan of the same ticket is refused, and the timer that was left
      armed fires later without writing anything. */
  method DeliveredOnce(prefix: string, uuid: string, uid: string, uid': string)
    returns (first: string, second: string, log: seq<Event>)
    ensures first == SuccessReply && second == FailureReply
    ensures log == [Issued(prefix + uuid), Event(CodeSuccess, uid)]
  {
    var registry := new WxLoginDurableObject(prefix);
    var ticket := registry.HandleSse(uuid);
    first := registry.HandleQrLogin(ticket, uid);
    second := registry.HandleQrLogin(ticket, uid');
    registry.OnTimeout(ticket);
    log := registry.streams[0].log;
  }

  /** No scan arrives: the timer fires, the browser sees the issued event and then the
      expiry event, and a scan arriving afterwards is refused. */
  method ExpiredUnscanned(prefix: string, uuid: string, uid: string)
    returns (late: string, log: seq<Event>, closed: bool)
    ensures late == FailureReply && closed
    ensures log == [Issued(prefix + uuid), Expiry()]
  {
    var registry := new WxLoginDurableObject(prefix);
    var ticket := registry.HandleSse(uuid);
    registry.OnTimeout(ticket);
    late := registry.HandleQrLogin(ticket, uid);
    log, closed := registry.streams[0].log, registry.streams[0].closed;
  }

  /** The browser leaves at once: the ticket is gone and its timer cleared, the
      browser saw only the issued event, and a later scan is refused. */
  method AbandonedAtOnce(prefix: string, uuid: string, uid: string)
    returns (late: string, log: seq<Event>, live: bool, timerArmed: bool)
    ensures late == FailureReply && !live && !timerArmed
    ensures log == [Issued(prefix + uuid)]
  {
    var registry := new WxLoginDurableObject(prefix);
    var ticket := registry.HandleSse(uuid);
    registry.OnAbort(ticket);
    live, timerArmed := ticket in registry.clients, ticket in registry.armed;
    late := registry.HandleQrLogin(ticket, uid);
    log := registry.streams[0].log;
  }
}
