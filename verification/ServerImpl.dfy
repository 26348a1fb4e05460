/** The web server's list of listening browser connections. A listener is held weakly: pushing a
    message prunes those that are gone while it walks over the list. */
module ServerImpl {
  import opened Order
  import opened Model

  class WsClient {
    const id: nat
    var alive: bool
    var received: seq<Msg>

    constructor (id: nat)
      ensures this.id == id && alive && received == []
    {
      this.id, alive, received := id, true, [];
    }

    method Send(msg: Msg)
      modifies this`received
      ensures received == old(received) + [msg]
    {
      received := received + [msg];
    }
  }

  class Server {
    var listeners: map<int, WsClient>

    ghost predicate Valid()
      reads this, listeners.Values
    {
      forall i :: i in listeners ==> listeners[i].id == i
    }

    constructor ()
      ensures Valid() && listeners == map[]
    {
      listeners := map[];
    }

    /** An id that is already listening keeps its client. */
    method AddEventListener(client: WsClient)
      requires Valid()
      modifies this`listeners
      ensures Valid()
      ensures listeners == if client.id in old(listeners) then old(listeners) else old(listeners)[client.id := client]
    {
      if client.id !in listeners {
        listeners := listeners[client.id as int := client];
      }
    }

    method RemoveEventListener(client: WsClient)
      requires Valid()
      modifies this`listeners
      ensures Valid() && listeners == old(listeners) - {client.id as int}
    {
      listeners := listeners - {client.id as int};
    }

    /** Every live listener gets the message exactly once, after all it got before; those that are
        gone get nothing and are no longer listed; nobody else is touched. */
    method PushMsgForJS(msg: Msg)
      requires Valid()
      modifies this`listeners, listeners.Values`received
      ensures Valid()
      ensures forall i :: i in listeners <==> i in old(listeners) && old(listeners)[i].alive
      ensures forall i :: i in listeners ==> listeners[i] == old(listeners)[i]
      ensures forall i :: i in old(listeners) ==>
                var c := old(listeners)[i]; c.received == if c.alive then old(c.received) + [msg] else old(c.received)
    {
      var rest := listeners.Keys;
      ghost var before := listeners;
      while rest != {}
        invariant rest <= listeners.Keys <= before.Keys
        invariant forall i :: i in listeners ==> listeners[i] == before[i]
        invariant forall i :: i in before ==> before[i].id == i
        invariant forall i :: i in before ==> (i in listeners <==> i in rest || before[i].alive)
        invariant forall i :: i in before ==>
                    before[i].received == if i !in rest && before[i].alive then old(before[i].received) + [msg] else old(before[i].received)
        decreases |rest|
      {
        var i := Least(rest);
        var client := listeners[i];
        assert client == before[i];
        if client.alive {
          client.Send(msg);
        } else {
          listeners := listeners - {i};
        }
        rest := rest - {i};
      }
    }
  }
}
