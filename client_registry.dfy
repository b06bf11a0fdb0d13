/** The process-wide registry of connected sockets that server-initiated
    envelopes (signing requests) are pushed through. */
module ClientRegistry {
  import opened Schemas
  import opened Sockets

  class Registry {
    var clients: set<Socket>

    constructor ()
      ensures clients == {}
    {
      clients := {};
    }

    /** `register`: adding a socket already present leaves one entry. */
    method Register(ws: Socket)
      modifies this
      ensures clients == old(clients) + {ws}
      ensures ws in old(clients) ==> clients == old(clients)
      ensures |clients| == if ws in old(clients) then |old(clients)| else |old(clients)| + 1
    {
      clients := clients + {ws};
    }

    /** `unregister`: removing an absent socket changes nothing. */
    method Unregister(ws: Socket)
      modifies this
      ensures clients == old(clients) - {ws}
      ensures ws !in old(clients) ==> clients == old(clients)
      ensures ws !in clients
    {
      clients := clients - {ws};
    }

    /** `size`: the number of distinct registered sockets. */
    function Size(): (n: nat)
      reads this
      ensures n == |clients|
      ensures n == 0 <==> clients == {}
    {
      |clients|
    }

    /** `broadcast`: every registered socket that is open receives `msg`
        exactly once; closed or closing ones, and sockets outside the
        registry, receive nothing; the client set stays as it was. */
    method Broadcast(msg: Outbound)
      modifies clients
      ensures forall ws :: ws in clients ==> ws.sent == OfferedTo(old(ws.sent), old(ws.readyState), msg)
      ensures forall ws :: ws in clients ==> ws.readyState == old(ws.readyState) && ws.closeCode == old(ws.closeCode)
    {
      var todo := clients;
      while todo != {}
        invariant todo <= clients
        invariant forall ws :: ws in clients ==> ws.readyState == old(ws.readyState) && ws.closeCode == old(ws.closeCode)
        invariant forall ws :: ws in clients && ws !in todo ==> ws.sent == OfferedTo(old(ws.sent), old(ws.readyState), msg)
        invariant forall ws :: ws in todo ==> ws.sent == old(ws.sent)
        decreases |todo|
      {
        var ws :| ws in todo;
        if ws.readyState == Open {
          ws.Transmit(msg);
        }
        todo := todo - {ws};
      }
    }
  }
}
