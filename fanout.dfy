/**
 The set of connected viewers (`connected_clients`) and the fan-out sweep of a publish tick,
 as rpi/server.py, rpi/main_system.py and rpi/backup.py write them. A viewer is named by a
 number. Which viewers raise `ConnectionClosed` in a tick is an input: a viewer whose
 connection is closed raises on its first send, so none of its sends is queued.
 */
module Fanout {

  type ClientId = nat

  class ClientSet {
    var connected: set<ClientId>

    constructor ()
      ensures connected == {}
    {
      connected := {};
    }

    /** `connected_clients.add(websocket)` */
    method Add(client: ClientId)
      modifies this
      ensures connected == old(connected) + {client}
    {
      connected := connected + {client};
    }

    /** `connected_clients.remove(websocket)`: raises KeyError when the viewer is not there. */
    method Remove(client: ClientId) returns (raised: bool)
      modifies this
      ensures raised <==> client !in old(connected)
      ensures connected == old(connected) - {client}
    {
      raised := client !in connected;
      connected := connected - {client};
    }

    /**
     One sweep: every connected viewer that does not raise has `payloads` queued for it, in
     order; the viewers that raise are collected and removed once the sweep is over.
     */
    method Sweep(payloads: seq<string>, raising: set<ClientId>)
      returns (sent: map<ClientId, seq<string>>, disconnected: set<ClientId>)
      modifies this
      ensures disconnected == old(connected) * raising
      ensures sent.Keys == old(connected) - raising
      ensures forall c :: c in sent ==> sent[c] == payloads
      ensures connected == old(connected) - disconnected
    {
      sent := map[];
      disconnected := {};
      var pending := connected;
      while pending != {}
        invariant pending <= connected
        invariant disconnected == (connected - pending) * raising
        invariant sent.Keys == (connected - pending) - raising
        invariant forall c :: c in sent ==> sent[c] == payloads
        decreases pending
      {
        var client :| client in pending;
        if client in raising {
          disconnected := disconnected + {client};
        } else {
          sent := sent[client := payloads];
        }
        pending := pending - {client};
      }
      connected := connected - disconnected;
    }
  }
}
