/**
 rpi/server.py, the streaming-only server: viewers join and leave the client set through the
 handler, and every tick sends the current frame, and nothing else, to each of them.
 */
module Server {
  import opened Fanout

  /**
   Step 6 of `broadcast_frames`: only when some viewer is connected, send each of them the frame
   once; viewers whose send raises are collected and dropped after the sweep.
   */
  method BroadcastTick(clients: ClientSet, frame: string, raising: set<ClientId>)
    returns (sent: map<ClientId, seq<string>>, disconnected: set<ClientId>)
    modifies clients
    ensures old(clients.connected) == {} ==> sent == map[] && disconnected == {} && clients.connected == {}
    ensures disconnected == old(clients.connected) * raising
    ensures disconnected <= old(clients.connected)
    ensures sent.Keys == old(clients.connected) - raising
    ensures forall c :: c in sent ==> sent[c] == [frame]
    ensures clients.connected == old(clients.connected) - disconnected
    ensures old(clients.connected) - raising <= clients.connected
  {
    sent, disconnected := map[], {};
    if clients.connected != {} {
      sent, disconnected := clients.Sweep([frame], raising);
    }
  }
}
