/**
 The frame pipeline shared by rpi/main_system.py and rpi/backup.py: start-up, the alert
 decision of one frame, the publish tick that sends the frame and the drained log lines to
 every viewer, and the log lines and set updates of a viewer's connection handler.
 */
module Pipeline {
  import opened Wrappers
  import opened Selector
  import opened Cooldown
  import opened Relay
  import opened Speech
  import opened Fanout

  const AlertPrefix: string := "\U{1F6A8} ALERT: "

  /** The prologue of `run_system`: the model and the camera are loaded (not modelled), and the
      start-up announcement is queued for speech between the camera line and the ready line. */
  method Startup(speech: SpeechQueue, logs: LogQueue)
    modifies speech, logs
    ensures speech.items == old(speech.items) + [Some("System Online")]
    ensures logs.items == old(logs.items) + [
      LogLine("\U{23F3} Loading YOLOv11 model..."),
      LogLine("\U{1F4F7} Starting Camera..."),
      LogLine("\U{2705} System Ready")]
  {
    logs.BroadcastLog("\U{23F3} Loading YOLOv11 model...");
    logs.BroadcastLog("\U{1F4F7} Starting Camera...");
    speech.Put(Some("System Online"));
    logs.BroadcastLog("\U{2705} System Ready");
  }

  /** `main`, up to the frame loop: once the server listens it announces itself, then
      `run_system` starts up. */
  method Serve(speech: SpeechQueue, logs: LogQueue)
    modifies speech, logs
    ensures speech.items == old(speech.items) + [Some("System Online")]
    ensures logs.items == old(logs.items) + [
      LogLine("\U{1F4E1} WebSocket Server running on port 8765"),
      LogLine("\U{23F3} Loading YOLOv11 model..."),
      LogLine("\U{1F4F7} Starting Camera..."),
      LogLine("\U{2705} System Ready")]
  {
    logs.BroadcastLog("\U{1F4E1} WebSocket Server running on port 8765");
    Startup(speech, logs);
  }

  /**
   The logic part of one frame: select the best box; if there is one and the gate lets its
   id speak at `now`, log the alert, queue its message and mark the id as spoken.
   */
  method ProcessFrame(results: FrameResults, now: real, gate: CooldownGate, speech: SpeechQueue, logs: LogQueue)
    returns (best: Option<Candidate>, alerted: bool)
    modifies gate, speech, logs
    ensures best == Best(Boxes(results))
    ensures alerted <==> best.Some? && old(gate.CanSpeak(best.value.trackId, now))
    ensures alerted ==>
      && speech.items == old(speech.items) + [Some(best.value.msg)]
      && logs.items == old(logs.items) + [LogLine(AlertPrefix + best.value.msg)]
      && gate.lastSpokenById == old(gate.lastSpokenById)[best.value.trackId := now]
      && gate.lastGlobalSpoken == now
    ensures !alerted ==>
      && speech.items == old(speech.items)
      && logs.items == old(logs.items)
      && gate.lastSpokenById == old(gate.lastSpokenById)
      && gate.lastGlobalSpoken == old(gate.lastGlobalSpoken)
  {
    best := SelectBest(results);
    alerted := false;
    if best.Some? {
      var tid := best.value.trackId;
      if gate.CanSpeak(tid, now) {
        logs.BroadcastLog(AlertPrefix + best.value.msg);
        speech.Put(Some(best.value.msg));
        gate.MarkSpoken(tid, now);
        alerted := true;
      }
    }
  }

  /**
   Step 4 of the frame loop: only when some viewer is connected, drain the log queue and send
   every viewer the frame followed by the drained lines; viewers that raise are dropped.
   */
  method PublishTick(clients: ClientSet, logs: LogQueue, frame: string, raising: set<ClientId>)
    returns (sent: map<ClientId, seq<string>>)
    modifies clients, logs
    ensures old(clients.connected) == {} ==>
      sent == map[] && logs.items == old(logs.items) && clients.connected == {}
    ensures old(clients.connected) != {} ==>
      && logs.items == []
      && sent.Keys == old(clients.connected) - raising
      && (forall c :: c in sent ==> sent[c] == [frame] + old(logs.items))
      && clients.connected == old(clients.connected) - raising
  {
    sent := map[];
    if clients.connected != {} {
      var logsToSend := logs.Drain();
      var disconnected;
      sent, disconnected := clients.Sweep([frame] + logsToSend, raising);
    }
  }

  /**
   One turn of the frame loop after capture and tracking: an alert raised for this frame is
   logged before the publish step, so it reaches every viewer in the same tick, after the frame.
   */
  method FrameTick(results: FrameResults, now: real, frame: string, raising: set<ClientId>,
                   gate: CooldownGate, speech: SpeechQueue, logs: LogQueue, clients: ClientSet)
    returns (alerted: bool, sent: map<ClientId, seq<string>>)
    modifies gate, speech, logs, clients
    ensures var best := Best(Boxes(results));
      alerted <==> best.Some? && old(gate.CanSpeak(best.value.trackId, now))
    ensures old(clients.connected) != {} ==>
      && sent.Keys == old(clients.connected) - raising
      && forall c :: c in sent ==>
           sent[c] == [frame] + old(logs.items) +
             (if alerted then [LogLine(AlertPrefix + Best(Boxes(results)).value.msg)] else [])
    ensures old(clients.connected) != {} ==>
      logs.items == [] && clients.connected == old(clients.connected) - raising
    ensures old(clients.connected) == {} ==>
      && sent == map[]
      && clients.connected == {}
      && logs.items == old(logs.items) +
           (if alerted then [LogLine(AlertPrefix + Best(Boxes(results)).value.msg)] else [])
    ensures alerted ==>
      && speech.items == old(speech.items) + [Some(Best(Boxes(results)).value.msg)]
      && gate.lastSpokenById == old(gate.lastSpokenById)[Best(Boxes(results)).value.trackId := now]
      && gate.lastGlobalSpoken == now
    ensures !alerted ==>
      && speech.items == old(speech.items)
      && gate.lastSpokenById == old(gate.lastSpokenById)
      && gate.lastGlobalSpoken == old(gate.lastGlobalSpoken)
  {
    var best;
    best, alerted := ProcessFrame(results, now, gate, speech, logs);
    sent := PublishTick(clients, logs, frame, raising);
  }

  /** Start of `handler`: the viewer is announced and joins the set. */
  method OnConnect(clients: ClientSet, logs: LogQueue, client: ClientId, address: string)
    modifies clients, logs
    ensures clients.connected == old(clients.connected) + {client}
    ensures logs.items == old(logs.items) + [LogLine("Client connected: " + address)]
  {
    logs.BroadcastLog("Client connected: " + address);
    clients.Add(client);
  }

  /** The `finally` of `handler` in rpi/main_system.py: if a sweep already dropped the viewer,
      `remove` raises KeyError and the disconnect line is not logged. */
  method OnClose(clients: ClientSet, logs: LogQueue, client: ClientId) returns (raised: bool)
    modifies clients, logs
    ensures raised <==> client !in old(clients.connected)
    ensures clients.connected == old(clients.connected) - {client}
    ensures logs.items == old(logs.items) + (if raised then [] else [LogLine("Client disconnected")])
  {
    raised := clients.Remove(client);
    if !raised {
      logs.BroadcastLog("Client disconnected");
    }
  }
}
