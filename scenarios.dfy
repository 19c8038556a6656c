/**
 Worked runs of the model: one person standing in the middle of the view, seen by a freshly
 started rpi/check.py at three moments, and one publish sweep of rpi/server.py over three
 viewers of which one fails.
 */
module Scenarios {
  import opened Wrappers
  import opened Selector
  import opened Cooldown
  import opened Speech
  import opened Fanout
  import Check
  import Server

  /** A person filling the width of the frame and 65% of its area, centred on the middle. */
  const Person: Box := Box(Some(7), 0, 0, 640, 312, "person", 0.9)

  /** The view of every frame in the scenario: one result holding the person. */
  const PersonFrame: FrameResults := [Some([Person])]

  /** The person qualifies; their centre is not left of the middle, so the advice is to move left. */
  lemma PersonIsSelected()
    ensures Best(Boxes(PersonFrame)).Some?
    ensures Best(Boxes(PersonFrame)).value.trackId == 7
    ensures Best(Boxes(PersonFrame)).value.msg == "Move Left, person ahead"
  {
    assert Boxes(PersonFrame) == [Person];
    assert Qualifies(Person);
  }

  /**
   The same person at t = 100, 102 and 105 on a fresh gate: announced at 100, refused at 102
   (two seconds is past the global cooldown but within the per-id one), announced again at 105.
   */
  method CooldownRun() returns (alerts: seq<bool>, queued: seq<Option<string>>)
    ensures alerts == [true, false, true]
    ensures queued == [Some("Move Left, person ahead"), Some("Move Left, person ahead")]
  {
    PersonIsSelected();
    var gate := new CooldownGate();
    var speech := new SpeechQueue();
    var best, a1 := Check.ProcessFrame(PersonFrame, 100.0, gate, speech);
    var best2, a2 := Check.ProcessFrame(PersonFrame, 102.0, gate, speech);
    var best3, a3 := Check.ProcessFrame(PersonFrame, 105.0, gate, speech);
    alerts, queued := [a1, a2, a3], speech.items;
  }

  /** Three viewers, the second of which raises: the others get the frame once and stay. */
  method SweepRun(frame: string) returns (sent: map<ClientId, seq<string>>, remaining: set<ClientId>)
    ensures sent == map[1 := [frame], 3 := [frame]]
    ensures remaining == {1, 3}
  {
    var clients := new ClientSet();
    clients.Add(1);
    clients.Add(2);
    clients.Add(3);
    var disconnected;
    sent, disconnected := Server.BroadcastTick(clients, frame, {2});
    remaining := clients.connected;
    assert sent.Keys == {1, 3};
  }
}
