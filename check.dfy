/**
 What rpi/check.py does differently: alerts and speech lines are printed rather than relayed,
 start-up queues "System Startup Successful", and the `finally` block queues a last announcement
 and then the `None` sentinel that stops the speech worker.
 */
module Check {
  import opened Wrappers
  import opened Selector
  import opened Cooldown
  import opened Speech

  const StartupAnnouncement: string := "System Startup Successful"
  const ShutdownAnnouncement: string := "Shutting down"

  /**
   `speaker_worker`: one `espeak` command per job, in FIFO order, until the sentinel;
   `spoken` lists the texts of the commands issued. A worker that finds the queue empty would
   wait; the model stops there.
   */
  method SpeakerWorker(speech: SpeechQueue) returns (spoken: seq<string>, stopped: bool)
    modifies speech
    ensures stopped <==> None in old(speech.items)
    ensures speech.items == AfterSentinel(old(speech.items))
    ensures spoken == JobsBeforeSentinel(old(speech.items))
  {
    ghost var q := speech.items;
    spoken, stopped := [], false;
    var k := 0;
    ConsumedStart(q);
    while speech.items != []
      invariant Consumed(q, k, spoken) && speech.items == q[k..]
      decreases |speech.items|
    {
      assert q[k..][1..] == q[k + 1..];
      var job := speech.Get();
      if job.None? {
        stopped := true;
        break;
      }
      ConsumedStep(q, k, spoken);
      spoken := spoken + [job.value];
      k := k + 1;
    }
    ConsumedStop(q, k, spoken);
  }

  /** The camera block's prologue: the start-up announcement is queued. */
  method Startup(speech: SpeechQueue)
    modifies speech
    ensures speech.items == old(speech.items) + [Some(StartupAnnouncement)]
  {
    speech.Put(Some(StartupAnnouncement));
  }

  /**
   The decision part of one frame: select the best box; if there is one and the gate lets its
   id speak at `now`, queue its message (the alert itself is only printed) and mark the id.
   */
  method ProcessFrame(results: FrameResults, now: real, gate: CooldownGate, speech: SpeechQueue)
    returns (best: Option<Candidate>, alerted: bool)
    modifies gate, speech
    ensures best == Best(Boxes(results))
    ensures alerted <==> best.Some? && old(gate.CanSpeak(best.value.trackId, now))
    ensures alerted ==>
      && speech.items == old(speech.items) + [Some(best.value.msg)]
      && gate.lastSpokenById == old(gate.lastSpokenById)[best.value.trackId := now]
      && gate.lastGlobalSpoken == now
    ensures !alerted ==>
      && speech.items == old(speech.items)
      && gate.lastSpokenById == old(gate.lastSpokenById)
      && gate.lastGlobalSpoken == old(gate.lastGlobalSpoken)
  {
    best := SelectBest(results);
    alerted := false;
    if best.Some? {
      var tid := best.value.trackId;
      if gate.CanSpeak(tid, now) {
        speech.Put(Some(best.value.msg));
        gate.MarkSpoken(tid, now);
        alerted := true;
      }
    }
  }

  /** The `finally` block: the shutdown announcement, then the sentinel (the camera and window
      clean-up between them is not modelled). */
  method Shutdown(speech: SpeechQueue)
    modifies speech
    ensures speech.items == old(speech.items) + [Some(ShutdownAnnouncement), None]
  {
    speech.Put(Some(ShutdownAnnouncement));
    speech.Put(None);
  }

  /**
   The shutdown ordering: on a queue with no earlier sentinel, a worker that consumes the queue
   after `Shutdown` speaks every job that was waiting, then the shutdown announcement, and
   leaves nothing behind.
   */
  lemma ShutdownSpeaksEverything(q: seq<Option<string>>)
    requires None !in q
    ensures JobsBeforeSentinel(q + [Some(ShutdownAnnouncement), None]) == JobsBeforeSentinel(q) + [ShutdownAnnouncement]
    ensures AfterSentinel(q + [Some(ShutdownAnnouncement), None]) == []
    ensures None in q + [Some(ShutdownAnnouncement), None]
  {
    var tail := [Some(ShutdownAnnouncement), None];
    JobsBeforeSentinelAppend(q, tail);
    assert tail[1..] == [None];
    assert (q + tail)[|q| + 1] == None;
  }

  /**
   Shutdown followed by the worker draining the queue: the worker stops on the sentinel after
   speaking every queued job and the shutdown announcement last.
   */
  method ShutdownAndDrain(speech: SpeechQueue) returns (spoken: seq<string>, stopped: bool)
    requires None !in speech.items
    modifies speech
    ensures stopped
    ensures spoken == JobsBeforeSentinel(old(speech.items)) + [ShutdownAnnouncement]
    ensures |spoken| == |old(speech.items)| + 1
    ensures speech.items == []
  {
    ghost var q := speech.items;
    Shutdown(speech);
    ShutdownSpeaksEverything(q);
    SentinelSplit(q);
    spoken, stopped := SpeakerWorker(speech);
  }
}
