/**
 What rpi/backup.py adds to the shared pipeline: a speech worker with a single output (the
 system default), and a connection handler that relays the viewer's binary audio messages to
 a local player process, started lazily and killed when the connection ends.
 */
module Backup {
  import opened Wrappers
  import opened Relay
  import opened Speech
  import opened Fanout
  import opened Seqs

  const ThreadActive: string := "\U{1F50A} Speaker thread active (Using System Default)"

  /** The lines the worker logs for a run of jobs: one speaking line per job. */
  function SpeakingLines(jobs: seq<string>): (lines: seq<string>)
    ensures |lines| == |jobs|
    ensures forall i :: 0 <= i < |jobs| ==> lines[i] == LogLine(SpeakingPrefix + jobs[i])
  {
    if jobs == [] then [] else SpeakingLines(jobs[..|jobs| - 1]) + [LogLine(SpeakingPrefix + jobs[|jobs| - 1])]
  }

  /**
   `speaker_worker`: exactly one playback command per job, in FIFO order, until the sentinel;
   the command's exit status is not looked at. A worker that finds the queue empty would wait;
   the model stops there. `played` lists the texts of the commands issued.
   */
  method SpeakerWorker(speech: SpeechQueue, logs: LogQueue) returns (played: seq<string>, stopped: bool)
    modifies speech, logs
    ensures stopped <==> None in old(speech.items)
    ensures speech.items == AfterSentinel(old(speech.items))
    ensures played == JobsBeforeSentinel(old(speech.items))
    ensures logs.items == old(logs.items) + [LogLine(ThreadActive)] + SpeakingLines(played)
  {
    logs.BroadcastLog(ThreadActive);
    ghost var q := speech.items;
    ghost var logs0 := logs.items;
    played, stopped := [], false;
    var k := 0;
    ConsumedStart(q);
    while speech.items != []
      invariant Consumed(q, k, played) && speech.items == q[k..]
      invariant logs.items == logs0 + SpeakingLines(played)
      decreases |speech.items|
    {
      assert q[k..][1..] == q[k + 1..];
      var job := speech.Get();
      if job.None? {
        stopped := true;
        break;
      }
      var text := job.value;
      ConsumedStep(q, k, played);
      logs.BroadcastLog(SpeakingPrefix + text);
      assert (played + [text])[..|played|] == played;
      ConcatAssoc(logs0, SpeakingLines(played), [LogLine(SpeakingPrefix + text)]);
      played := played + [text];
      k := k + 1;
    }
    ConsumedStop(q, k, played);
  }

  /** A message from the viewer: binary audio data, or text (which the handler ignores). */
  datatype Inbound = Binary(chunk: seq<bv8>) | Text(text: string)

  /** A chunk of audio written to the stdin of player number `player`. */
  datatype Feed = Feed(player: nat, chunk: seq<bv8>)

  /**
   The handler's audio state: the current player process (`audio_process`, by number), how
   many players were started on this connection, and what was written to them.
   */
  datatype RelayState = RelayState(player: Option<nat>, started: nat, fed: seq<Feed>)

  const NoAudio: RelayState := RelayState(None, 0, [])

  /** The handler starts a new player for a binary message when it has none, or when `poll()`
      says the current one has exited. */
  predicate StartsPlayer(r: RelayState, m: Inbound, exited: bool)
  {
    m.Binary? && (r.player.None? || exited)
  }

  /**
   One turn of the `async for` loop; `exited` is what `poll()` reports of the current player.
   A failed write is only printed, so it is not visible here.
   */
  function OnInbound(r: RelayState, m: Inbound, exited: bool): (next: RelayState)
    ensures m.Text? ==> next == r
    ensures StartsPlayer(r, m, exited) ==> next.player == Some(r.started) && next.started == r.started + 1
    ensures !StartsPlayer(r, m, exited) ==> next.player == r.player && next.started == r.started
    ensures m.Binary? ==> next.player.Some? && next.fed == r.fed + [Feed(next.player.value, m.chunk)]
  {
    match m
    case Text(_) => r
    case Binary(chunk) =>
      var player := if r.player.None? || exited then r.started else r.player.value;
      var started := if r.player.None? || exited then r.started + 1 else r.started;
      RelayState(Some(player), started, r.fed + [Feed(player, chunk)])
  }

  /** The audio state after the messages of a connection, from a connection without a player. */
  function Replay(inbox: seq<Inbound>, exited: seq<bool>): RelayState
    requires |exited| == |inbox|
  {
    if inbox == [] then NoAudio
    else
      var n := |inbox| - 1;
      OnInbound(Replay(inbox[..n], exited[..n]), inbox[n], exited[n])
  }

  /** The audio chunks among the messages, in order. */
  function Chunks(inbox: seq<Inbound>): seq<seq<bv8>>
  {
    if inbox == [] then []
    else
      var n := |inbox| - 1;
      Chunks(inbox[..n]) + (if inbox[n].Binary? then [inbox[n].chunk] else [])
  }

  /**
   Over a whole connection: there is a player exactly when some binary message arrived; each
   audio chunk is written, in arrival order, to a player started on this connection; at most one
   player is started per chunk; and the current player is the one started last.
   */
  lemma {:induction false} ReplayFacts(inbox: seq<Inbound>, exited: seq<bool>)
    requires |exited| == |inbox|
    ensures var r := Replay(inbox, exited);
      && (r.player.None? <==> forall i :: 0 <= i < |inbox| ==> inbox[i].Text?)
      && (r.started == 0 <==> r.player.None?)
      && (r.player.Some? ==> r.player.value == r.started - 1)
      && r.started <= |r.fed|
      && |r.fed| == |Chunks(inbox)|
      && (forall i :: 0 <= i < |r.fed| ==> r.fed[i].chunk == Chunks(inbox)[i] && r.fed[i].player < r.started)
  {
    if inbox != [] {
      var n := |inbox| - 1;
      ReplayFacts(inbox[..n], exited[..n]);
      assert forall i :: 0 <= i < n ==> inbox[..n][i] == inbox[i];
    }
  }

  /** The `async for` loop of `handler`, over the messages the viewer sends before the
      connection ends; `exited[i]` is what `poll()` would report when message `i` arrives. */
  method ReceiveAll(inbox: seq<Inbound>, exited: seq<bool>) returns (state: RelayState)
    requires |exited| == |inbox|
    ensures state == Replay(inbox, exited)
  {
    var audioProcess: Option<nat> := None;
    var started := 0;
    var fed: seq<Feed> := [];
    for i := 0 to |inbox|
      invariant RelayState(audioProcess, started, fed) == Replay(inbox[..i], exited[..i])
    {
      assert inbox[..i + 1][..i] == inbox[..i] && exited[..i + 1][..i] == exited[..i];
      var message := inbox[i];
      if message.Binary? {
        if audioProcess.None? || exited[i] {
          audioProcess := Some(started);
          started := started + 1;
        }
        fed := fed + [Feed(audioProcess.value, message.chunk)];
      }
    }
    assert inbox[..|inbox|] == inbox && exited[..|exited|] == exited;
    state := RelayState(audioProcess, started, fed);
  }

  /**
   The `finally` of `handler`: the viewer leaves the set, the player (if any) is killed and the
   disconnect is logged. If a sweep already dropped the viewer, `remove` raises KeyError and
   neither the kill nor the log line happens.
   */
  method OnClose(clients: ClientSet, logs: LogQueue, client: ClientId, audio: RelayState)
    returns (raised: bool, killed: Option<nat>)
    modifies clients, logs
    ensures raised <==> client !in old(clients.connected)
    ensures clients.connected == old(clients.connected) - {client}
    ensures killed == (if raised then None else audio.player)
    ensures logs.items == old(logs.items) + (if raised then [] else [LogLine("Client disconnected")])
  {
    killed := None;
    raised := clients.Remove(client);
    if raised {
      return;
    }
    if audio.player.Some? {
      killed := audio.player;
    }
    logs.BroadcastLog("Client disconnected");
  }
}
