/**
 What rpi/main_system.py adds to the shared pipeline: the speech worker that plays every job
 on the JBL speaker, falls back to the AirPods when that fails, and to the default output when
 both fail. The shell call is not modelled; `status(n, sink)` is the exit status the shell
 returns when job number `n` of this worker run is played on `sink`.
 */
module MainSystem {
  import opened Wrappers
  import opened Relay
  import opened Speech
  import opened Seqs

  /** The outputs the worker can play on: the JBL speaker and the AirPods (the PipeWire sinks
      `bluez_output.7C_9A_1D_AB_46_50.1` and `bluez_output.AC_C9_06_32_31_DE.1`), and the
      system default output. */
  datatype Sink = Jbl | AirPods | SystemDefault

  /** The order in which the worker tries the sinks. */
  const SinkOrder: seq<Sink> := [Jbl, AirPods, SystemDefault]

  /** One playback command issued by the worker: job number, sink and text. */
  datatype Attempt = Attempt(job: nat, sink: Sink, text: string)

  type ExitStatus = (nat, Sink) -> int

  const ThreadActive: string := "\U{1F50A} Speaker thread active"

  /** The warning logged when a Bluetooth sink fails, before the next one is tried. */
  function Warning(sink: Sink): string
    requires sink != SystemDefault
  {
    match sink
    case Jbl => "\U{26A0}\U{FE0F} JBL unreachable. Trying AirPods..."
    case AirPods => "\U{26A0}\U{FE0F} AirPods unreachable. Using Default."
  }

  /**
   The commands issued for job `n`: the sinks in their fixed order, each tried only when the
   one before it returned non-zero; the status of the default output is never looked at.
   */
  function FallbackChain(n: nat, text: string, status: ExitStatus): (chain: seq<Attempt>)
    ensures 1 <= |chain| <= |SinkOrder|
    ensures forall i :: 0 <= i < |chain| ==> chain[i] == Attempt(n, SinkOrder[i], text)
    ensures forall i :: 0 <= i < |chain| - 1 ==> status(n, chain[i].sink) != 0
    ensures |chain| < |SinkOrder| ==> status(n, chain[|chain| - 1].sink) == 0
  {
    [Attempt(n, Jbl, text)] +
    if status(n, Jbl) == 0 then []
    else
      [Attempt(n, AirPods, text)] +
      if status(n, AirPods) == 0 then [] else [Attempt(n, SystemDefault, text)]
  }

  /** The lines logged for job `n`: the speaking line, then one warning per failed sink. */
  function ChainLogs(n: nat, text: string, status: ExitStatus): (lines: seq<string>)
    ensures |lines| == |FallbackChain(n, text, status)|
    ensures lines[0] == LogLine(SpeakingPrefix + text)
    ensures forall i :: 1 <= i < |lines| ==>
      lines[i] == LogLine(Warning(FallbackChain(n, text, status)[i - 1].sink))
  {
    [LogLine(SpeakingPrefix + text)] +
    if status(n, Jbl) == 0 then []
    else
      [LogLine(Warning(Jbl))] +
      if status(n, AirPods) == 0 then [] else [LogLine(Warning(AirPods))]
  }

  /** The commands issued for a run of jobs, job by job in queue order. */
  function Playback(jobs: seq<string>, status: ExitStatus): seq<Attempt>
  {
    if jobs == [] then []
    else Playback(jobs[..|jobs| - 1], status) + FallbackChain(|jobs| - 1, jobs[|jobs| - 1], status)
  }

  /** The lines logged for a run of jobs, job by job in queue order. */
  function WorkerLogs(jobs: seq<string>, status: ExitStatus): seq<string>
  {
    if jobs == [] then []
    else WorkerLogs(jobs[..|jobs| - 1], status) + ChainLogs(|jobs| - 1, jobs[|jobs| - 1], status)
  }

  lemma PlaybackSnoc(jobs: seq<string>, text: string, status: ExitStatus)
    ensures Playback(jobs + [text], status) == Playback(jobs, status) + FallbackChain(|jobs|, text, status)
    ensures WorkerLogs(jobs + [text], status) == WorkerLogs(jobs, status) + ChainLogs(|jobs|, text, status)
  {
    assert (jobs + [text])[..|jobs|] == jobs;
  }

  /** One job at a time, in queue order: every command belongs to a job of the run and
      carries that job's text, job numbers never go down, and every job gets a command. */
  lemma {:induction false} PlaybackInOrder(jobs: seq<string>, status: ExitStatus)
    ensures var p := Playback(jobs, status);
      && |p| >= |jobs|
      && (forall i :: 0 <= i < |p| ==> p[i].job < |jobs| && p[i].text == jobs[p[i].job])
      && (forall i, j :: 0 <= i < j < |p| ==> p[i].job <= p[j].job)
      && (forall j :: 0 <= j < |jobs| ==> exists i :: 0 <= i < |p| && p[i] == Attempt(j, Jbl, jobs[j]))
  {
    if jobs != [] {
      var prefix := jobs[..|jobs| - 1];
      PlaybackInOrder(prefix, status);
      var p0 := Playback(prefix, status);
      var chain := FallbackChain(|prefix|, jobs[|jobs| - 1], status);
      var p := Playback(jobs, status);
      assert p == p0 + chain;
      forall i | 0 <= i < |p|
        ensures p[i].job < |jobs| && p[i].text == jobs[p[i].job]
      {
        if i < |p0| {
          assert p[i] == p0[i];
        } else {
          assert p[i] == chain[i - |p0|];
        }
      }
    }
    var p := Playback(jobs, status);
    forall j | 0 <= j < |jobs|
      ensures exists i :: 0 <= i < |p| && p[i] == Attempt(j, Jbl, jobs[j])
    {
      PlaybackOfJob(jobs, j, status);
      var lo, hi := |Playback(jobs[..j], status)|, |Playback(jobs[..j + 1], status)|;
      assert p[lo] == p[lo..hi][0];
    }
  }

  /** The commands for the first jobs of a run are the start of the commands for the whole run. */
  lemma {:induction false} PlaybackPrefix(jobs: seq<string>, m: nat, status: ExitStatus)
    requires m <= |jobs|
    ensures Playback(jobs[..m], status) <= Playback(jobs, status)
  {
    if m < |jobs| {
      var n := |jobs| - 1;
      PlaybackPrefix(jobs[..n], m, status);
      assert jobs[..n][..m] == jobs[..m];
    } else {
      assert jobs[..m] == jobs;
    }
  }

  /**
   Job `j` of a run gets exactly its own fallback chain: the commands issued between the end of
   the earlier jobs' commands and the start of the later jobs' commands are `FallbackChain(j, …)`.
   */
  lemma PlaybackOfJob(jobs: seq<string>, j: nat, status: ExitStatus)
    requires j < |jobs|
    ensures var p, lo, hi := Playback(jobs, status), |Playback(jobs[..j], status)|, |Playback(jobs[..j + 1], status)|;
      && lo < hi <= |p|
      && p[lo..hi] == FallbackChain(j, jobs[j], status)
  {
    assert jobs[..j + 1] == jobs[..j] + [jobs[j]];
    PlaybackSnoc(jobs[..j], jobs[j], status);
    PlaybackPrefix(jobs, j + 1, status);
    var p := Playback(jobs, status);
    var before := Playback(jobs[..j], status);
    var chain := FallbackChain(j, jobs[j], status);
    assert p[..|before| + |chain|] == before + chain;
    assert p[|before|..|before| + |chain|] == (before + chain)[|before|..];
  }

  /** The body of the worker loop for job number `n`. */
  method SpeakJob(n: nat, text: string, logs: LogQueue, status: ExitStatus) returns (chain: seq<Attempt>)
    modifies logs
    ensures chain == FallbackChain(n, text, status)
    ensures logs.items == old(logs.items) + ChainLogs(n, text, status)
  {
    logs.BroadcastLog(SpeakingPrefix + text);
    chain := [Attempt(n, Jbl, text)];
    var ret := status(n, Jbl);
    if ret != 0 {
      logs.BroadcastLog(Warning(Jbl));
      chain := chain + [Attempt(n, AirPods, text)];
      var retAir := status(n, AirPods);
      if retAir != 0 {
        logs.BroadcastLog(Warning(AirPods));
        chain := chain + [Attempt(n, SystemDefault, text)];
      }
    }
  }

  /**
   `speaker_worker`: take jobs in FIFO order until the sentinel, playing each through the
   fallback chain. A worker that finds the queue empty would wait; the model stops there.
   */
  method SpeakerWorker(speech: SpeechQueue, logs: LogQueue, status: ExitStatus)
    returns (attempts: seq<Attempt>, stopped: bool)
    modifies speech, logs
    ensures stopped <==> None in old(speech.items)
    ensures speech.items == AfterSentinel(old(speech.items))
    ensures attempts == Playback(JobsBeforeSentinel(old(speech.items)), status)
    ensures logs.items == old(logs.items) + [LogLine(ThreadActive)] +
                          WorkerLogs(JobsBeforeSentinel(old(speech.items)), status)
  {
    logs.BroadcastLog(ThreadActive);
    ghost var q := speech.items;
    ghost var logs0 := logs.items;
    ghost var handled: seq<string> := [];
    attempts, stopped := [], false;
    var k := 0;
    ConsumedStart(q);
    while speech.items != []
      invariant Consumed(q, k, handled) && speech.items == q[k..]
      invariant attempts == Playback(handled, status)
      invariant logs.items == logs0 + WorkerLogs(handled, status)
      decreases |speech.items|
    {
      assert q[k..][1..] == q[k + 1..];
      var job := speech.Get();
      if job.None? {
        stopped := true;
        break;
      }
      var text := job.value;
      ConsumedStep(q, k, handled);
      PlaybackSnoc(handled, text, status);
      var chain := SpeakJob(k, text, logs, status);
      ConcatAssoc(logs0, WorkerLogs(handled, status), ChainLogs(k, text, status));
      attempts := attempts + chain;
      handled := handled + [text];
      k := k + 1;
    }
    ConsumedStop(q, k, handled);
  }
}
