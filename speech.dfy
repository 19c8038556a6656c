/**
 The speech job queue of rpi/main_system.py, rpi/backup.py and rpi/check.py. A job is the text
 to say; `None` is the sentinel that stops the worker. The queue is drained by a single worker
 in FIFO order; the worker variants are in the modules of the three programs.
 */
module Speech {
  import opened Wrappers
  import opened Seqs

  /** The start of the line the workers of rpi/main_system.py and rpi/backup.py log for each job. */
  const SpeakingPrefix: string := "\U{1F5E3}\U{FE0F} Speaking: "

  /** `speech_queue`: jobs are `Some(text)`, the stop sentinel is `None`. */
  class SpeechQueue {
    var items: seq<Option<string>>

    constructor ()
      ensures items == []
    {
      items := [];
    }

    method Put(job: Option<string>)
      modifies this
      ensures items == old(items) + [job]
    {
      items := items + [job];
    }

    /** Blocking `get`: a worker only returns from it once a job is there, so the model
        calls it on a non-empty queue and treats an empty queue as the worker waiting. */
    method Get() returns (job: Option<string>)
      requires items != []
      modifies this
      ensures job == old(items)[0] && items == old(items)[1..]
    {
      job := items[0];
      items := items[1..];
    }
  }

  /** The texts a worker takes from the queue before it meets the first sentinel. */
  function JobsBeforeSentinel(q: seq<Option<string>>): seq<string>
  {
    if q == [] || q[0].None? then [] else [q[0].value] + JobsBeforeSentinel(q[1..])
  }

  /** What is left on the queue once the worker has stopped at the first sentinel
      (empty if there is none, because the worker then goes on waiting). */
  function AfterSentinel(q: seq<Option<string>>): seq<Option<string>>
  {
    if q == [] then [] else if q[0].None? then q[1..] else AfterSentinel(q[1..])
  }

  /**
   The worker's view of a queue: the jobs it speaks are the entries before the first sentinel,
   in order; that sentinel (if any) comes right after them; and what stays queued is exactly what
   follows it, or nothing when there is no sentinel.
   */
  lemma {:induction false} SentinelSplit(q: seq<Option<string>>)
    ensures var jobs, rest := JobsBeforeSentinel(q), AfterSentinel(q);
      && |jobs| <= |q|
      && (forall i :: 0 <= i < |jobs| ==> q[i] == Some(jobs[i]))
      && (None in q <==> |jobs| < |q|)
      && (|jobs| < |q| ==> q[|jobs|] == None && rest == q[|jobs| + 1..])
      && (None !in q ==> rest == [])
  {
    if q != [] && q[0].Some? {
      SentinelSplit(q[1..]);
      var jobs := JobsBeforeSentinel(q);
      assert forall i :: 1 <= i < |q| ==> q[1..][i - 1] == q[i];
      assert q[1..][|jobs| - 1..] == q[|jobs|..];
      if None in q {
        var j :| 0 <= j < |q| && q[j] == None;
        assert q[1..][j - 1] == None;
      }
    }
  }

  /** Jobs queued before a sentinel-free stretch are all handled before anything queued after it. */
  lemma {:induction false} JobsBeforeSentinelAppend(q: seq<Option<string>>, r: seq<Option<string>>)
    requires None !in q
    ensures JobsBeforeSentinel(q + r) == JobsBeforeSentinel(q) + JobsBeforeSentinel(r)
    ensures AfterSentinel(q + r) == AfterSentinel(r)
  {
    if q != [] {
      assert (q + r)[1..] == q[1..] + r;
      JobsBeforeSentinelAppend(q[1..], r);
    } else {
      assert q + r == r;
    }
  }

  /** One step of a worker that took the job at position k (all earlier ones were jobs). */
  lemma JobsStep(q: seq<Option<string>>, k: nat)
    requires k < |q|
    ensures q[k].Some? ==> JobsBeforeSentinel(q[k..]) == [q[k].value] + JobsBeforeSentinel(q[k + 1..])
    ensures q[k].Some? ==> AfterSentinel(q[k..]) == AfterSentinel(q[k + 1..])
    ensures q[k].None? ==> JobsBeforeSentinel(q[k..]) == [] && AfterSentinel(q[k..]) == q[k + 1..]
  {
    assert q[k..][1..] == q[k + 1..];
  }

  /** A worker has taken the first `k` entries of `q`, all of them jobs, with texts `handled`. */
  ghost predicate Consumed(q: seq<Option<string>>, k: int, handled: seq<string>)
  {
    && 0 <= k <= |q|
    && |handled| == k
    && JobsBeforeSentinel(q) == handled + JobsBeforeSentinel(q[k..])
    && AfterSentinel(q) == AfterSentinel(q[k..])
  }

  lemma ConsumedStart(q: seq<Option<string>>)
    ensures Consumed(q, 0, [])
  {
    assert q[0..] == q;
  }

  /** Taking one more job keeps the bookkeeping. */
  lemma ConsumedStep(q: seq<Option<string>>, k: int, handled: seq<string>)
    requires Consumed(q, k, handled) && k < |q| && q[k].Some?
    ensures Consumed(q, k + 1, handled + [q[k].value])
  {
    JobsStep(q, k);
    ConcatAssoc(handled, [q[k].value], JobsBeforeSentinel(q[k + 1..]));
  }

  /** Meeting the sentinel, or running out of entries, ends the run with exactly the jobs before it. */
  lemma ConsumedStop(q: seq<Option<string>>, k: int, handled: seq<string>)
    requires Consumed(q, k, handled) && (k == |q| || q[k].None?)
    ensures JobsBeforeSentinel(q) == handled
    ensures (None in q) <==> k < |q|
    ensures k < |q| ==> AfterSentinel(q) == q[k + 1..]
    ensures k == |q| ==> AfterSentinel(q) == []
  {
    SentinelSplit(q);
    if k < |q| {
      JobsStep(q, k);
      assert handled + [] == handled;
    } else {
      assert q[k..] == [];
      assert handled + [] == handled;
    }
  }
}
