/**
 The log relay of rpi/main_system.py and rpi/backup.py: `broadcast_log` tags a status line
 with `LOG:` and queues it; each publish tick drains the queue without blocking.
 */
module Relay {
  import opened Wrappers

  const LogTag: string := "LOG:"

  /** The line put on the queue for a status message. */
  function LogLine(message: string): (line: string)
    ensures |line| == |message| + 4
    ensures line[..4] == LogTag && line[4..] == message
  {
    LogTag + message
  }

  /** A log line determines its message. */
  lemma LogLineInjective(m1: string, m2: string)
    requires LogLine(m1) == LogLine(m2)
    ensures m1 == m2
  {
    assert m1 == LogLine(m1)[4..];
  }

  /** `log_queue`, a FIFO of lines. */
  class LogQueue {
    var items: seq<string>

    constructor ()
      ensures items == []
    {
      items := [];
    }

    /** `broadcast_log(message)`; the echo to the terminal is not modelled. */
    method BroadcastLog(message: string)
      modifies this
      ensures items == old(items) + [LogLine(message)]
    {
      items := items + [LogLine(message)];
    }

    /** `get_nowait()`: the oldest line, or None (queue.Empty) when there is none. */
    method GetNowait() returns (line: Option<string>)
      modifies this
      ensures old(items) == [] ==> line == None && items == []
      ensures old(items) != [] ==> line == Some(old(items)[0]) && items == old(items)[1..]
    {
      if items == [] {
        line := None;
      } else {
        line := Some(items[0]);
        items := items[1..];
      }
    }

    /** The drain loop of a publish tick: every queued line, oldest first, and an empty queue. */
    method Drain() returns (logsToSend: seq<string>)
      modifies this
      ensures logsToSend == old(items)
      ensures items == []
    {
      logsToSend := [];
      while items != []
        invariant old(items) == logsToSend + items
        decreases |items|
      {
        var line := GetNowait();
        if line.None? {
          break;
        }
        logsToSend := logsToSend + [line.value];
      }
    }
  }
}
