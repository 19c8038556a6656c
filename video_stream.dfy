/**
 The browser viewer of camera-client/src/VideoStream.jsx, for the parts that decide what it
 shows: the classification of each server message as a log line or a frame, the bounded,
 newest-first log list, and the connection status. Each handler maps the component's state to
 its next state; the clock text of `toLocaleTimeString` is a parameter.
 */
module VideoStream {
  import opened Wrappers
  import opened Relay

  /** `event.data`: a text message, or binary data (a Blob). */
  datatype Data = Str(s: string) | Blob

  /** The component state that the modelled handlers touch. */
  datatype View = View(imageSrc: Option<string>, status: string, logs: seq<string>)

  const MaxLogs: nat := 50
  const ImagePrefix: string := "data:image/jpeg;base64,"
  const ConnectedNotice: string := "System Connected to Interface"

  /** The state before the socket is opened: no image, "Disconnected", no logs. */
  const Initial: View := View(None, "Disconnected", [])

  /** A log entry as shown: the time in brackets, a space, the message. */
  function Entry(timestamp: string, message: string): string
  {
    "[" + timestamp + "] " + message
  }

  /**
   `addLog`: the new entry goes first, the previous entries follow in their order, and the list
   is cut to its first 50 entries, so when it was full the oldest entry is dropped.
   */
  function AddLog(logs: seq<string>, message: string, timestamp: string): (r: seq<string>)
    ensures |r| == if |logs| < MaxLogs then |logs| + 1 else MaxLogs
    ensures r[0] == Entry(timestamp, message)
    ensures r[1..] == logs[..|r| - 1]
    ensures |logs| >= MaxLogs ==> r[1..] == logs[..MaxLogs - 1]
  {
    var all := [Entry(timestamp, message)] + logs;
    assert all[1..] == logs;
    if |all| <= MaxLogs then all else all[..MaxLogs]
  }

  /** The test of `onmessage`: a string that starts with `LOG:`. */
  predicate IsLog(data: Data)
  {
    data.Str? && |data.s| >= 4 && data.s[..4] == LogTag
  }

  /** A template literal's text for the data: the string itself, or "[object Blob]". */
  function TextOf(data: Data): string
  {
    match data
    case Str(s) => s
    case Blob => "[object Blob]"
  }

  /**
   `onmessage`: a log message adds its text after the tag; anything else becomes the image, as a
   JPEG data URL. Neither touches the status.
   */
  function OnMessage(v: View, data: Data, timestamp: string): (next: View)
    ensures next.status == v.status
    ensures IsLog(data) ==> next.imageSrc == v.imageSrc && next.logs == AddLog(v.logs, data.s[4..], timestamp)
    ensures !IsLog(data) ==> next.logs == v.logs && next.imageSrc == Some(ImagePrefix + TextOf(data))
  {
    if data.Str? && |data.s| >= 4 && data.s[..4] == LogTag then
      v.(logs := AddLog(v.logs, data.s[4..], timestamp))
    else
      v.(imageSrc := Some(ImagePrefix + TextOf(data)))
  }

  /** `connect`, before the socket is created. */
  function Connect(v: View): (next: View)
    ensures next.status == "Connecting..." && next.imageSrc == v.imageSrc && next.logs == v.logs
  {
    v.(status := "Connecting...")
  }

  /** `onopen`: connected, and the connection is announced in the log. */
  function OnOpen(v: View, timestamp: string): (next: View)
    ensures next.status == "Connected" && next.imageSrc == v.imageSrc
    ensures next.logs == AddLog(v.logs, ConnectedNotice, timestamp)
  {
    v.(status := "Connected", logs := AddLog(v.logs, ConnectedNotice, timestamp))
  }

  /** `onclose`: disconnected (the reconnect timer is not modelled). */
  function OnClose(v: View): (next: View)
    ensures next.status == "Disconnected" && next.imageSrc == v.imageSrc && next.logs == v.logs
  {
    v.(status := "Disconnected")
  }

  /** The messages of a session, handled in arrival order; `stamps[i]` is the clock text when
      message `i` arrives. */
  function Receive(v: View, msgs: seq<Data>, stamps: seq<string>): View
    requires |stamps| == |msgs|
  {
    if msgs == [] then v
    else
      var n := |msgs| - 1;
      OnMessage(Receive(v, msgs[..n], stamps[..n]), msgs[n], stamps[n])
  }

  /** The log list after adding several messages in order. */
  function AddLogs(logs: seq<string>, messages: seq<string>, stamps: seq<string>): seq<string>
    requires |stamps| == |messages|
  {
    if messages == [] then logs
    else
      var n := |messages| - 1;
      AddLog(AddLogs(logs, messages[..n], stamps[..n]), messages[n], stamps[n])
  }

  /** The round trip with the server's relay: the viewer logs exactly the message the server
      tagged, and the image stays as it was. */
  lemma LogRoundTrip(v: View, message: string, timestamp: string)
    ensures IsLog(Str(LogLine(message)))
    ensures OnMessage(v, Str(LogLine(message)), timestamp) == v.(logs := AddLog(v.logs, message, timestamp))
  {
  }

  /** The characters of standard base64 text. */
  predicate IsBase64Char(c: char)
  {
    ('A' <= c <= 'Z') || ('a' <= c <= 'z') || ('0' <= c <= '9') || c == '+' || c == '/' || c == '='
  }

  predicate IsBase64(s: string)
  {
    forall i :: 0 <= i < |s| ==> IsBase64Char(s[i])
  }

  /** A base64 frame can never be taken for a log line, since ':' is not a base64 character:
      it always becomes the image, and the logs are left alone. */
  lemma FrameIsNeverLog(v: View, frame: string, timestamp: string)
    requires IsBase64(frame)
    ensures !IsLog(Str(frame))
    ensures OnMessage(v, Str(frame), timestamp) == v.(imageSrc := Some(ImagePrefix + frame))
  {
    if |frame| >= 4 {
      assert IsBase64Char(frame[3]) && frame[..4][3] == frame[3];
      assert frame[..4][3] != LogTag[3];
    }
  }

  /** The lines a publish tick sends after the frame, as the viewer receives them. */
  function LogMessages(messages: seq<string>): (msgs: seq<Data>)
    ensures |msgs| == |messages|
    ensures forall i :: 0 <= i < |messages| ==> msgs[i] == Str(LogLine(messages[i]))
  {
    if messages == [] then [] else LogMessages(messages[..|messages| - 1]) + [Str(LogLine(messages[|messages| - 1]))]
  }

  /**
   What a viewer shows after one publish tick of the server (the frame, then the drained log
   lines): the frame as the image, and the relayed messages added to the log in order.
   */
  lemma {:induction false} TickRoundTrip(v: View, frame: string, messages: seq<string>, stamps: seq<string>)
    requires IsBase64(frame) && |stamps| == |messages| + 1
    ensures Receive(v, [Str(frame)] + LogMessages(messages), stamps)
      == v.(imageSrc := Some(ImagePrefix + frame), logs := AddLogs(v.logs, messages, stamps[1..]))
  {
    var msgs := [Str(frame)] + LogMessages(messages);
    if messages == [] {
      FrameIsNeverLog(v, frame, stamps[0]);
      assert msgs[..0] == [];
    } else {
      var n := |messages| - 1;
      TickRoundTrip(v, frame, messages[..n], stamps[..n + 1]);
      assert msgs[..n + 1] == [Str(frame)] + LogMessages(messages[..n]);
      assert stamps[..n + 1][1..] == stamps[1..][..n];
      assert messages[..n] == messages[..n];
      LogRoundTrip(Receive(v, msgs[..n + 1], stamps[..n + 1]), messages[n], stamps[n + 1]);
    }
  }

  /** Whatever arrives, a log list of at most 50 entries stays within 50. */
  lemma {:induction false} ReceiveKeepsBound(v: View, msgs: seq<Data>, stamps: seq<string>)
    requires |stamps| == |msgs| && |v.logs| <= MaxLogs
    ensures |Receive(v, msgs, stamps).logs| <= MaxLogs
    ensures Receive(v, msgs, stamps).status == v.status
  {
    if msgs != [] {
      var n := |msgs| - 1;
      ReceiveKeepsBound(v, msgs[..n], stamps[..n]);
    }
  }

  /**
   Newest first: after adding messages in order, the list starts with the most recent ones,
   latest at index 0, as far as the cap allows, and holds at most 50 entries.
   */
  lemma {:induction false} AddLogsNewestFirst(logs: seq<string>, messages: seq<string>, stamps: seq<string>)
    requires |stamps| == |messages| && |logs| <= MaxLogs
    ensures var r := AddLogs(logs, messages, stamps);
      && |r| <= MaxLogs
      && |r| >= (if |messages| < MaxLogs then |messages| else MaxLogs)
      && forall i :: 0 <= i < |messages| && i < MaxLogs ==>
           r[i] == Entry(stamps[|messages| - 1 - i], messages[|messages| - 1 - i])
  {
    if messages != [] {
      var n := |messages| - 1;
      AddLogsNewestFirst(logs, messages[..n], stamps[..n]);
      var prev := AddLogs(logs, messages[..n], stamps[..n]);
      var r := AddLog(prev, messages[n], stamps[n]);
      forall i | 0 < i < |messages| && i < MaxLogs
        ensures r[i] == Entry(stamps[n - i], messages[n - i])
      {
        assert r[i] == r[1..][i - 1] == prev[i - 1];
      }
    }
  }

  /** A session from the start: after connecting and opening, the status is "Connected" and the
      log holds the connection notice. */
  lemma OpenedSession(timestamp: string)
    ensures OnOpen(Connect(Initial), timestamp) == View(None, "Connected", [Entry(timestamp, ConnectedNotice)])
  {
  }
}
