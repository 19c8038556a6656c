/**
 Candidate selection, shared by rpi/main_system.py, rpi/backup.py and rpi/check.py: one pass
 over the tracked boxes of a frame drops the boxes that have no track id, an unknown class, a
 low confidence, a small area or a centre outside the central corridor, scores the others and
 keeps the first box of strictly greatest score.
 */
module Selector {
  import opened Wrappers

  // Camera geometry (640x480 capture).
  const ScreenW: int := 640
  const ScreenH: int := 480
  const FrameArea: int := ScreenW * ScreenH
  const CenterX: real := ScreenW as real / 2.0

  const AreaThreshold: real := 0.60
  const ConfThreshold: real := 0.45
  const UseCenterCorridor: bool := true
  const CenterCorridorWidthRatio: real := 0.55
  const CorridorHalf: real := (ScreenW as real * CenterCorridorWidthRatio) / 2.0
  const CorridorLeft: real := CenterX - CorridorHalf
  const CorridorRight: real := CenterX + CorridorHalf

  const KnownObjects: seq<string> := [
    "car", "bus", "truck", "bicycle", "motorcycle", "person",
    "dog", "cat", "fire hydrant", "bench", "stop sign",
    "traffic light", "chair"
  ]

  const Priority: map<string, int> := map[
    "person" := 5, "bicycle" := 4, "motorcycle" := 4,
    "car" := 3, "bus" := 3, "truck" := 3,
    "dog" := 2, "cat" := 2, "traffic light" := 1,
    "stop sign" := 1, "fire hydrant" := 1, "bench" := 1, "chair" := 1
  ]

  /** One tracked box as the tracker reports it: the class name is already resolved
      through the model's table of names, the corners are integer pixels. */
  datatype Box = Box(id: Option<int>, x1: int, y1: int, x2: int, y2: int, name: string, conf: real)

  /** The record the loop keeps for the best box so far. */
  datatype Candidate = Candidate(
    score: real, trackId: int, name: string, msg: string,
    coords: (int, int, int, int), areaRatio: real, conf: real)

  /** One tracking result of a frame; `None` stands for a result whose `boxes` is None. */
  type FrameResults = seq<Option<seq<Box>>>

  function ClampedSpan(lo: int, hi: int): nat
  {
    if hi - lo > 0 then hi - lo else 0
  }

  function Width(b: Box): nat { ClampedSpan(b.x1, b.x2) }

  function Height(b: Box): nat { ClampedSpan(b.y1, b.y2) }

  function AreaRatio(b: Box): real
  {
    (Width(b) * Height(b)) as real / FrameArea as real
  }

  /** Horizontal centre of a box given by its left and right edges. */
  function CenterOf(x1: int, x2: int): real
  {
    x1 as real + ClampedSpan(x1, x2) as real / 2.0
  }

  function ObjCenterX(b: Box): real { CenterOf(b.x1, b.x2) }

  predicate InCorridor(cx: real)
  {
    !(cx < CorridorLeft || cx > CorridorRight)
  }

  /** A box survives the five filters of the loop. */
  predicate Qualifies(b: Box)
  {
    && b.id.Some?
    && b.name in KnownObjects
    && !(b.conf < ConfThreshold)
    && !(AreaRatio(b) < AreaThreshold)
    && !(UseCenterCorridor && !InCorridor(ObjCenterX(b)))
  }

  /** `PRIORITY.get(name, 1)` */
  function PriorityOf(name: string): int
  {
    if name in Priority then Priority[name] else 1
  }

  function Score(b: Box): real
  {
    AreaRatio(b) * 100.0 + PriorityOf(b.name) as real * 10.0 + b.conf
  }

  function Direction(cx: real): string
  {
    if cx < CenterX then "Move Right" else "Move Left"
  }

  function Message(b: Box): string
  {
    Direction(ObjCenterX(b)) + ", " + b.name + " ahead"
  }

  function ToCandidate(b: Box): Candidate
    requires b.id.Some?
  {
    Candidate(Score(b), b.id.value, b.name, Message(b), (b.x1, b.y1, b.x2, b.y2), AreaRatio(b), b.conf)
  }

  /** One turn of the loop: a qualifying box replaces the best so far only on a strictly greater score. */
  function Step(best: Option<Candidate>, b: Box): Option<Candidate>
  {
    if !Qualifies(b) then best
    else if best.None? || Score(b) > best.value.score then Some(ToCandidate(b))
    else best
  }

  /** The best candidate of a sequence of boxes scanned from the first to the last. */
  function Best(s: seq<Box>): Option<Candidate>
  {
    if s == [] then None else Step(Best(s[..|s| - 1]), s[|s| - 1])
  }

  /** The boxes of all results in order, skipping results without boxes. */
  function Boxes(results: FrameResults): seq<Box>
  {
    if results == [] then []
    else
      var last := results[|results| - 1];
      Boxes(results[..|results| - 1]) + (if last.Some? then last.value else [])
  }

  /** Box `k` qualifies, no qualifying box scores more, and every qualifying box before it scores less. */
  ghost predicate FirstMaximalAt(s: seq<Box>, k: int)
  {
    && 0 <= k < |s|
    && Qualifies(s[k])
    && (forall j :: 0 <= j < |s| && Qualifies(s[j]) ==> Score(s[j]) <= Score(s[k]))
    && (forall j :: 0 <= j < k && Qualifies(s[j]) ==> Score(s[j]) < Score(s[k]))
  }

  lemma BestSnoc(s: seq<Box>, b: Box)
    ensures Best(s + [b]) == Step(Best(s), b)
  {
    assert (s + [b])[..|s|] == s;
  }

  lemma BoxesSnoc(results: FrameResults, r: Option<seq<Box>>)
    ensures Boxes(results + [r]) == Boxes(results) + (if r.Some? then r.value else [])
  {
    assert (results + [r])[..|results|] == results;
  }

  /** Nothing is selected exactly when no box passes the filters. */
  lemma {:induction false} BestNoneIff(s: seq<Box>)
    ensures Best(s).None? <==> forall k :: 0 <= k < |s| ==> !Qualifies(s[k])
  {
    if s != [] {
      var p := s[..|s| - 1];
      BestNoneIff(p);
      assert forall k :: 0 <= k < |p| ==> p[k] == s[k];
    }
  }

  /** A selected candidate is built from the first box of maximal score among the qualifying ones. */
  lemma {:induction false} BestIsFirstMaximal(s: seq<Box>)
    requires Best(s).Some?
    ensures exists k :: FirstMaximalAt(s, k) && Best(s) == Some(ToCandidate(s[k]))
  {
    var p, b := s[..|s| - 1], s[|s| - 1];
    assert s == p + [b];
    assert forall j :: 0 <= j < |p| ==> p[j] == s[j];
    if Best(p).None? {
      BestNoneIff(p);
      assert FirstMaximalAt(s, |p|);
    } else {
      BestIsFirstMaximal(p);
      var k :| FirstMaximalAt(p, k) && Best(p) == Some(ToCandidate(p[k]));
      if Qualifies(b) && Score(b) > Best(p).value.score {
        assert FirstMaximalAt(s, |p|);
      } else {
        assert FirstMaximalAt(s, k);
      }
    }
  }

  /** Conversely, the first box of maximal score is the one selected. */
  lemma FirstMaximalIsBest(s: seq<Box>, k: int)
    requires FirstMaximalAt(s, k)
    ensures Best(s) == Some(ToCandidate(s[k]))
  {
    BestNoneIff(s);
    BestIsFirstMaximal(s);
    var i :| FirstMaximalAt(s, i) && Best(s) == Some(ToCandidate(s[i]));
    if i < k {
      assert Score(s[i]) < Score(s[k]);
    }
  }

  /** Whatever is selected passes the id, class, confidence, area and corridor filters. */
  lemma SelectedPassesFilters(s: seq<Box>)
    requires Best(s).Some?
    ensures var c := Best(s).value;
      && (exists k :: 0 <= k < |s| && s[k].id == Some(c.trackId))
      && c.name in KnownObjects
      && c.conf >= ConfThreshold
      && c.areaRatio >= AreaThreshold
      && (UseCenterCorridor ==> CorridorLeft <= CenterOf(c.coords.0, c.coords.2) <= CorridorRight)
  {
  }

  /** The spoken instruction points away from the object's side and names its class. */
  lemma MessageDirection(b: Box)
    ensures var m := Message(b);
      && (m[..10] == "Move Right" <==> ObjCenterX(b) < CenterX)
      && (m[..10] == "Move Left," <==> ObjCenterX(b) >= CenterX)
      && m[|m| - |b.name| - 6..] == b.name + " ahead"
  {
    var m := Message(b);
    if ObjCenterX(b) < CenterX {
      assert m[..10] == "Move Right";
    } else {
      assert m[..10] == "Move Left,";
      assert m[..10][5] != "Move Right"[5];
    }
  }

  /** The body of the loop over the boxes: filter one box, then score it and keep it if it is strictly better. */
  method Consider(best: Option<Candidate>, box: Box) returns (next: Option<Candidate>)
    ensures next == Step(best, box)
  {
    next := best;
    if box.id.None? {
      return;
    }
    var trackId := box.id.value;
    var x1, y1, x2, y2 := box.x1, box.y1, box.x2, box.y2;
    var w := if x2 - x1 > 0 then x2 - x1 else 0;
    var h := if y2 - y1 > 0 then y2 - y1 else 0;
    var name := box.name;
    var conf := box.conf;

    if name !in KnownObjects {
      return;
    }
    if conf < ConfThreshold {
      return;
    }
    var areaRatio := (w * h) as real / FrameArea as real;
    if areaRatio < AreaThreshold {
      return;
    }
    var objCenterX := x1 as real + w as real / 2.0;
    if UseCenterCorridor {
      if objCenterX < CorridorLeft || objCenterX > CorridorRight {
        return;
      }
    }
    var direction := if objCenterX < CenterX then "Move Right" else "Move Left";
    var msg := direction + ", " + name + " ahead";
    var pr := if name in Priority then Priority[name] else 1;
    var score := areaRatio * 100.0 + pr as real * 10.0 + conf;

    if best.None? || score > best.value.score {
      next := Some(Candidate(score, trackId, name, msg, (x1, y1, x2, y2), areaRatio, conf));
    }
  }

  /**
   The loop of `run_system` over the results of one frame (the selection part of the frame loop
   in rpi/main_system.py, rpi/backup.py and rpi/check.py).
   */
  method SelectBest(results: FrameResults) returns (best: Option<Candidate>)
    ensures best == Best(Boxes(results))
  {
    best := None;
    for i := 0 to |results|
      invariant best == Best(Boxes(results[..i]))
    {
      assert results[..i + 1] == results[..i] + [results[i]];
      BoxesSnoc(results[..i], results[i]);
      if results[i].None? {
        assert Boxes(results[..i + 1]) == Boxes(results[..i]) + [] == Boxes(results[..i]);
        continue;
      }
      var boxes := results[i].value;
      ghost var done := Boxes(results[..i]);
      assert done + boxes[..0] == done;
      for j := 0 to |boxes|
        invariant best == Best(done + boxes[..j])
      {
        assert done + boxes[..j + 1] == (done + boxes[..j]) + [boxes[j]];
        BestSnoc(done + boxes[..j], boxes[j]);
        best := Consider(best, boxes[j]);
      }
      assert done + boxes[..|boxes|] == Boxes(results[..i + 1]);
    }
    assert results[..|results|] == results;
  }
}
