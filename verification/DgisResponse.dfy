/**
  What is gathered from a 2GIS response, stated over all its parts at once: every part in
  order with its own line, weight and colour, and a refusal exactly where a limit is broken.
  */
module DgisResponse {
  import opened Domain
  import opened Dgis

  type Line = seq<GeoPoint>

  /** The parts of all maneuvers that have an outgoing path. */
  function AllParts(maneuvers: seq<Option<Path>>): seq<RawPart> {
    if maneuvers == [] then []
    else
      var last := maneuvers[|maneuvers| - 1];
      AllParts(maneuvers[..|maneuvers| - 1]) + if last.Some? then last.value.parts else []
  }

  ghost predicate NoNegativePath(maneuvers: seq<Option<Path>>) {
    forall m :: 0 <= m < |maneuvers| && maneuvers[m].Some? ==>
                  maneuvers[m].value.distance >= 0.0 && maneuvers[m].value.duration >= 0.0
  }

  function PointsIn(lines: seq<Line>): int {
    if lines == [] then 0 else PointsIn(lines[..|lines| - 1]) + |lines[|lines| - 1]|
  }

  function Concat(lines: seq<Line>): Line {
    if lines == [] then [] else Concat(lines[..|lines| - 1]) + lines[|lines| - 1]
  }

  /** A part's own length where it has one, else the length of its line. */
  function WeightOf(part: RawPart, line: Line, survey: Survey): real {
    if part.length > 0.0 then part.length else survey.length(line)
  }

  /** The next part's line, parsed within what 4096 points leave; none when a limit is broken. */
  function NextLine(points: int, part: RawPart, survey: Survey): Option<Line> {
    var line := survey.parse(part.selection, 4096 - points);
    if line.None? || points + |line.value| > 4096 || WeightOf(part, line.value, survey) > 10000000.0 then None
    else line
  }

  /** The lines of all parts, or none. */
  function LinesOf(raw: seq<RawPart>, survey: Survey): (lines: Option<seq<Line>>)
    ensures lines.Some? ==> |lines.value| == |raw|
  {
    if raw == [] then Some([])
    else
      var before := LinesOf(raw[..|raw| - 1], survey);
      if before.None? then None
      else
        var line := NextLine(PointsIn(before.value), raw[|raw| - 1], survey);
        if line.None? then None else Some(before.value + [line.value])
  }

  function PartsOf(raw: seq<RawPart>, lines: seq<Line>, survey: Survey): (parts: seq<Part>)
    requires |raw| == |lines|
    ensures |parts| == |raw|
  {
    if raw == [] then []
    else
      var n := |raw| - 1;
      PartsOf(raw[..n], lines[..n], survey)
      + [Part(lines[n], WeightOf(raw[n], lines[n], survey), survey.normalize(raw[n].colour))]
  }

  /** Every gathered part is the one at its place in the response. */
  lemma {:induction false} PartAt(raw: seq<RawPart>, lines: seq<Line>, survey: Survey, k: nat)
    requires k < |raw| == |lines|
    ensures PartsOf(raw, lines, survey)[k] ==
            Part(lines[k], WeightOf(raw[k], lines[k], survey), survey.normalize(raw[k].colour))
  {
    var n := |raw| - 1;
    if k < n { PartAt(raw[..n], lines[..n], survey, k); }
  }

  function StateOf(raw: seq<RawPart>, lines: seq<Line>, survey: Survey, count: int): Gathered
    requires |raw| == |lines|
  {
    Gathered(AppendDistinct([], Concat(lines)), PartsOf(raw, lines, survey), count, PointsIn(lines))
  }

  lemma {:induction false} AppendTwice(target: Line, a: Line, b: Line)
    ensures AppendDistinct(AppendDistinct(target, a), b) == AppendDistinct(target, a + b)
  {
    if b == [] {
      assert a + b == a;
    } else {
      AppendTwice(target, a, b[..|b| - 1]);
      assert (a + b)[..|a + b| - 1] == a + b[..|b| - 1];
    }
  }

  lemma LinesGrow(raw: seq<RawPart>, part: RawPart, survey: Survey)
    requires LinesOf(raw, survey).Some?
    ensures var lines := LinesOf(raw, survey).value;
            var line := NextLine(PointsIn(lines), part, survey);
            LinesOf(raw + [part], survey) == if line.None? then None else Some(lines + [line.value])
  {
    var more := raw + [part];
    assert more[..|more| - 1] == raw && more[|more| - 1] == part;
  }

  lemma {:induction false} PointsStep(lines: seq<Line>, line: Line)
    ensures PointsIn(lines + [line]) == PointsIn(lines) + |line|
    ensures AppendDistinct([], Concat(lines + [line])) == AppendDistinct(AppendDistinct([], Concat(lines)), line)
  {
    assert (lines + [line])[..|lines|] == lines;
    AppendTwice([], Concat(lines), line);
  }

  lemma PartsStep(raw: seq<RawPart>, lines: seq<Line>, part: RawPart, line: Line, survey: Survey)
    requires |raw| == |lines|
    ensures PartsOf(raw + [part], lines + [line], survey) ==
            PartsOf(raw, lines, survey) + [Part(line, WeightOf(part, line, survey), survey.normalize(part.colour))]
  {
    assert (raw + [part])[..|raw|] == raw && (lines + [line])[..|lines|] == lines;
  }

  lemma {:induction false} StateStep(raw: seq<RawPart>, lines: seq<Line>, part: RawPart, line: Line, survey: Survey,
                                     count: int)
    requires |raw| == |lines|
    ensures var g := StateOf(raw, lines, survey, count);
            StateOf(raw + [part], lines + [line], survey, count) ==
            Gathered(AppendDistinct(g.geometry, line),
                     g.parts + [Part(line, WeightOf(part, line, survey), survey.normalize(part.colour))], count,
                     g.pointCount + |line|)
  {
    PointsStep(lines, line);
    PartsStep(raw, lines, part, line, survey);
  }

  /** The state after some parts, or none if their lines break a limit. */
  function Outcome(raw: seq<RawPart>, survey: Survey, count: int): Option<Gathered> {
    var lines := LinesOf(raw, survey);
    if lines.None? then None else Some(StateOf(raw, lines.value, survey, count))
  }

  lemma TakenPart(g: Gathered, part: RawPart, survey: Survey)
    ensures var line := NextLine(g.pointCount, part, survey);
            TakePart(g, part, survey) ==
            if line.None? then None
            else Some(Gathered(AppendDistinct(g.geometry, line.value),
                               g.parts + [Part(line.value, WeightOf(part, line.value, survey),
                                               survey.normalize(part.colour))],
                               g.partCount, g.pointCount + |line.value|))
  {
  }

  lemma {:induction false} StateGrowsBy(raw: seq<RawPart>, lines: seq<Line>, part: RawPart, survey: Survey, count: int,
                                        line: Option<Line>)
    requires |raw| == |lines| && line == NextLine(PointsIn(lines), part, survey)
    ensures TakePart(StateOf(raw, lines, survey, count), part, survey) ==
            if line.None? then None else Some(StateOf(raw + [part], lines + [line.value], survey, count))
  {
    TakenPart(StateOf(raw, lines, survey, count), part, survey);
    if line.Some? {
      StateStep(raw, lines, part, line.value, survey, count);
    }
  }

  lemma StateGrows(raw: seq<RawPart>, part: RawPart, survey: Survey, count: int)
    requires LinesOf(raw, survey).Some?
    ensures TakePart(Outcome(raw, survey, count).value, part, survey) == Outcome(raw + [part], survey, count)
  {
    var lines := LinesOf(raw, survey).value;
    LinesGrow(raw, part, survey);
    StateGrowsBy(raw, lines, part, survey, count, NextLine(PointsIn(lines), part, survey));
  }

  lemma {:induction false} RefusalStays(raw: seq<RawPart>, more: seq<RawPart>, survey: Survey)
    requires LinesOf(raw, survey).None?
    ensures LinesOf(raw + more, survey).None?
  {
    if more == [] {
      assert raw + more == raw;
    } else {
      RefusalStays(raw, more[..|more| - 1], survey);
      assert (raw + more)[..|raw + more| - 1] == raw + more[..|more| - 1];
    }
  }

  lemma {:induction false} TakenParts(raw: seq<RawPart>, parts: seq<RawPart>, survey: Survey, count: int)
    requires LinesOf(raw, survey).Some?
    ensures TakeParts(Outcome(raw, survey, count).value, parts, survey) == Outcome(raw + parts, survey, count)
  {
    if parts == [] {
      assert raw + parts == raw;
    } else {
      var front, last := parts[..|parts| - 1], parts[|parts| - 1];
      TakenParts(raw, front, survey, count);
      assert raw + parts == (raw + front) + [last];
      if LinesOf(raw + front, survey).None? {
        RefusalStays(raw + front, [last], survey);
      } else {
        StateGrows(raw + front, last, survey, count);
      }
    }
  }

  lemma TakenManeuver(raw: seq<RawPart>, path: Path, survey: Survey)
    requires LinesOf(raw, survey).Some?
    ensures TakeManeuver(Outcome(raw, survey, |raw|).value, Some(path), survey) ==
            if path.distance < 0.0 || path.duration < 0.0 || |raw| + |path.parts| > 4096 then None
            else Outcome(raw + path.parts, survey, |raw| + |path.parts|)
  {
    var g, count := Outcome(raw, survey, |raw|).value, |raw| + |path.parts|;
    TakenParts(raw, path.parts, survey, count);
    Recounted(raw, survey, |raw|, count);
    assert TakeManeuver(g, Some(path), survey) ==
           if path.distance < 0.0 || path.duration < 0.0 || count > 4096 then None
           else TakeParts(g.(partCount := count), path.parts, survey);
  }

  lemma Recounted(raw: seq<RawPart>, survey: Survey, before: int, count: int)
    requires LinesOf(raw, survey).Some?
    ensures Outcome(raw, survey, before).value.(partCount := count) == Outcome(raw, survey, count).value
    ensures Outcome(raw, survey, before).value.partCount == before
  {
  }

  /** Everything that a response must keep to. */
  ghost predicate WithinLimits(maneuvers: seq<Option<Path>>) {
    NoNegativePath(maneuvers) && |AllParts(maneuvers)| <= 4096
  }

  lemma LimitsStep(front: seq<Option<Path>>, last: Option<Path>)
    ensures AllParts(front + [last]) == AllParts(front) + if last.Some? then last.value.parts else []
    ensures WithinLimits(front + [last]) <==>
            && WithinLimits(front)
            && (last.Some? ==> last.value.distance >= 0.0 && last.value.duration >= 0.0
                               && |AllParts(front)| + |last.value.parts| <= 4096)
  {
    var all := front + [last];
    assert all[..|front|] == front;
    assert forall m :: 0 <= m < |front| ==> all[m] == front[m];
    assert all[|front|] == last;
  }

  /**
    Gathering succeeds if and only if no path has a negative measurement, there are at most
    4096 parts, and every part has a line within the point and length limits; it then holds
    all parts in order, and all points without immediate repetition.
    */
  lemma {:induction false} GatherIsExact(maneuvers: seq<Option<Path>>, survey: Survey)
    ensures var raw := AllParts(maneuvers);
            Gather(maneuvers, survey) == if WithinLimits(maneuvers) then Outcome(raw, survey, |raw|) else None
  {
    if maneuvers != [] {
      var front, last := maneuvers[..|maneuvers| - 1], maneuvers[|maneuvers| - 1];
      GatherIsExact(front, survey);
      assert maneuvers == front + [last];
      LimitsStep(front, last);
      var raw := AllParts(front);
      if last.None? {
        assert AllParts(maneuvers) == raw;
      } else if LinesOf(raw, survey).None? {
        RefusalStays(raw, last.value.parts, survey);
      } else {
        TakenManeuver(raw, last.value, survey);
      }
    }
  }

  // ---- points without immediate repetition

  /** Where each point went: from the first to the last, one place on exactly where the point differs. */
  ghost predicate Collapses(points: Line, line: Line, place: seq<nat>) {
    && |place| == |points| && (points != [] ==> place[0] == 0 && place[|points| - 1] == |line| - 1)
    && (points == [] ==> line == [])
    && (forall i :: 0 <= i < |points| ==> place[i] < |line| && line[place[i]] == points[i])
    && (forall i :: 0 < i < |points| ==>
          place[i] == place[i - 1] + if points[i] == points[i - 1] then 0 else 1)
  }

  lemma {:induction false} DistinctCollapses(points: Line) returns (place: seq<nat>)
    ensures Collapses(points, AppendDistinct([], points), place)
  {
    if points == [] {
      place := [];
    } else {
      var n := |points| - 1;
      var line := AppendDistinct([], points);
      var before := DistinctCollapses(points[..n]);
      place := before + [|line| - 1];
      assert forall i :: 0 <= i < n ==> points[..n][i] == points[i];
    }
  }
}
