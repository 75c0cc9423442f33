/** The dwell collapser, collapseStopsInTimeseries in cmd/importer/main.go:
    every stretch from an arrival label to the next departure label is
    replaced by two points a fixed duration apart at the averaged pressure,
    and the time gained or lost is carried forward to every later point. */
module Collapse {
  import opened Series

  /** Go's strings.HasSuffix. */
  predicate HasSuffix(s: string, suffix: string)
  {
    |suffix| <= |s| && s[|s| - |suffix|..] == suffix
  }

  /** isArrival: the label ends in " an" (German for "arrived at"),
      spelled out character by character. */
  function IsArrival(p: Datapoint): (r: bool)
    ensures r ==> |p.event| >= 3 && p.event[|p.event| - 1] == 'n'
  {
    var e := p.event;
    |e| >= 3 && e[|e| - 3] == ' ' && e[|e| - 2] == 'a' && e[|e| - 1] == 'n'
  }

  /** isDeparture: the label ends in " ab" (German for "departed from"); no
      label is both an arrival and a departure. */
  function IsDeparture(p: Datapoint): (r: bool)
    ensures r ==> |p.event| >= 3 && p.event[|p.event| - 1] == 'b'
    ensures r ==> !IsArrival(p)
  {
    var e := p.event;
    |e| >= 3 && e[|e| - 3] == ' ' && e[|e| - 2] == 'a' && e[|e| - 1] == 'b'
  }

  /** The character-wise tests are exactly the suffix tests of the source. */
  lemma LabelsAreSuffixes(p: Datapoint)
    ensures IsArrival(p) <==> HasSuffix(p.event, " an")
    ensures IsDeparture(p) <==> HasSuffix(p.event, " ab")
  {
    var e := p.event;
    if |e| >= 3 {
      var tail := e[|e| - 3..];
      assert tail[0] == e[|e| - 3] && tail[1] == e[|e| - 2] && tail[2] == e[|e| - 1];
      assert " an"[0] == ' ' && " an"[1] == 'a' && " an"[2] == 'n';
      assert " ab"[0] == ' ' && " ab"[1] == 'a' && " ab"[2] == 'b';
      assert |tail| == 3;
    }
  }

  /** What the collapser sees of a point: it opens a stop, closes one, or
      neither. */
  datatype Kind = Arrival | Departure | Other

  /** The kind of a point, from its label; the arrival test is made first,
      as in the source. */
  function KindOf(p: Datapoint): (k: Kind)
    ensures k == Arrival <==> IsArrival(p)
    ensures k == Departure <==> IsDeparture(p)
  {
    if IsArrival(p) then Arrival else if IsDeparture(p) then Departure else Other
  }

  /** The kinds of all points of `ps`, in order. */
  function Kinds(ps: seq<Datapoint>): (ks: seq<Kind>)
    ensures |ks| == |ps| && forall k :: 0 <= k < |ps| ==> ks[k] == KindOf(ps[k])
  {
    seq(|ps|, k requires 0 <= k < |ps| => KindOf(ps[k]))
  }

  /** Every point of ks[lo..hi] is of kind Other. */
  predicate Quiet(ks: seq<Kind>, lo: int, hi: int)
    requires 0 <= lo && hi <= |ks|
  {
    forall k :: lo <= k < hi ==> ks[k] == Other
  }

  /** How the dwell opened by an arrival ends: at a departure, at a second
      arrival (an error), or not at all before the data runs out. */
  datatype DwellEnd = Departs(at: nat) | Clash(at: nat) | Unterminated

  /** The inner scan of the collapser, from index `j` on: the first arrival
      or departure decides how the dwell ends. */
  function ScanFrom(ks: seq<Kind>, j: nat): (r: DwellEnd)
    requires j <= |ks|
    ensures r.Departs? ==> j <= r.at < |ks| && ks[r.at] == Departure && Quiet(ks, j, r.at)
    ensures r.Clash? ==> j <= r.at < |ks| && ks[r.at] == Arrival && Quiet(ks, j, r.at)
    ensures r.Unterminated? ==> Quiet(ks, j, |ks|)
    decreases |ks| - j
  {
    if j == |ks| then Unterminated
    else if ks[j] == Arrival then Clash(j)
    else if ks[j] == Departure then Departs(j)
    else ScanFrom(ks, j + 1)
  }

  /** The scan stops at the first departure when only points of kind Other
      lie before it. */
  lemma {:induction false} ScanFindsDeparture(ks: seq<Kind>, from: nat, j: nat)
    requires from <= j < |ks| && ks[j] == Departure && Quiet(ks, from, j)
    ensures ScanFrom(ks, from) == Departs(j)
    decreases j - from
  {
    if from < j {
      ScanFindsDeparture(ks, from + 1, j);
    }
  }

  /** The scan stops at a second arrival when only points of kind Other lie
      before it. */
  lemma {:induction false} ScanFindsClash(ks: seq<Kind>, from: nat, b: nat)
    requires from <= b < |ks| && ks[b] == Arrival && Quiet(ks, from, b)
    ensures ScanFrom(ks, from) == Clash(b)
    decreases b - from
  {
    if from < b {
      ScanFindsClash(ks, from + 1, b);
    }
  }

  /** The scan runs to the end when only points of kind Other are left. */
  lemma {:induction false} ScanFindsNothing(ks: seq<Kind>, from: nat)
    requires from <= |ks| && Quiet(ks, from, |ks|)
    ensures ScanFrom(ks, from) == Unterminated
    decreases |ks| - from
  {
    if from < |ks| {
      ScanFindsNothing(ks, from + 1);
    }
  }

  /** The sum of `values`, added up from the front as average's loop does. */
  function Sum(values: seq<real>): real
  {
    if values == [] then 0.0 else Sum(values[..|values| - 1]) + values[|values| - 1]
  }

  /** The arithmetic mean of a non-empty list. */
  function Mean(values: seq<real>): real
    requires values != []
  {
    Sum(values) / |values| as real
  }

  /** A sum of values that all lie between `lo` and `hi` lies between the
      count times `lo` and the count times `hi`. */
  lemma {:induction false} SumBounds(values: seq<real>, lo: real, hi: real)
    requires forall k :: 0 <= k < |values| ==> lo <= values[k] <= hi
    ensures |values| as real * lo <= Sum(values) <= |values| as real * hi
  {
    if values != [] {
      SumBounds(values[..|values| - 1], lo, hi);
    }
  }

  /** The mean of values between `lo` and `hi` lies between `lo` and `hi`:
      the averaged pressure of a stop stays within the range of the pressures
      recorded during it. */
  lemma MeanBounds(values: seq<real>, lo: real, hi: real)
    requires values != []
    requires forall k :: 0 <= k < |values| ==> lo <= values[k] <= hi
    ensures lo <= Mean(values) <= hi
  {
    SumBounds(values, lo, hi);
    var n := |values| as real;
    assert Mean(values) * n == Sum(values);
  }

  /** average: the sum divided by the count. The source divides 0 by 0 for an
      empty list, which in floating point is NaN; None stands for it here. */
  method Average(values: seq<real>) returns (avg: Option<real>)
    ensures avg.None? <==> values == []
    ensures avg.Some? ==> avg.value == Mean(values)
  {
    var acc := 0.0;
    for k := 0 to |values|
      invariant acc == Sum(values[..k])
    {
      assert values[..k + 1][..k] == values[..k];
      acc := acc + values[k];
    }
    assert values[..|values|] == values;
    if |values| == 0 {
      avg := None;
    } else {
      avg := Some(acc / |values| as real);
    }
  }

  /** The pressures of `ps`, in order. */
  function Pressures(ps: seq<Datapoint>): (r: seq<real>)
    ensures |r| == |ps| && forall k :: 0 <= k < |ps| ==> r[k] == ps[k].pressure
  {
    seq(|ps|, k requires 0 <= k < |ps| => ps[k].pressure)
  }

  /** The sum of the pressures of ps[lo..hi], added up from the front. This
      restates Sum over Pressures by index, without slices, so that the
      collapse specification stays cheap for the solver; PressureSumIsSum
      ties the two together. */
  function PressureSum(ps: seq<Datapoint>, lo: nat, hi: nat): real
    requires lo <= hi <= |ps|
    decreases hi
  {
    if hi == lo then 0.0 else PressureSum(ps, lo, hi - 1) + ps[hi - 1].pressure
  }

  /** The pressure a stop from the arrival at `i` to the departure at `j`
      is flattened to: the mean over points i to j, both included. */
  function StopPressure(ps: seq<Datapoint>, i: nat, j: nat): real
    requires i <= j < |ps|
  {
    PressureSum(ps, i, j + 1) / (j + 1 - i) as real
  }

  lemma {:induction false} PressureSumIsSum(ps: seq<Datapoint>, lo: nat, hi: nat)
    requires lo <= hi <= |ps|
    ensures PressureSum(ps, lo, hi) == Sum(Pressures(ps[lo..hi]))
    decreases hi
  {
    if hi > lo {
      PressureSumIsSum(ps, lo, hi - 1);
      var vs := Pressures(ps[lo..hi]);
      assert vs[..|vs| - 1] == Pressures(ps[lo..hi - 1]);
    }
  }

  /** The stop's pressure is the average of the pressures read from its
      arrival to its departure. */
  lemma StopPressureIsMean(ps: seq<Datapoint>, i: nat, j: nat)
    requires i <= j < |ps|
    ensures StopPressure(ps, i, j) == Mean(Pressures(ps[i..j + 1]))
  {
    PressureSumIsSum(ps, i, j + 1);
  }

  /** The collapser's one error: an arrival follows an arrival with no
      departure in between; it names the first arrival's time. */
  datatype Error = PairingError(arrival: Time)

  datatype Result<T> = Ok(value: T) | Err(error: Error)

  /** `head` emitted before whatever `rest` produces; an error stays. */
  function Prepend(head: seq<Datapoint>, rest: Result<seq<Datapoint>>): Result<seq<Datapoint>>
  {
    match rest
    case Ok(tail) => Ok(head + tail)
    case Err(e) => Err(e)
  }

  lemma PrependNothing(rest: Result<seq<Datapoint>>)
    ensures Prepend([], rest) == rest
  {
    if rest.Ok? {
      assert [] + rest.value == rest.value;
    }
  }

  lemma PrependPrepend(a: seq<Datapoint>, b: seq<Datapoint>, rest: Result<seq<Datapoint>>)
    ensures Prepend(a + b, rest) == Prepend(a, Prepend(b, rest))
  {
    if rest.Ok? {
      assert (a + b) + rest.value == a + (b + rest.value);
    }
  }

  /** Every emitted point moved along the time axis by `delta`; an error
      stays. */
  function ShiftResult(r: Result<seq<Datapoint>>, delta: Duration): Result<seq<Datapoint>>
  {
    match r
    case Ok(s) => Ok(ShiftAll(s, delta))
    case Err(e) => Err(e)
  }

  lemma ShiftPrepend(head: seq<Datapoint>, rest: Result<seq<Datapoint>>, delta: Duration)
    ensures ShiftResult(Prepend(head, rest), delta) == Prepend(ShiftAll(head, delta), ShiftResult(rest, delta))
  {
    if rest.Ok? {
      ShiftAllAppend(head, rest.value, delta);
    }
  }

  /** The two points a stop from the arrival at `i` to the departure at `j`
      becomes: at `start` and `d` later, both at the mean pressure of points
      i to j, the departure's included, labelled with the arrival's and the
      departure's label. */
  function StopPoints(ps: seq<Datapoint>, d: Duration, i: nat, j: nat, start: Time): (r: seq<Datapoint>)
    requires i <= j < |ps|
    ensures |r| == 2 && r[0].recorded == start && r[1].recorded == start + d
    ensures r[0].event == ps[i].event && r[1].event == ps[j].event
  {
    var pressure := StopPressure(ps, i, j);
    [Datapoint(start, pressure, ps[i].event), Datapoint(start + d, pressure, ps[j].event)]
  }

  /** Shifting the stop's points is starting the stop later. */
  lemma StopPointsShift(ps: seq<Datapoint>, d: Duration, i: nat, j: nat, start: Time, delta: Duration)
    requires i <= j < |ps|
    ensures ShiftAll(StopPoints(ps, d, i, j, start), delta) == StopPoints(ps, d, i, j, start + delta)
  {
    var a, b := StopPoints(ps, d, i, j, start), StopPoints(ps, d, i, j, start + delta);
    assert ShiftAll(a, delta)[0] == b[0] && ShiftAll(a, delta)[1] == b[1];
  }

  /** The running shift after that stop: it now lasts `d` instead of the time
      recorded between its arrival and its departure. */
  function ShiftAfterStop(ps: seq<Datapoint>, d: Duration, i: nat, j: nat, shift: Duration): Duration
    requires i <= j < |ps|
  {
    shift + d - (ps[j].recorded - ps[i].recorded)
  }

  /** Where one round of the outer loop leaves the scan: the points it
      emitted, the index it goes on from and the running shift. */
  datatype Advance = Advance(emitted: seq<Datapoint>, next: nat, shift: Duration)

  /** What the scan emits from index `i` on, given the kinds `ks` of the
      points and the time shift accumulated so far. A point that is no
      arrival, or an arrival whose dwell runs to the end, is emitted shifted;
      an arrival matched with a departure at `j` becomes the two points of
      the stop, and the scan resumes after `j` with the shift after the stop;
      a second arrival before the departure is an error. */
  function CollapseFrom(ps: seq<Datapoint>, ks: seq<Kind>, d: Duration, i: nat, shift: Duration): Result<seq<Datapoint>>
    requires |ks| == |ps| && i <= |ps|
    decreases |ps| - i
  {
    if i == |ps| then Ok([])
    else if ks[i] != Arrival then Prepend([Shifted(ps[i], shift)], CollapseFrom(ps, ks, d, i + 1, shift))
    else match ScanFrom(ks, i + 1)
      case Clash(_) => Err(PairingError(ps[i].recorded))
      case Unterminated => Prepend([Shifted(ps[i], shift)], CollapseFrom(ps, ks, d, i + 1, shift))
      case Departs(j) =>
        Prepend(StopPoints(ps, d, i, j, ps[i].recorded + shift),
                CollapseFrom(ps, ks, d, j + 1, ShiftAfterStop(ps, d, i, j, shift)))
  }

  /** A point that opens no stop is emitted shifted. */
  lemma CollapseFromPlain(ps: seq<Datapoint>, ks: seq<Kind>, d: Duration, i: nat, shift: Duration)
    requires |ks| == |ps| && i < |ps| && (ks[i] != Arrival || ScanFrom(ks, i + 1).Unterminated?)
    ensures CollapseFrom(ps, ks, d, i, shift) == Prepend([Shifted(ps[i], shift)], CollapseFrom(ps, ks, d, i + 1, shift))
  {
  }

  /** An arrival matched with a departure is emitted as its stop. */
  lemma CollapseFromStop(ps: seq<Datapoint>, ks: seq<Kind>, d: Duration, i: nat, j: nat, shift: Duration)
    requires |ks| == |ps| && i < |ps| && ks[i] == Arrival && ScanFrom(ks, i + 1) == Departs(j)
    ensures CollapseFrom(ps, ks, d, i, shift)
         == Prepend(StopPoints(ps, d, i, j, ps[i].recorded + shift), CollapseFrom(ps, ks, d, j + 1, ShiftAfterStop(ps, d, i, j, shift)))
  {
  }

  /** An arrival followed by another arrival before any departure is the
      collapser's error. */
  lemma CollapseFromClash(ps: seq<Datapoint>, ks: seq<Kind>, d: Duration, i: nat, shift: Duration)
    requires |ks| == |ps| && i < |ps| && ks[i] == Arrival && ScanFrom(ks, i + 1).Clash?
    ensures CollapseFrom(ps, ks, d, i, shift) == Err(PairingError(ps[i].recorded))
  {
  }

  /** The collapsed series: fewer than two points are left alone, longer
      series are scanned from the start with no shift. */
  function Collapsed(ps: seq<Datapoint>, d: Duration): Result<seq<Datapoint>>
  {
    if |ps| < 2 then Ok(ps) else CollapseFrom(ps, Kinds(ps), d, 0, 0)
  }

  /** collapseStopsInTimeseries: a series of fewer than two points is
      returned itself; otherwise a new series holds the collapsed points, or
      the pairing error is reported and no series is returned. */
  method CollapseStopsInTimeseries(data: Timeseries, collapseDuration: Duration) returns (r: Result<Timeseries>)
    ensures |data.points| < 2 ==> r == Ok(data)
    ensures |data.points| >= 2 && r.Ok? ==> fresh(r.value)
    ensures r.Ok? <==> Collapsed(data.points, collapseDuration).Ok?
    ensures r.Ok? ==> r.value.points == Collapsed(data.points, collapseDuration).value
    ensures r.Ok? && |data.points| >= 2 ==> r.value.timeOffset == 0 && r.value.pressureOffset == 0.0
    ensures r.Err? ==> Collapsed(data.points, collapseDuration) == Err(r.error)
  {
    if |data.points| < 2 {
      return Ok(data);
    }

    var result := new Timeseries([]);
    var totalPoints := |data.points|;
    ghost var ps := data.points;
    ghost var ks := Kinds(ps);
    var timeShift := 0;

    var i := 0;
    ghost var target := CollapseFrom(ps, ks, collapseDuration, 0, 0);
    PrependNothing(target);
    while i < totalPoints
      invariant 0 <= i <= totalPoints
      invariant Prepend(result.points, CollapseFrom(ps, ks, collapseDuration, i, timeShift)) == target
      invariant result.timeOffset == 0 && result.pressureOffset == 0.0
      decreases totalPoints - i
    {
      var step := CollapseAt(data.points, collapseDuration, i, timeShift);
      if step.Err? {
        return Err(step.error);
      }
      PrependPrepend(result.points, step.value.emitted, CollapseFrom(ps, ks, collapseDuration, step.value.next, step.value.shift));
      result.points := result.points + step.value.emitted;
      i, timeShift := step.value.next, step.value.shift;
    }
    r := Ok(result);
  }

  /** One round of the outer loop of collapseStopsInTimeseries, from the
      point at `i` under the running shift: the points it emits, where the
      loop goes on and the shift it goes on with, or the pairing error. */
  method CollapseAt(points: seq<Datapoint>, collapseDuration: Duration, i: nat, timeShift: Duration) returns (r: Result<Advance>)
    requires i < |points|
    ensures r.Err? ==> CollapseFrom(points, Kinds(points), collapseDuration, i, timeShift) == Err(r.error)
    ensures r.Ok? ==> i < r.value.next <= |points|
    ensures r.Ok? ==>
      CollapseFrom(points, Kinds(points), collapseDuration, i, timeShift)
        == Prepend(r.value.emitted, CollapseFrom(points, Kinds(points), collapseDuration, r.value.next, r.value.shift))
  {
    ghost var ks := Kinds(points);
    var point := points[i];
    assert ks[i] == KindOf(point);

    if IsArrival(point) {
      var end, pressures := ScanDwell(points, i);
      if end.Clash? {
        CollapseFromClash(points, ks, collapseDuration, i, timeShift);
        return Err(PairingError(point.recorded));
      }
      if end.Departs? {
        var emitted, nextShift := EmitStop(points, collapseDuration, i, end.at, timeShift, pressures);
        CollapseFromStop(points, ks, collapseDuration, i, end.at, timeShift);
        return Ok(Advance(emitted, end.at + 1, nextShift));
      }
    }

    CollapseFromPlain(points, ks, collapseDuration, i, timeShift);
    r := Ok(Advance([Shifted(point, timeShift)], i + 1, timeShift));
  }

  /** The inner loop of collapseStopsInTimeseries: reading on from the
      arrival at `i`, the first arrival or departure ends the dwell. The
      pressures read so far, the arrival's first, come along; on a departure
      they run from the arrival to the departure, both included. */
  method ScanDwell(points: seq<Datapoint>, i: nat) returns (end: DwellEnd, pressures: seq<real>)
    requires i < |points|
    ensures end == ScanFrom(Kinds(points), i + 1)
    ensures end.Departs? ==> i < end.at < |points|
    ensures end.Departs? ==> pressures == Pressures(points[i..end.at + 1])
  {
    ghost var ks := Kinds(points);
    pressures := [points[i].pressure];
    assert points[i..i + 1] == [points[i]];
    var j := i + 1;
    while j < |points|
      invariant i + 1 <= j <= |points|
      invariant ScanFrom(ks, i + 1) == ScanFrom(ks, j)
      invariant pressures == Pressures(points[i..j])
    {
      var jPoint := points[j];
      assert ks[j] == KindOf(jPoint);
      if IsArrival(jPoint) {
        return Clash(j), pressures;
      }
      PressuresExtend(points, i, j);
      pressures := pressures + [jPoint.pressure];
      if IsDeparture(jPoint) {
        return Departs(j), pressures;
      }
      j := j + 1;
    }
    end := Unterminated;
  }

  /** The two points the stop from the arrival at `i` to the departure at
      `j` is replaced by, given the pressures read from `i` to `j`, and the
      running shift after the stop. */
  method EmitStop(points: seq<Datapoint>, collapseDuration: Duration, i: nat, j: nat, timeShift: Duration, pressures: seq<real>)
    returns (emitted: seq<Datapoint>, nextShift: Duration)
    requires i <= j < |points| && pressures == Pressures(points[i..j + 1])
    ensures emitted == StopPoints(points, collapseDuration, i, j, points[i].recorded + timeShift)
    ensures nextShift == ShiftAfterStop(points, collapseDuration, i, j, timeShift)
  {
    var point := points[i];
    var avg := Average(pressures);
    var pressure := avg.value;
    StopPressureIsMean(points, i, j);
    var departurePoint := points[j];
    emitted := [Datapoint(point.recorded + timeShift, pressure, point.event),
                Datapoint(point.recorded + timeShift + collapseDuration, pressure, departurePoint.event)];
    var actualDuration := departurePoint.recorded - point.recorded;
    var newShift := collapseDuration - actualDuration;
    nextShift := timeShift + newShift;
  }

  /** One more point read by the inner scan is one more pressure. */
  lemma PressuresExtend(ps: seq<Datapoint>, i: nat, j: nat)
    requires i <= j < |ps|
    ensures Pressures(ps[i..j + 1]) == Pressures(ps[i..j]) + [ps[j].pressure]
  {
    assert ps[i..j + 1] == ps[i..j] + [ps[j]];
  }

  /** A stretch without arrivals is emitted point for point, each point
      shifted by the running shift. */
  lemma {:induction false} PlainStretch(ps: seq<Datapoint>, ks: seq<Kind>, d: Duration, lo: nat, hi: nat, shift: Duration)
    requires |ks| == |ps| && lo <= hi <= |ps|
    requires forall k :: lo <= k < hi ==> ks[k] != Arrival
    ensures CollapseFrom(ps, ks, d, lo, shift) == Prepend(ShiftAll(ps[lo..hi], shift), CollapseFrom(ps, ks, d, hi, shift))
    decreases hi - lo
  {
    if lo < hi {
      PlainStretch(ps, ks, d, lo + 1, hi, shift);
      CollapseFromPlain(ps, ks, d, lo, shift);
      assert ShiftAll(ps[lo..hi], shift) == [Shifted(ps[lo], shift)] + ShiftAll(ps[lo + 1..hi], shift);
      PrependPrepend([Shifted(ps[lo], shift)], ShiftAll(ps[lo + 1..hi], shift), CollapseFrom(ps, ks, d, hi, shift));
    } else {
      assert ShiftAll(ps[lo..hi], shift) == [];
      PrependNothing(CollapseFrom(ps, ks, d, hi, shift));
    }
  }

  /** Without arrivals the remaining points are emitted unchanged apart from
      the running shift. */
  lemma NoArrivalsFrom(ps: seq<Datapoint>, ks: seq<Kind>, d: Duration, i: nat, shift: Duration)
    requires |ks| == |ps| && i <= |ps|
    requires forall k :: i <= k < |ps| ==> ks[k] != Arrival
    ensures CollapseFrom(ps, ks, d, i, shift) == Ok(ShiftAll(ps[i..], shift))
  {
    PlainStretch(ps, ks, d, i, |ps|, shift);
    assert ps[i..|ps|] == ps[i..];
    assert ShiftAll(ps[i..], shift) + [] == ShiftAll(ps[i..], shift);
  }

  /** A series without arrival labels comes out of the collapser unchanged:
      the shift never leaves zero. */
  lemma CollapsedWithoutArrivals(ps: seq<Datapoint>, d: Duration)
    requires forall k :: 0 <= k < |ps| ==> !IsArrival(ps[k])
    ensures Collapsed(ps, d) == Ok(ps)
  {
    if |ps| >= 2 {
      NoArrivalsFrom(ps, Kinds(ps), d, 0, 0);
      ShiftAllZero(ps);
      assert ps[0..] == ps;
    }
  }

  /** The running shift moves everything the scan emits by the same amount:
      starting the scan with `delta` more shift moves every emitted point by
      `delta` and leaves the outcome, and any error, as it was. */
  lemma {:induction false} CollapseShiftsUniformly(ps: seq<Datapoint>, ks: seq<Kind>, d: Duration, i: nat, shift: Duration, delta: Duration)
    requires |ks| == |ps| && i <= |ps|
    ensures CollapseFrom(ps, ks, d, i, shift + delta) == ShiftResult(CollapseFrom(ps, ks, d, i, shift), delta)
    decreases |ps| - i
  {
    if i == |ps| {
      assert ShiftAll([], delta) == [];
    } else if ks[i] != Arrival || ScanFrom(ks, i + 1).Unterminated? {
      CollapseShiftsUniformly(ps, ks, d, i + 1, shift, delta);
      CollapseFromPlain(ps, ks, d, i, shift);
      CollapseFromPlain(ps, ks, d, i, shift + delta);
      ShiftPrepend([Shifted(ps[i], shift)], CollapseFrom(ps, ks, d, i + 1, shift), delta);
      assert ShiftAll([Shifted(ps[i], shift)], delta) == [Shifted(ps[i], shift + delta)];
    } else if ScanFrom(ks, i + 1).Departs? {
      var j := ScanFrom(ks, i + 1).at;
      var after := ShiftAfterStop(ps, d, i, j, shift);
      var rest := CollapseFrom(ps, ks, d, j + 1, after);
      var stop := StopPoints(ps, d, i, j, ps[i].recorded + shift);
      CollapseFromStop(ps, ks, d, i, j, shift);
      assert ShiftAfterStop(ps, d, i, j, shift + delta) == after + delta;
      assert ps[i].recorded + (shift + delta) == ps[i].recorded + shift + delta;
      CollapseShiftsUniformly(ps, ks, d, j + 1, after, delta);
      StopPointsShift(ps, d, i, j, ps[i].recorded + shift, delta);
      CollapseFromStop(ps, ks, d, i, j, shift + delta);
      ShiftPrepend(stop, rest, delta);
    } else {
      CollapseFromClash(ps, ks, d, i, shift);
      CollapseFromClash(ps, ks, d, i, shift + delta);
    }
  }

  /** One collapsed stop: an arrival at `i` whose dwell ends at a departure
      at `j` yields two points, at the arrival's shifted time and `d` later,
      both at the stop's pressure, labelled with the arrival's and the
      departure's label; every later point comes out as the scan from
      `j + 1` alone would emit it, shifted by a further `d` minus the
      recorded length of the stop, and an error there is the error here. */
  lemma CollapseStop(ps: seq<Datapoint>, ks: seq<Kind>, d: Duration, i: nat, j: nat, shift: Duration)
    requires |ks| == |ps| && i < j < |ps|
    requires ks[i] == Arrival && ks[j] == Departure && Quiet(ks, i + 1, j)
    ensures var pressure := StopPressure(ps, i, j);
            CollapseFrom(ps, ks, d, i, shift)
            == Prepend([Datapoint(ps[i].recorded + shift, pressure, ps[i].event),
                        Datapoint(ps[i].recorded + shift + d, pressure, ps[j].event)],
                       ShiftResult(CollapseFrom(ps, ks, d, j + 1, 0), shift + d - (ps[j].recorded - ps[i].recorded)))
  {
    ScanFindsDeparture(ks, i + 1, j);
    CollapseFromStop(ps, ks, d, i, j, shift);
    var after := ShiftAfterStop(ps, d, i, j, shift);
    CollapseShiftsUniformly(ps, ks, d, j + 1, 0, after);
    assert 0 + after == after;
  }

  /** CollapseSingleStop over the kinds of the points. */
  lemma CollapseFromSingleStop(ps: seq<Datapoint>, ks: seq<Kind>, d: Duration, i: nat, j: nat)
    requires |ks| == |ps| && i < j < |ps|
    requires ks[i] == Arrival && ks[j] == Departure && Quiet(ks, i + 1, j)
    requires forall k :: 0 <= k < |ks| && k != i ==> ks[k] != Arrival
    ensures CollapseFrom(ps, ks, d, 0, 0)
            == Ok(ps[..i] + StopPoints(ps, d, i, j, ps[i].recorded) + ShiftAll(ps[j + 1..], ShiftAfterStop(ps, d, i, j, 0)))
  {
    var stop := StopPoints(ps, d, i, j, ps[i].recorded + 0);
    var after := ShiftAfterStop(ps, d, i, j, 0);
    var tail := ShiftAll(ps[j + 1..], after);
    PlainStretch(ps, ks, d, 0, i, 0);
    ShiftAllZero(ps[0..i]);
    assert ps[0..i] == ps[..i];
    ScanFindsDeparture(ks, i + 1, j);
    CollapseFromStop(ps, ks, d, i, j, 0);
    NoArrivalsFrom(ps, ks, d, j + 1, after);
    assert CollapseFrom(ps, ks, d, i, 0) == Ok(stop + tail);
    assert ps[..i] + (stop + tail) == ps[..i] + stop + tail;
  }

  /** The case the collapser is built for: a series whose one arrival, at
      `i`, is closed by a departure at `j` becomes the points before `i`
      unchanged, the two points of the stop, and the points after `j`
      shifted by `d` minus the recorded length of the stop. */
  lemma CollapseSingleStop(ps: seq<Datapoint>, d: Duration, i: nat, j: nat)
    requires i < j < |ps| && IsArrival(ps[i]) && IsDeparture(ps[j])
    requires forall k :: i < k < j ==> !IsDeparture(ps[k])
    requires forall k :: 0 <= k < |ps| && k != i ==> !IsArrival(ps[k])
    ensures var pressure := StopPressure(ps, i, j);
            Collapsed(ps, d)
            == Ok(ps[..i]
                  + [Datapoint(ps[i].recorded, pressure, ps[i].event), Datapoint(ps[i].recorded + d, pressure, ps[j].event)]
                  + ShiftAll(ps[j + 1..], d - (ps[j].recorded - ps[i].recorded)))
  {
    var ks := Kinds(ps);
    assert Quiet(ks, i + 1, j);
    CollapseFromSingleStop(ps, ks, d, i, j);
  }

  /** An arrival with only quiet points after it, wherever the scan meets it
      and under whatever running shift: it and every later point are emitted
      with that shift, each with its own pressure and label. */
  lemma CollapseFromUnterminatedArrival(ps: seq<Datapoint>, ks: seq<Kind>, d: Duration, i: nat, shift: Duration)
    requires |ks| == |ps| && i < |ps| && ks[i] == Arrival && Quiet(ks, i + 1, |ks|)
    ensures CollapseFrom(ps, ks, d, i, shift) == Ok(ShiftAll(ps[i..], shift))
  {
    ScanFindsNothing(ks, i + 1);
    CollapseFromPlain(ps, ks, d, i, shift);
    NoArrivalsFrom(ps, ks, d, i + 1, shift);
    assert ps[i..] == [ps[i]] + ps[i + 1..];
    ShiftAllAppend([ps[i]], ps[i + 1..], shift);
    assert ShiftAll([ps[i]], shift) == [Shifted(ps[i], shift)];
  }

  /** CollapseUnterminatedStop over the kinds of the points. */
  lemma CollapseFromUnterminated(ps: seq<Datapoint>, ks: seq<Kind>, d: Duration, i: nat)
    requires |ks| == |ps| && i < |ps| && ks[i] == Arrival && Quiet(ks, i + 1, |ks|)
    requires forall k :: 0 <= k < |ks| && k != i ==> ks[k] != Arrival
    ensures CollapseFrom(ps, ks, d, 0, 0) == Ok(ps)
  {
    PlainStretch(ps, ks, d, 0, i, 0);
    ShiftAllZero(ps[0..i]);
    ScanFindsNothing(ks, i + 1);
    CollapseFromPlain(ps, ks, d, i, 0);
    NoArrivalsFrom(ps, ks, d, i + 1, 0);
    ShiftAllZero(ps[i + 1..]);
    assert Shifted(ps[i], 0) == ps[i];
    assert CollapseFrom(ps, ks, d, i, 0) == Ok([ps[i]] + ps[i + 1..]);
    assert ps[0..i] + ([ps[i]] + ps[i + 1..]) == ps;
  }

  /** A series whose only arrival has neither an arrival nor a departure
      after it comes out of the collapser unchanged: the shift never leaves
      zero. */
  lemma CollapseUnterminatedStop(ps: seq<Datapoint>, d: Duration, i: nat)
    requires i < |ps| && IsArrival(ps[i])
    requires forall k :: 0 <= k < |ps| && k != i ==> !IsArrival(ps[k])
    requires forall k :: i < k < |ps| ==> !IsDeparture(ps[k])
    ensures Collapsed(ps, d) == Ok(ps)
  {
    if |ps| >= 2 {
      var ks := Kinds(ps);
      assert Quiet(ks, i + 1, |ks|);
      CollapseFromUnterminated(ps, ks, d, i);
    }
  }

  /** Each stop turns at least two points into exactly two, so the scan never
      emits more points than it reads. */
  lemma {:induction false} CollapseFromNoLonger(ps: seq<Datapoint>, ks: seq<Kind>, d: Duration, i: nat, shift: Duration)
    requires |ks| == |ps| && i <= |ps|
    requires CollapseFrom(ps, ks, d, i, shift).Ok?
    ensures |CollapseFrom(ps, ks, d, i, shift).value| <= |ps| - i
    decreases |ps| - i
  {
    if i == |ps| {
    } else if ks[i] != Arrival || ScanFrom(ks, i + 1).Unterminated? {
      CollapseFromPlain(ps, ks, d, i, shift);
      CollapseFromNoLonger(ps, ks, d, i + 1, shift);
    } else if ScanFrom(ks, i + 1).Departs? {
      var j := ScanFrom(ks, i + 1).at;
      CollapseFromStop(ps, ks, d, i, j, shift);
      CollapseFromNoLonger(ps, ks, d, j + 1, ShiftAfterStop(ps, d, i, j, shift));
    }
  }

  /** The collapsed series is never longer than the input. */
  lemma CollapsedNoLonger(ps: seq<Datapoint>, d: Duration)
    requires Collapsed(ps, d).Ok?
    ensures |Collapsed(ps, d).value| <= |ps|
  {
    if |ps| >= 2 {
      CollapseFromNoLonger(ps, Kinds(ps), d, 0, 0);
    }
  }

  /** Arrivals at `a` and `b` with only points of kind Other between them. */
  predicate ArrivalFollowsArrival(ks: seq<Kind>, a: int, b: int)
  {
    0 <= a < b < |ks| && ks[a] == Arrival && ks[b] == Arrival && Quiet(ks, a + 1, b)
  }

  /** An arrival at or after `i` that is followed by another arrival before
      any departure makes the scan from `i` fail. */
  lemma {:induction false} CollapseFromFailsAt(ps: seq<Datapoint>, ks: seq<Kind>, d: Duration, i: nat, shift: Duration, a: nat, b: nat)
    requires |ks| == |ps| && i <= a && ArrivalFollowsArrival(ks, a, b)
    ensures CollapseFrom(ps, ks, d, i, shift).Err?
    decreases |ps| - i
  {
    if i == a {
      ScanFindsClash(ks, a + 1, b);
      CollapseFromClash(ps, ks, d, i, shift);
    } else if ks[i] != Arrival || ScanFrom(ks, i + 1).Unterminated? {
      CollapseFromPlain(ps, ks, d, i, shift);
      CollapseFromFailsAt(ps, ks, d, i + 1, shift, a, b);
    } else if ScanFrom(ks, i + 1).Departs? {
      var j := ScanFrom(ks, i + 1).at;
      assert ks[a] != Other && ks[j] != Arrival;
      CollapseFromStop(ps, ks, d, i, j, shift);
      CollapseFromFailsAt(ps, ks, d, j + 1, ShiftAfterStop(ps, d, i, j, shift), a, b);
    } else {
      CollapseFromClash(ps, ks, d, i, shift);
    }
  }

  /** A point the scan emits on its own opens no dwell that could fail:
      either it is no arrival, or nothing but quiet points follow it. */
  lemma NoClashAtPlain(ks: seq<Kind>, i: nat)
    requires i < |ks| && (ks[i] != Arrival || ScanFrom(ks, i + 1).Unterminated?)
    ensures forall b :: !ArrivalFollowsArrival(ks, i, b)
  {
  }

  /** No arrival from the start of a matched stop to its departure is
      followed by another arrival before a departure: the scan skips all of
      them for good reason. */
  lemma NoClashInStop(ks: seq<Kind>, i: nat, j: nat)
    requires i < |ks| && ks[i] == Arrival && ScanFrom(ks, i + 1) == Departs(j)
    ensures forall a, b :: i <= a <= j ==> !ArrivalFollowsArrival(ks, a, b)
  {
    assert Quiet(ks, i + 1, j) && ks[j] == Departure;
  }

  /** A failing scan from `i` names the time of the first arrival at or
      after `i` that is followed by another arrival before any departure. */
  lemma {:induction false} CollapseFromErrNamesArrival(ps: seq<Datapoint>, ks: seq<Kind>, d: Duration, i: nat, shift: Duration)
    requires |ks| == |ps| && i <= |ps| && CollapseFrom(ps, ks, d, i, shift).Err?
    ensures exists a, b ::
      && i <= a && ArrivalFollowsArrival(ks, a, b)
      && CollapseFrom(ps, ks, d, i, shift).error == PairingError(ps[a].recorded)
      && forall a', b' :: i <= a' && ArrivalFollowsArrival(ks, a', b') ==> a <= a'
    decreases |ps| - i
  {
    if i == |ps| {
    } else if ks[i] != Arrival || ScanFrom(ks, i + 1).Unterminated? {
      CollapseFromPlain(ps, ks, d, i, shift);
      CollapseFromErrNamesArrival(ps, ks, d, i + 1, shift);
      var a, b :|
        && i + 1 <= a && ArrivalFollowsArrival(ks, a, b)
        && CollapseFrom(ps, ks, d, i + 1, shift).error == PairingError(ps[a].recorded)
        && forall a', b' :: i + 1 <= a' && ArrivalFollowsArrival(ks, a', b') ==> a <= a';
      NoClashAtPlain(ks, i);
      assert i <= a && CollapseFrom(ps, ks, d, i, shift).error == PairingError(ps[a].recorded);
    } else if ScanFrom(ks, i + 1).Departs? {
      var j := ScanFrom(ks, i + 1).at;
      var after := ShiftAfterStop(ps, d, i, j, shift);
      CollapseFromStop(ps, ks, d, i, j, shift);
      CollapseFromErrNamesArrival(ps, ks, d, j + 1, after);
      var a, b :|
        && j + 1 <= a && ArrivalFollowsArrival(ks, a, b)
        && CollapseFrom(ps, ks, d, j + 1, after).error == PairingError(ps[a].recorded)
        && forall a', b' :: j + 1 <= a' && ArrivalFollowsArrival(ks, a', b') ==> a <= a';
      NoClashInStop(ks, i, j);
      assert i <= a && CollapseFrom(ps, ks, d, i, shift).error == PairingError(ps[a].recorded);
    } else {
      var b := ScanFrom(ks, i + 1).at;
      CollapseFromClash(ps, ks, d, i, shift);
      assert ArrivalFollowsArrival(ks, i, b) && CollapseFrom(ps, ks, d, i, shift).error == PairingError(ps[i].recorded);
    }
  }

  /** Point `b` is an arrival that comes after the arrival at `a` with no
      arrival or departure between them: the first arrival is never
      paired. */
  predicate UnpairedArrival(ps: seq<Datapoint>, a: int, b: int)
  {
    && 0 <= a < b < |ps| && IsArrival(ps[a]) && IsArrival(ps[b])
    && forall k :: a < k < b ==> !IsArrival(ps[k]) && !IsDeparture(ps[k])
  }

  lemma UnpairedArrivalKinds(ps: seq<Datapoint>, a: int, b: int)
    ensures UnpairedArrival(ps, a, b) <==> ArrivalFollowsArrival(Kinds(ps), a, b)
  {
    var ks := Kinds(ps);
    if 0 <= a < b < |ps| {
      assert (forall k :: a < k < b ==> !IsArrival(ps[k]) && !IsDeparture(ps[k])) <==> Quiet(ks, a + 1, b);
    }
  }

  /** collapseStopsInTimeseries fails exactly when some arrival is followed by
      another arrival before any departure, and the error then names the time
      of the first such unpaired arrival, the one the scan runs into. */
  lemma CollapsedFailsIff(ps: seq<Datapoint>, d: Duration)
    ensures Collapsed(ps, d).Err? <==> exists a, b :: UnpairedArrival(ps, a, b)
    ensures Collapsed(ps, d).Err? ==>
      exists a, b ::
        && UnpairedArrival(ps, a, b) && Collapsed(ps, d).error == PairingError(ps[a].recorded)
        && forall a', b' :: UnpairedArrival(ps, a', b') ==> a <= a'
  {
    var ks := Kinds(ps);
    forall a, b
      ensures UnpairedArrival(ps, a, b) <==> ArrivalFollowsArrival(ks, a, b)
    {
      UnpairedArrivalKinds(ps, a, b);
    }
    if |ps| >= 2 && CollapseFrom(ps, ks, d, 0, 0).Err? {
      CollapseFromErrNamesArrival(ps, ks, d, 0, 0);
      var a, b :|
        && ArrivalFollowsArrival(ks, a, b) && CollapseFrom(ps, ks, d, 0, 0).error == PairingError(ps[a].recorded)
        && forall a', b' :: 0 <= a' && ArrivalFollowsArrival(ks, a', b') ==> a <= a';
      assert UnpairedArrival(ps, a, b);
    }
    if exists a, b :: UnpairedArrival(ps, a, b) {
      var a, b :| UnpairedArrival(ps, a, b);
      CollapseFromFailsAt(ps, ks, d, 0, 0, a, b);
    }
  }

  /** With a non-negative stop length, a chronological input scanned from `i`
      yields a chronological output that starts at point `i`'s shifted
      time. */
  lemma {:induction false} CollapseFromChronological(ps: seq<Datapoint>, ks: seq<Kind>, d: Duration, i: nat, shift: Duration)
    requires |ks| == |ps| && i <= |ps| && Chronological(ps) && d >= 0
    requires CollapseFrom(ps, ks, d, i, shift).Ok?
    ensures Chronological(CollapseFrom(ps, ks, d, i, shift).value)
    ensures CollapseFrom(ps, ks, d, i, shift).value != [] ==>
      i < |ps| && CollapseFrom(ps, ks, d, i, shift).value[0].recorded == ps[i].recorded + shift
    decreases |ps| - i
  {
    if i == |ps| {
    } else if ks[i] != Arrival || ScanFrom(ks, i + 1).Unterminated? {
      CollapseFromPlain(ps, ks, d, i, shift);
      CollapseFromChronological(ps, ks, d, i + 1, shift);
      var rest := CollapseFrom(ps, ks, d, i + 1, shift).value;
      if rest != [] {
        assert ps[i].recorded <= ps[i + 1].recorded;
      }
      ChronologicalAppend([Shifted(ps[i], shift)], rest);
    } else if ScanFrom(ks, i + 1).Departs? {
      var j := ScanFrom(ks, i + 1).at;
      var after := ShiftAfterStop(ps, d, i, j, shift);
      CollapseFromStop(ps, ks, d, i, j, shift);
      CollapseFromChronological(ps, ks, d, j + 1, after);
      var rest := CollapseFrom(ps, ks, d, j + 1, after).value;
      var stop := StopPoints(ps, d, i, j, ps[i].recorded + shift);
      if rest != [] {
        assert ps[j].recorded <= ps[j + 1].recorded;
      }
      assert Chronological(stop);
      ChronologicalAppend(stop, rest);
    }
  }

  /** Collapsing keeps a chronological series chronological, for any
      non-negative stop length. */
  lemma CollapsedChronological(ps: seq<Datapoint>, d: Duration)
    requires Chronological(ps) && d >= 0
    requires Collapsed(ps, d).Ok?
    ensures Chronological(Collapsed(ps, d).value)
  {
    if |ps| >= 2 {
      CollapseFromChronological(ps, Kinds(ps), d, 0, 0);
    }
  }
}
