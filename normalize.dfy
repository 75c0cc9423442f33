/** The normaliser, normalizeTimeseries in cmd/importer/main.go: the whole
    series is moved so that its first point lands on the nearest whole hour
    (plus an optional extra shift), and every pressure is taken relative to
    a base pressure, by default the first point's. The two offsets applied
    are recorded in the series so that the original values can be read
    back. */
module Normalize {
  import opened Series

  /** Go's time.Hour in nanoseconds. */
  const Hour: Duration := 3_600_000_000_000

  /** Go's Time.Round(time.Hour): the remainder since the last whole hour is
      dropped when it is less than half an hour and made up to the next hour
      otherwise, so a time exactly halfway rounds up. Go computes the
      remainder on the absolute time since its zero time, which lies on a
      whole hour, so the remainder is never negative, as is Dafny's `%`. */
  function RoundToHour(t: Time): (r: Time)
    ensures r % Hour == 0
    ensures t - Hour / 2 < r <= t + Hour / 2
  {
    var rem := t % Hour;
    if rem + rem < Hour then t - rem else t + (Hour - rem)
  }

  /** The conditions on RoundToHour pin it down: no other whole hour lies
      within half an hour of `t`, the upper end included. */
  lemma RoundToHourUnique(t: Time, m: Time)
    requires m % Hour == 0 && t - Hour / 2 < m <= t + Hour / 2
    ensures m == RoundToHour(t)
  {
    var r := RoundToHour(t);
    assert (m - r) % Hour == 0;
    assert -Hour < m - r < Hour;
  }

  /** A time already on a whole hour is left alone; one exactly halfway
      between two hours goes to the later one. */
  lemma RoundToHourFixedAndHalfway(t: Time)
    ensures t % Hour == 0 ==> RoundToHour(t) == t
    ensures t % Hour == Hour / 2 ==> RoundToHour(t) == t + Hour / 2
  {
  }

  /** The extra shift, zero when none is given (Go's nil pointer). */
  function ShiftOrZero(timeShift: Option<Duration>): Duration
  {
    if timeShift.Some? then timeShift.value else 0
  }

  /** The time offset for a series starting at `start`: the distance to the
      rounded start, plus the extra shift. Moved by it, the start lands on
      a whole hour plus the shift, within half an hour of where the rounding
      alone would take it. */
  function StartOffset(start: Time, timeShift: Option<Duration>): (offset: Duration)
    ensures (start + offset - ShiftOrZero(timeShift)) % Hour == 0
    ensures -Hour / 2 < offset - ShiftOrZero(timeShift) <= Hour / 2
  {
    var rounded := RoundToHour(start);
    var offset := rounded - start;
    if timeShift.Some? then offset + timeShift.value else offset
  }

  /** The base pressure: a base of zero stands for "not given" and selects
      the first point's pressure. */
  function BasePressure(first: Datapoint, basePressure: real): real
  {
    if basePressure == 0.0 then first.pressure else basePressure
  }

  /** Every point moved by `offset` and measured relative to `base`; labels
      stay. */
  function Normalized(ps: seq<Datapoint>, offset: Duration, base: real): (r: seq<Datapoint>)
    ensures |r| == |ps|
  {
    seq(|ps|, k requires 0 <= k < |ps| => Datapoint(ps[k].recorded + offset, ps[k].pressure - base, ps[k].event))
  }

  /** The inverse: the recorded offsets applied backwards. */
  function Denormalized(ps: seq<Datapoint>, offset: Duration, base: real): (r: seq<Datapoint>)
    ensures |r| == |ps|
  {
    seq(|ps|, k requires 0 <= k < |ps| => Datapoint(ps[k].recorded - offset, ps[k].pressure + base, ps[k].event))
  }

  /** The offsets a series records are enough to read its original values
      back, and normalising what was read back gives the series again. */
  lemma NormalizedRoundTrip(ps: seq<Datapoint>, offset: Duration, base: real)
    ensures Denormalized(Normalized(ps, offset, base), offset, base) == ps
    ensures Normalized(Denormalized(ps, offset, base), offset, base) == ps
  {
    var a := Denormalized(Normalized(ps, offset, base), offset, base);
    var b := Normalized(Denormalized(ps, offset, base), offset, base);
    assert forall k :: 0 <= k < |ps| ==> a[k] == ps[k];
    assert forall k :: 0 <= k < |ps| ==> b[k] == ps[k];
  }

  /** Normalising keeps the shape of the series: the time between any two
      points, the difference between their pressures, and every label. */
  lemma NormalizedKeepsShape(ps: seq<Datapoint>, offset: Duration, base: real, k: nat, m: nat)
    requires k < |ps| && m < |ps|
    ensures var r := Normalized(ps, offset, base);
            && r[k].recorded - r[m].recorded == ps[k].recorded - ps[m].recorded
            && r[k].pressure - r[m].pressure == ps[k].pressure - ps[m].pressure
            && r[k].event == ps[k].event
  {
  }

  /** The order of the points in time is kept, in both directions. */
  lemma NormalizedChronological(ps: seq<Datapoint>, offset: Duration, base: real)
    ensures Chronological(Normalized(ps, offset, base)) <==> Chronological(ps)
  {
    var r := Normalized(ps, offset, base);
    assert forall k :: 0 < k < |ps| ==> r[k].recorded - r[k - 1].recorded == ps[k].recorded - ps[k - 1].recorded;
  }

  /** Where the first point goes: onto a whole hour plus the extra shift,
      less than half an hour plus the shift from where it was; with the
      default base its pressure becomes zero. */
  lemma NormalizedStart(ps: seq<Datapoint>, timeShift: Option<Duration>, basePressure: real)
    requires ps != []
    ensures var r := Normalized(ps, StartOffset(ps[0].recorded, timeShift), BasePressure(ps[0], basePressure));
            && (r[0].recorded - ShiftOrZero(timeShift)) % Hour == 0
            && -Hour / 2 < r[0].recorded - ShiftOrZero(timeShift) - ps[0].recorded <= Hour / 2
            && (basePressure == 0.0 ==> r[0].pressure == 0.0)
            && (basePressure != 0.0 ==> r[0].pressure == ps[0].pressure - basePressure)
  {
  }

  /** normalizeTimeseries: a new series with the moved and rebased copies of
      the points and the two offsets applied; an empty series gives an empty
      one with both offsets zero. The input is not changed. */
  method NormalizeTimeseries(data: Timeseries, timeShift: Option<Duration>, basePressure: real) returns (result: Timeseries)
    ensures fresh(result)
    ensures data.points == [] ==> result.points == [] && result.timeOffset == 0 && result.pressureOffset == 0.0
    ensures data.points != [] ==>
      && result.timeOffset == StartOffset(data.points[0].recorded, timeShift)
      && result.pressureOffset == BasePressure(data.points[0], basePressure)
      && result.points == Normalized(data.points, result.timeOffset, result.pressureOffset)
  {
    result := new Timeseries(data.points);
    if |data.points| == 0 {
      return;
    }

    var startTime := data.points[0].recorded;
    var roundedStartTime := RoundToHour(startTime);
    var offset := roundedStartTime - startTime;
    if timeShift.Some? {
      offset := offset + timeShift.value;
    }

    var base := basePressure;
    if base == 0.0 {
      base := data.points[0].pressure;
    }

    result.timeOffset := offset;
    result.pressureOffset := base;

    ghost var target := Normalized(data.points, offset, base);
    for i := 0 to |result.points|
      invariant |result.points| == |data.points|
      invariant forall k :: 0 <= k < i ==> result.points[k] == target[k]
      invariant forall k :: i <= k < |result.points| ==> result.points[k] == data.points[k]
      invariant result.timeOffset == offset && result.pressureOffset == base
    {
      var dataPoint := result.points[i];
      result.points := result.points[i := dataPoint.(recorded := dataPoint.recorded + offset)];
      result.points := result.points[i := result.points[i].(pressure := dataPoint.pressure - base)];
    }
    assert result.points == target;
  }
}
