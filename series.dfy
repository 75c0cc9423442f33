/** The data model shared by the stages of the importer pipeline
    (cmd/importer/main.go): data points, the time series that holds them,
    and the small value types the stages pass around. */
module Series {

  /** An instant, counted in nanoseconds from an epoch that falls on a whole
      hour (Go's zero time, January 1 of year 1, does). */
  type Time = int

  /** A signed span of nanoseconds, as Go's time.Duration. */
  type Duration = int

  datatype Option<T> = None | Some(value: T)

  /** One sensor sample. `event` is the empty string unless a protocol
      event was attached to the sample. */
  datatype Datapoint = Datapoint(recorded: Time, pressure: real, event: string)

  /** `p` moved along the time axis by `delta` (Go's `Recorded.Add(delta)`);
      pressure and label stay. */
  function Shifted(p: Datapoint, delta: Duration): Datapoint
  {
    p.(recorded := p.recorded + delta)
  }

  /** Every point of `ps` moved along the time axis by the same `delta`. */
  function ShiftAll(ps: seq<Datapoint>, delta: Duration): (r: seq<Datapoint>)
    ensures |r| == |ps|
    ensures forall k :: 0 <= k < |ps| ==> r[k] == Shifted(ps[k], delta)
  {
    seq(|ps|, k requires 0 <= k < |ps| => Shifted(ps[k], delta))
  }

  /** Shifting distributes over concatenation. */
  lemma ShiftAllAppend(a: seq<Datapoint>, b: seq<Datapoint>, delta: Duration)
    ensures ShiftAll(a + b, delta) == ShiftAll(a, delta) + ShiftAll(b, delta)
  {
  }

  /** Shifting by nothing changes nothing. */
  lemma ShiftAllZero(ps: seq<Datapoint>)
    ensures ShiftAll(ps, 0) == ps
  {
  }

  /** Each point is recorded no earlier than the one before it. */
  predicate Chronological(ps: seq<Datapoint>)
  {
    forall k :: 0 < k < |ps| ==> ps[k - 1].recorded <= ps[k].recorded
  }

  /** Two chronological runs, the second starting no earlier than the first
      ends, make a chronological run. */
  lemma ChronologicalAppend(a: seq<Datapoint>, b: seq<Datapoint>)
    requires Chronological(a) && Chronological(b)
    requires a != [] && b != [] ==> a[|a| - 1].recorded <= b[0].recorded
    ensures Chronological(a + b)
  {
    forall k | 0 < k < |a + b|
      ensures (a + b)[k - 1].recorded <= (a + b)[k].recorded
    {
      if k == |a| {
        assert (a + b)[k - 1] == a[|a| - 1] && (a + b)[k] == b[0];
      } else if k < |a| {
        assert (a + b)[k - 1] == a[k - 1] && (a + b)[k] == a[k];
      } else {
        assert (a + b)[k - 1] == b[k - 1 - |a|] && (a + b)[k] == b[k - |a|];
      }
    }
  }

  /** The time series a pipeline stage works on: the points, and the two
      frame-wide offsets the normaliser records. Go's stages take and return
      `*Timeseries`; one of them (trimming) updates the object it is given. */
  class Timeseries {
    var points: seq<Datapoint>
    var timeOffset: Duration
    var pressureOffset: real

    /** `&Timeseries{Points: points}`: both offsets are Go's zero values. */
    constructor (points: seq<Datapoint>)
      ensures this.points == points
      ensures timeOffset == 0 && pressureOffset == 0.0
    {
      this.points := points;
      timeOffset := 0;
      pressureOffset := 0.0;
    }
  }
}
