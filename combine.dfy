/** The aligner, combineTimeseries in cmd/importer/main.go: protocol events
    are attached, one after the other, to the first data point recorded
    strictly after them. */
module Combine {
  import opened Series

  /** The index of the first point of `ps` recorded strictly after `t`, or
      None when every point is recorded at or before `t`. */
  function FirstAfter(ps: seq<Datapoint>, t: Time): (r: Option<nat>)
    ensures r.None? <==> forall m :: 0 <= m < |ps| ==> ps[m].recorded <= t
    ensures r.Some? ==> r.value < |ps| && ps[r.value].recorded > t
    ensures r.Some? ==> forall m :: 0 <= m < r.value ==> ps[m].recorded <= t
  {
    if ps == [] then None
    else if ps[0].recorded > t then Some(0)
    else match FirstAfter(ps[1..], t)
      case None => None
      case Some(k) => Some(k + 1)
  }

  /** Two series with the same timestamps agree on which point follows an
      instant. */
  lemma SameTimesSameFirstAfter(ps: seq<Datapoint>, qs: seq<Datapoint>, t: Time)
    requires |ps| == |qs|
    requires forall m :: 0 <= m < |ps| ==> ps[m].recorded == qs[m].recorded
    ensures FirstAfter(ps, t) == FirstAfter(qs, t)
  {
    var a, b := FirstAfter(ps, t), FirstAfter(qs, t);
    if a.Some? && b.Some? {
      assert ps[b.value].recorded > t;
      assert qs[a.value].recorded > t;
    }
  }

  /** `ps` after the single protocol event `e` is attached: the first point
      recorded strictly after `e` takes its label and keeps everything else;
      when no point follows `e`, the event is dropped. */
  function Attach(ps: seq<Datapoint>, e: Datapoint): (r: seq<Datapoint>)
    ensures |r| == |ps|
    ensures forall m :: 0 <= m < |ps| ==> r[m].recorded == ps[m].recorded && r[m].pressure == ps[m].pressure
    ensures forall m: nat :: m < |ps| ==> r[m].event == if FirstAfter(ps, e.recorded) == Some(m) then e.event else ps[m].event
  {
    match FirstAfter(ps, e.recorded)
    case None => ps
    case Some(i) => ps[i := ps[i].(event := e.event)]
  }

  /** `ps` after every event of `events` has been attached, in the events'
      order. */
  function Combined(ps: seq<Datapoint>, events: seq<Datapoint>): seq<Datapoint>
  {
    if events == [] then ps
    else Attach(Combined(ps, events[..|events| - 1]), events[|events| - 1])
  }

  /** Combining copies the samples: the same number of points, each with the
      timestamp and pressure it had; only labels can differ. */
  lemma {:induction false} CombinedKeepsSamples(ps: seq<Datapoint>, events: seq<Datapoint>)
    ensures |Combined(ps, events)| == |ps|
    ensures forall m :: 0 <= m < |ps| ==>
      Combined(ps, events)[m].recorded == ps[m].recorded && Combined(ps, events)[m].pressure == ps[m].pressure
  {
    if events != [] {
      CombinedKeepsSamples(ps, events[..|events| - 1]);
    }
  }

  /** Event `k` of `events` is attached to point `i` of `ps`: point `i` is
      the first one recorded strictly after it. */
  predicate Targets(ps: seq<Datapoint>, events: seq<Datapoint>, k: int, i: nat)
  {
    0 <= k < |events| && FirstAfter(ps, events[k].recorded) == Some(i)
  }

  /** One more event: point `i` takes the last event's label when that event
      targets it, and otherwise keeps the label the earlier events gave it. */
  lemma CombinedStep(ps: seq<Datapoint>, events: seq<Datapoint>, i: nat)
    requires events != [] && i < |ps|
    ensures |Combined(ps, events)| == |Combined(ps, events[..|events| - 1])| == |ps|
    ensures Combined(ps, events)[i].event
         == if Targets(ps, events, |events| - 1, i) then events[|events| - 1].event
            else Combined(ps, events[..|events| - 1])[i].event
  {
    var n := |events| - 1;
    var before := Combined(ps, events[..n]);
    CombinedKeepsSamples(ps, events[..n]);
    SameTimesSameFirstAfter(before, ps, events[n].recorded);
  }

  /** A point that no event targets keeps its own label. */
  lemma {:induction false} CombinedUntargeted(ps: seq<Datapoint>, events: seq<Datapoint>, i: nat)
    requires i < |ps|
    requires forall k :: 0 <= k < |events| ==> !Targets(ps, events, k, i)
    ensures |Combined(ps, events)| == |ps|
    ensures Combined(ps, events)[i].event == ps[i].event
  {
    CombinedKeepsSamples(ps, events);
    if events != [] {
      var n := |events| - 1;
      CombinedStep(ps, events, i);
      assert forall k :: 0 <= k < n ==> Targets(ps, events[..n], k, i) == Targets(ps, events, k, i);
      CombinedUntargeted(ps, events[..n], i);
    }
  }

  /** A point targeted by event `k` and by no later event carries the label of
      event `k`: the last event to target a point wins. */
  lemma {:induction false} CombinedLastTarget(ps: seq<Datapoint>, events: seq<Datapoint>, i: nat, k: nat)
    requires i < |ps|
    requires Targets(ps, events, k, i)
    requires forall k' :: k < k' < |events| ==> !Targets(ps, events, k', i)
    ensures |Combined(ps, events)| == |ps|
    ensures Combined(ps, events)[i].event == events[k].event
  {
    CombinedKeepsSamples(ps, events);
    var n := |events| - 1;
    CombinedStep(ps, events, i);
    if k < n {
      assert forall k' :: k < k' < n ==> Targets(ps, events[..n], k', i) == Targets(ps, events, k', i);
      assert Targets(ps, events[..n], k, i);
      CombinedLastTarget(ps, events[..n], i, k);
    }
  }

  /** combineTimeseries: copies the data points into a new series and
      attaches each protocol event in turn. Neither input is changed. */
  method CombineTimeseries(data: Timeseries, protocol: Timeseries) returns (result: Timeseries)
    ensures fresh(result)
    ensures result.points == Combined(data.points, protocol.points)
    ensures protocol.points == [] ==> result.points == data.points
    ensures result.timeOffset == 0 && result.pressureOffset == 0.0
  {
    result := new Timeseries(data.points);
    for k := 0 to |protocol.points|
      invariant result.points == Combined(data.points, protocol.points[..k])
      invariant result.timeOffset == 0 && result.pressureOffset == 0.0
    {
      AttachEvent(result, protocol.points[k]);
      assert protocol.points[..k + 1][..k] == protocol.points[..k];
    }
    assert protocol.points[..|protocol.points|] == protocol.points;
  }

  /** The inner loop of combineTimeseries: the first point of `series`
      recorded strictly after `e` takes the label of `e`, in place. */
  method AttachEvent(series: Timeseries, e: Datapoint)
    modifies series
    ensures series.points == Attach(old(series.points), e)
    ensures series.timeOffset == old(series.timeOffset) && series.pressureOffset == old(series.pressureOffset)
  {
    ghost var before := series.points;
    var i := 0;
    while i < |series.points|
      invariant 0 <= i <= |series.points|
      invariant series.points == before
      invariant forall m :: 0 <= m < i ==> before[m].recorded <= e.recorded
    {
      if series.points[i].recorded > e.recorded {
        series.points := series.points[i := series.points[i].(event := e.event)];
        return;
      }
      i := i + 1;
    }
  }
}
