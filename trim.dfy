/** The range trimmer, trimTimeseries in cmd/importer/main.go: the series is
    cut down to the span from its first labelled point to its last one. */
module Trim {
  import opened Series

  /** The point carries a protocol label (Go: `p.Event != ""`). */
  predicate Labelled(p: Datapoint)
  {
    |p.event| != 0
  }

  /** No point of ps[lo..hi] is labelled. */
  predicate NoneLabelled(ps: seq<Datapoint>, lo: int, hi: int)
    requires 0 <= lo && hi <= |ps|
  {
    forall m :: lo <= m < hi ==> !Labelled(ps[m])
  }

  /** The index of the first labelled point at or after `from`, or None when
      no point from there on is labelled. */
  function FirstLabelledFrom(ps: seq<Datapoint>, from: nat): (r: Option<nat>)
    requires from <= |ps|
    ensures r.None? <==> NoneLabelled(ps, from, |ps|)
    ensures r.Some? ==> from <= r.value < |ps| && Labelled(ps[r.value]) && NoneLabelled(ps, from, r.value)
    decreases |ps| - from
  {
    if from == |ps| then None
    else if Labelled(ps[from]) then Some(from)
    else FirstLabelledFrom(ps, from + 1)
  }

  /** The index of the last labelled point before `upto`, or None when no
      point before it is labelled. */
  function LastLabelledBefore(ps: seq<Datapoint>, upto: nat): (r: Option<nat>)
    requires upto <= |ps|
    ensures r.None? <==> NoneLabelled(ps, 0, upto)
    ensures r.Some? ==> r.value < upto && Labelled(ps[r.value]) && NoneLabelled(ps, r.value + 1, upto)
  {
    if upto == 0 then None
    else if Labelled(ps[upto - 1]) then Some(upto - 1)
    else LastLabelledBefore(ps, upto - 1)
  }

  /** The index of the first labelled point, or None when no point is
      labelled. */
  function FirstLabelled(ps: seq<Datapoint>): (r: Option<nat>)
    ensures r.None? <==> NoneLabelled(ps, 0, |ps|)
    ensures r.Some? ==> r.value < |ps| && Labelled(ps[r.value]) && NoneLabelled(ps, 0, r.value)
  {
    FirstLabelledFrom(ps, 0)
  }

  /** The index of the last labelled point, or None when no point is
      labelled. */
  function LastLabelled(ps: seq<Datapoint>): (r: Option<nat>)
    ensures r.None? <==> NoneLabelled(ps, 0, |ps|)
    ensures r.Some? ==> r.value < |ps| && Labelled(ps[r.value]) && NoneLabelled(ps, r.value + 1, |ps|)
  {
    LastLabelledBefore(ps, |ps|)
  }

  /** The span of `ps` from its first labelled point to its last labelled
      point, both included; `ps` itself when no point is labelled. */
  function Trimmed(ps: seq<Datapoint>): seq<Datapoint>
  {
    match FirstLabelled(ps)
    case None => ps
    case Some(first) =>
      var last := LastLabelled(ps).value;
      assert Labelled(ps[last]) && first <= last;
      ps[first..last + 1]
  }

  /** Without any label, trimming keeps every point. */
  lemma TrimmedUnlabelled(ps: seq<Datapoint>)
    requires NoneLabelled(ps, 0, |ps|)
    ensures Trimmed(ps) == ps
  {
  }

  /** With a label present, trimming keeps exactly the points between the
      first and the last label; it starts and ends on a labelled point, and
      what it drops is unlabelled. */
  lemma TrimmedSpan(ps: seq<Datapoint>, first: nat, last: nat)
    requires FirstLabelled(ps) == Some(first) && LastLabelled(ps) == Some(last)
    ensures first <= last < |ps|
    ensures Trimmed(ps) == ps[first..last + 1]
    ensures Labelled(Trimmed(ps)[0]) && Labelled(Trimmed(ps)[|Trimmed(ps)| - 1])
    ensures NoneLabelled(ps, 0, first) && NoneLabelled(ps, last + 1, |ps|)
  {
    assert Labelled(ps[last]);
    var t := ps[first..last + 1];
    assert Trimmed(ps) == t;
    assert t[0] == ps[first] && t[|t| - 1] == ps[last];
  }

  /** Trimming a series with at least one label yields a series that starts
      and ends with a labelled point. */
  lemma {:induction false} TrimmedEndsLabelled(ps: seq<Datapoint>, m: nat)
    requires m < |ps| && Labelled(ps[m])
    ensures |Trimmed(ps)| > 0
    ensures Labelled(Trimmed(ps)[0]) && Labelled(Trimmed(ps)[|Trimmed(ps)| - 1])
  {
    TrimmedSpan(ps, FirstLabelled(ps).value, LastLabelled(ps).value);
  }

  /** Trimming a second time changes nothing. */
  lemma TrimmedIdempotent(ps: seq<Datapoint>)
    ensures Trimmed(Trimmed(ps)) == Trimmed(ps)
  {
    if FirstLabelled(ps).Some? {
      var first, last := FirstLabelled(ps).value, LastLabelled(ps).value;
      var t := ps[first..last + 1];
      assert t[0] == ps[first];
      assert t[last - first] == ps[last];
      assert FirstLabelled(t) == Some(0);
      assert LastLabelled(t) == Some(last - first);
      assert t[0..last - first + 1] == t;
    }
  }

  /** Trimming as the source does it: drop the points before the first
      label, then the points after the last label of what remains. */
  lemma TrimmedFromFirst(ps: seq<Datapoint>, first: nat, last: int)
    requires FirstLabelled(ps) == Some(first)
    requires -1 <= last < |ps[first..]|
    requires last == -1 ==> NoneLabelled(ps[first..], 0, |ps[first..]|)
    requires last != -1 ==> Labelled(ps[first..][last]) && NoneLabelled(ps[first..], last + 1, |ps[first..]|)
    ensures last != -1
    ensures Trimmed(ps) == ps[first..][..last + 1]
  {
    var rest := ps[first..];
    assert rest[0] == ps[first];
    var l := first + last;
    assert ps[l] == rest[last];
    forall m | l < m < |ps|
      ensures !Labelled(ps[m])
    {
      assert ps[m] == rest[m - first];
    }
    assert LastLabelled(ps).value == l;
    assert rest[..last + 1] == ps[first..l + 1];
  }

  /** trimTimeseries: cuts the series it is given down to the span from the
      first labelled point to the last, changing that series' own point list
      and returning it. The offsets are kept. */
  method TrimTimeseries(data: Timeseries) returns (result: Timeseries)
    modifies data
    ensures result == data
    ensures data.points == Trimmed(old(data.points))
    ensures data.timeOffset == old(data.timeOffset) && data.pressureOffset == old(data.pressureOffset)
  {
    ghost var original := data.points;
    var firstEvent := -1;
    for i := 0 to |data.points|
      invariant data.points == original
      invariant -1 <= firstEvent < i
      invariant firstEvent == -1 ==> NoneLabelled(original, 0, i)
      invariant firstEvent != -1 ==> FirstLabelled(original) == Some(firstEvent)
    {
      if |data.points[i].event| != 0 {
        if firstEvent == -1 {
          firstEvent := i;
        }
      }
    }

    if firstEvent != -1 {
      data.points := data.points[firstEvent..];
    }
    ghost var rest := data.points;

    var lastEvent := -1;
    for i := 0 to |data.points|
      invariant data.points == rest
      invariant -1 <= lastEvent < i
      invariant lastEvent == -1 ==> NoneLabelled(rest, 0, i)
      invariant lastEvent != -1 ==> Labelled(rest[lastEvent]) && NoneLabelled(rest, lastEvent + 1, i)
    {
      if |data.points[i].event| != 0 {
        lastEvent := i;
      }
    }

    if lastEvent != -1 {
      data.points := data.points[..lastEvent + 1];
    }
    result := data;

    if firstEvent != -1 {
      TrimmedFromFirst(original, firstEvent, lastEvent);
    }
  }
}
