/**
 * The seismic collector (`services/data_collector/seismic_collector.py`):
 * the catalogue query, the per-event records it keeps, and the fold of an
 * event list into the four seismic features stored per site. Times are
 * seconds on one clock; `now` is passed in.
 */
module SeismicFeatures {
  import opened Wrappers

  /** One origin of a catalogue event: when and where it happened. */
  datatype Origin = Origin(time: real, latitude: real, longitude: real)

  /** A catalogue event as the data provider returns it; either list may be empty. */
  datatype CatalogEvent = CatalogEvent(origins: seq<Origin>, magnitudes: seq<real>)

  /** The record kept per event: origin time, magnitude and distance to the site. */
  datatype SeismicEvent = SeismicEvent(time: real, magnitude: real, distanceKm: real)

  datatype Error = IndexError(message: string)

  const MaxRadiusKm: real := 100.0
  const KmPerDegree: real := 111.0
  const MinMagnitude: real := 1.0
  /** Events at or above this magnitude count as significant. */
  const SignificantMagnitude: real := 3.0

  /** The parameters of the catalogue request. */
  datatype EventQuery = EventQuery(startTime: real, endTime: real, latitude: real, longitude: real,
                                   maxRadiusDegrees: real, minMagnitude: real)

  /** The request `get_seismic_events` sends for a site and a window of `hours` ending now. */
  function Query(lat: real, lon: real, hours: int, now: real): (q: EventQuery)
    ensures q.endTime == now && q.endTime - q.startTime == (hours * 3600) as real
    ensures q.latitude == lat && q.longitude == lon
    ensures q.maxRadiusDegrees * KmPerDegree == MaxRadiusKm
    ensures q.minMagnitude == 1.0
  {
    EventQuery(now - (hours * 3600) as real, now, lat, lon, MaxRadiusKm / KmPerDegree, MinMagnitude)
  }

  /** An event the record can be read from: it has an origin and a magnitude. */
  predicate Complete(e: CatalogEvent) {
    |e.origins| > 0 && |e.magnitudes| > 0
  }

  /** The record of one event; `distance` is the great-circle distance function. */
  function EventRecord(lat: real, lon: real, e: CatalogEvent, distance: (real, real, real, real) -> real): SeismicEvent
    requires Complete(e)
  {
    SeismicEvent(e.origins[0].time, e.magnitudes[0],
                 distance(lat, lon, e.origins[0].latitude, e.origins[0].longitude))
  }

  /** The list comprehension of `get_seismic_events`: one record per event, in
      catalogue order; an event without an origin or a magnitude raises
      `IndexError` and nothing is returned. */
  function EventRecords(lat: real, lon: real, catalog: seq<CatalogEvent>,
                        distance: (real, real, real, real) -> real): (r: Result<seq<SeismicEvent>, Error>)
    ensures r.Ok? <==> forall i :: 0 <= i < |catalog| ==> Complete(catalog[i])
    ensures r.Err? ==> r.error == IndexError("list index out of range")
    ensures r.Ok? ==> |r.value| == |catalog|
    ensures r.Ok? ==> forall i :: 0 <= i < |catalog| ==> r.value[i] == EventRecord(lat, lon, catalog[i], distance)
  {
    if catalog == [] then Ok([])
    else if !Complete(catalog[0]) then Err(IndexError("list index out of range"))
    else
      match EventRecords(lat, lon, catalog[1..], distance)
      case Err(e) => Err(e)
      case Ok(rest) => Ok([EventRecord(lat, lon, catalog[0], distance)] + rest)
  }

  /** `float('inf')` for "no significant event", or a number of minutes. */
  datatype Minutes = Minutes(value: real) | Infinity

  /** A floating-point sum: a number, or infinite / not a number once a weight divided by zero. */
  datatype Weighted = Sum(value: real) | NotFinite

  datatype Features = Features(quakeCount: nat, maxMagnitude: real, weightedMagnitude: Weighted,
                               minutesSinceM3: Minutes)

  function HoursAgo(e: SeismicEvent, now: real): real {
    (now - e.time) / 3600.0
  }

  /** Neither weight of the event divides by zero. */
  predicate FiniteWeights(e: SeismicEvent, now: real) {
    HoursAgo(e, now) + 1.0 != 0.0 && e.distanceKm + 1.0 != 0.0
  }

  /** The event's term is a number or, with magnitude zero, `0 * inf`, a
      NaN that the column sum skips: it adds no infinity to the sum. */
  predicate AddsFinitely(e: SeismicEvent, now: real) {
    FiniteWeights(e, now) || e.magnitude == 0.0
  }

  /** The event's magnitude times its time weight and its distance weight. */
  function Term(e: SeismicEvent, now: real): real
    requires FiniteWeights(e, now)
  {
    e.magnitude * (1.0 / (HoursAgo(e, now) + 1.0)) * (1.0 / (e.distanceKm + 1.0))
  }

  /** The sum of the weighted magnitudes, in event order. A weight that
      divides by zero is an infinity; times a zero magnitude it gives a NaN
      term, which the sum skips, and otherwise an infinite term. */
  function WeightedSum(events: seq<SeismicEvent>, now: real): Weighted {
    if events == [] then Sum(0.0)
    else
      var rest := WeightedSum(events[1..], now);
      if !FiniteWeights(events[0], now) then
        if events[0].magnitude == 0.0 then rest else NotFinite
      else
        match rest
        case NotFinite => NotFinite
        case Sum(s) => Sum(Term(events[0], now) + s)
  }

  /** The largest magnitude of a non-empty list. */
  function MaxMagnitude(events: seq<SeismicEvent>): (m: real)
    requires events != []
    ensures exists i :: 0 <= i < |events| && events[i].magnitude == m
    ensures forall i :: 0 <= i < |events| ==> events[i].magnitude <= m
  {
    if |events| == 1 then events[0].magnitude
    else
      var rest := MaxMagnitude(events[1..]);
      assert forall i :: 1 <= i < |events| ==> events[i] == events[1..][i - 1];
      if events[0].magnitude >= rest then events[0].magnitude else rest
  }

  /** The time of the latest significant event, if there is one. */
  function LatestM3(events: seq<SeismicEvent>): (t: Option<real>)
    ensures t.None? <==> forall i :: 0 <= i < |events| ==> events[i].magnitude < SignificantMagnitude
    ensures t.Some? ==>
              (exists i :: 0 <= i < |events| && events[i].magnitude >= SignificantMagnitude && events[i].time == t.value) &&
              forall i :: 0 <= i < |events| && events[i].magnitude >= SignificantMagnitude ==> events[i].time <= t.value
  {
    if events == [] then None
    else
      var rest := LatestM3(events[1..]);
      assert forall i :: 1 <= i < |events| ==> events[i] == events[1..][i - 1];
      if events[0].magnitude < SignificantMagnitude then rest
      else if rest.Some? && rest.value > events[0].time then rest
      else Some(events[0].time)
  }

  /** `calculate_seismic_features`. */
  function CalculateSeismicFeatures(events: seq<SeismicEvent>, now: real): (r: Features)
    ensures events == [] ==> r == Features(0, 0.0, Sum(0.0), Infinity)
    ensures r.quakeCount == |events|
    ensures events != [] ==>
              (exists i :: 0 <= i < |events| && events[i].magnitude == r.maxMagnitude) &&
              forall i :: 0 <= i < |events| ==> events[i].magnitude <= r.maxMagnitude
    ensures r.minutesSinceM3 == Infinity <==>
              forall i :: 0 <= i < |events| ==> events[i].magnitude < SignificantMagnitude
    ensures r.minutesSinceM3.Minutes? ==>
              var last := now - 60.0 * r.minutesSinceM3.value;
              (exists i :: 0 <= i < |events| && events[i].magnitude >= SignificantMagnitude && events[i].time == last) &&
              forall i :: 0 <= i < |events| && events[i].magnitude >= SignificantMagnitude ==> events[i].time <= last
    ensures r.weightedMagnitude == WeightedSum(events, now)
    ensures r.weightedMagnitude.Sum? <==> forall i :: 0 <= i < |events| ==> AddsFinitely(events[i], now)
  {
    WeightedSumFinite(events, now);
    if events == [] then Features(0, 0.0, Sum(0.0), Infinity)
    else
      var minutes := match LatestM3(events)
        case None => Infinity
        case Some(t) => Minutes((now - t) / 60.0);
      Features(|events|, MaxMagnitude(events), WeightedSum(events, now), minutes)
  }

  /** The weighted sum is a number exactly when every weight that divides
      by zero meets a zero magnitude. */
  lemma {:induction false} WeightedSumFinite(events: seq<SeismicEvent>, now: real)
    ensures WeightedSum(events, now).Sum? <==> forall i :: 0 <= i < |events| ==> AddsFinitely(events[i], now)
  {
    if events != [] {
      WeightedSumFinite(events[1..], now);
      assert forall i :: 1 <= i < |events| ==> events[i] == events[1..][i - 1];
    }
  }

  /** An event an hour in the future has `hours_ago + 1 == 0`; with
      magnitude zero its NaN term is skipped, so the sum is that of the
      other events. */
  lemma NaNTermSkipped(e: SeismicEvent, events: seq<SeismicEvent>, now: real)
    requires e.time == now + 3600.0 && e.magnitude == 0.0
    ensures !FiniteWeights(e, now)
    ensures WeightedSum([e] + events, now) == WeightedSum(events, now)
  {
    assert ([e] + events)[1..] == events;
  }

  /** A past event at a non-negative distance and magnitude contributes
      between nothing and its own magnitude. */
  lemma TermBound(e: SeismicEvent, now: real)
    requires e.time <= now && e.distanceKm >= 0.0 && e.magnitude >= 0.0
    ensures FiniteWeights(e, now)
    ensures 0.0 <= Term(e, now) <= e.magnitude
  {
    var tw := 1.0 / (HoursAgo(e, now) + 1.0);
    var dw := 1.0 / (e.distanceKm + 1.0);
    assert 0.0 < tw <= 1.0;
    assert 0.0 < dw <= 1.0;
    assert tw * dw <= 1.0;
    assert e.magnitude * (tw * dw) <= e.magnitude;
    assert Term(e, now) == e.magnitude * (tw * dw);
  }

  /** The plain sum of the magnitudes. */
  function MagnitudeSum(events: seq<SeismicEvent>): real {
    if events == [] then 0.0 else events[0].magnitude + MagnitudeSum(events[1..])
  }

  /** For past events at non-negative distances and magnitudes the weighted
      magnitude is a number between zero and the plain sum of the magnitudes. */
  lemma {:induction false} WeightedSumBound(events: seq<SeismicEvent>, now: real)
    requires forall i :: 0 <= i < |events| ==>
               events[i].time <= now && events[i].distanceKm >= 0.0 && events[i].magnitude >= 0.0
    ensures WeightedSum(events, now).Sum?
    ensures 0.0 <= WeightedSum(events, now).value <= MagnitudeSum(events)
  {
    if events != [] {
      TermBound(events[0], now);
      var rest := events[1..];
      assert forall i :: 0 <= i < |rest| ==> rest[i] == events[i + 1];
      WeightedSumBound(rest, now);
    }
  }
}
