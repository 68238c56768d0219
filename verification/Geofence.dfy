/** From a raw tracker state to a presence: normalisation, place geometry and hysteresis. */
module Geofence {
  import opened Wrappers
  import opened Models

  /** A number as it arrives: absent, not a finite number, or finite. */
  datatype RawNumber = Absent | Unusable | Finite(value: real)

  datatype IgnoreReason =
    | MissingCoordinates | InvalidCoordinates | InvalidAccuracy | ExcessiveAccuracy | InvalidState
    | InvalidTimestamp | StaleTimestamp | MissingZone | InvalidZone | InvalidDistance

  /** The live state of a tracker entity. */
  datatype TrackerState = TrackerState(
    expectedKind: bool,  // the entity is of the configured kind
    aware: bool,         // its time stamp carries a UTC offset
    observedAt: Time,
    readable: bool,      // its state is neither blank nor unknown nor unavailable
    latitude: RawNumber,
    longitude: RawNumber,
    accuracy: RawNumber)

  datatype Normalized = Normalized(observedAt: Time, coordinates: Coordinates, accuracy: Option<real>)

  datatype Geometry = Geometry(center: Coordinates, radius: real)

  datatype PlaceDefinition = CoordinatePlace(geometry: Geometry) | ZonePlace

  /** Attributes read from a zone entity. */
  datatype Zone = Zone(latitude: RawNumber, longitude: RawNumber, radius: RawNumber)

  datatype Thresholds = Thresholds(exitMargin: real, maxAccuracy: real)

  datatype Evaluated = Evaluated(observation: Observation, distance: real)

  type Distance = (Coordinates, Coordinates) -> real

  predicate OnGlobe(c: Coordinates)
  {
    -90.0 <= c.latitude <= 90.0 && -180.0 <= c.longitude <= 180.0
  }

  function Normalize(raw: TrackerState, lastAccepted: Option<Time>): Result<Normalized, IgnoreReason>
  {
    if !raw.aware then Failure(InvalidTimestamp)
    else if lastAccepted.Some? && raw.observedAt < lastAccepted.value then Failure(StaleTimestamp)
    else if !raw.readable then Failure(InvalidState)
    else if raw.latitude.Absent? || raw.longitude.Absent? then Failure(MissingCoordinates)
    else if raw.latitude.Unusable? || raw.longitude.Unusable? then Failure(InvalidCoordinates)
    else
      var coordinates := Coordinates(raw.latitude.value, raw.longitude.value);
      if !OnGlobe(coordinates) then Failure(InvalidCoordinates)
      else
        match raw.accuracy
        case Absent => Success(Normalized(raw.observedAt, coordinates, None))
        case Unusable => Failure(InvalidAccuracy)
        case Finite(accuracy) =>
          if accuracy < 0.0 then Failure(InvalidAccuracy)
          else Success(Normalized(raw.observedAt, coordinates, Some(accuracy)))
  }

  predicate ValidGeometry(g: Geometry)
  {
    OnGlobe(g.center) && g.radius > 0.0
  }

  function ResolvePlace(place: PlaceDefinition, zone: Option<Zone>): Result<Geometry, IgnoreReason>
  {
    match place
    case CoordinatePlace(geometry) => if ValidGeometry(geometry) then Success(geometry) else Failure(InvalidZone)
    case ZonePlace =>
      match zone
      case None => Failure(MissingZone)
      case Some(z) =>
        if !z.latitude.Finite? || !z.longitude.Finite? || !z.radius.Finite? then Failure(InvalidZone)
        else
          var geometry := Geometry(Coordinates(z.latitude.value, z.longitude.value), z.radius.value);
          if ValidGeometry(geometry) then Success(geometry) else Failure(InvalidZone)
  }

  /** Inside up to the radius, outside from the radius plus the margin, and as before in between. */
  function EvaluateGeofence(
    o: Normalized, place: Geometry, confirmed: Presence, thresholds: Thresholds, distance: Distance)
    : Result<Evaluated, IgnoreReason>
  {
    if o.accuracy.Some? && o.accuracy.value < 0.0 then Failure(InvalidAccuracy)
    else if o.accuracy.Some? && o.accuracy.value > thresholds.maxAccuracy then Failure(ExcessiveAccuracy)
    else
      var measured := distance(o.coordinates, place.center);
      if measured < 0.0 then Failure(InvalidDistance)
      else
        var presence :=
          if measured <= place.radius then Inside
          else if measured >= place.radius + thresholds.exitMargin then Outside
          else confirmed;
        Success(Evaluated(Observation(presence, o.observedAt, o.coordinates, o.accuracy), measured))
  }

  /** What the evaluation of a tracker reads beside the tracker's own state. */
  datatype Surroundings = Surroundings(place: PlaceDefinition, zone: Option<Zone>, thresholds: Thresholds)

  function EvaluateTrackerState(
    raw: TrackerState, around: Surroundings, state: Option<RuntimeState>, distance: Distance)
    : Result<Evaluated, IgnoreReason>
  {
    if !raw.expectedKind then Failure(InvalidState)
    else
      var lastAccepted := if state.None? then None else state.value.lastProcessedAt;
      var normalized :- Normalize(raw, lastAccepted);
      var place :- ResolvePlace(around.place, around.zone);
      var presence := if state.None? then Unknown else state.value.presence;
      EvaluateGeofence(normalized, place, presence, around.thresholds, distance)
  }

  /** The re-check at a deadline answers nothing when the tracker is missing or unusable. */
  function ReCheck(
    raw: Option<TrackerState>, around: Surroundings, state: RuntimeState, distance: Distance): Option<Presence>
  {
    if raw.None? then None
    else
      match EvaluateTrackerState(raw.value, around, Some(state), distance)
      case Failure(_) => None
      case Success(evaluated) => Some(evaluated.observation.presence)
  }

  // ----- what an evaluation tells -----

  /** A usable evaluation is on the globe, no older than the last processed sample, and measured from
      the resolved place; it differs from the confirmed presence only beyond the hysteresis band. */
  lemma EvaluationMeans(raw: TrackerState, around: Surroundings, state: Option<RuntimeState>, distance: Distance)
    requires EvaluateTrackerState(raw, around, state, distance).Success?
    ensures
      var e := EvaluateTrackerState(raw, around, state, distance).value;
      var place := ResolvePlace(around.place, around.zone);
      var confirmed := if state.None? then Unknown else state.value.presence;
      && OnGlobe(e.observation.coordinates)
      && (e.observation.accuracy.Some? ==> 0.0 <= e.observation.accuracy.value <= around.thresholds.maxAccuracy)
      && (state.Some? && state.value.lastProcessedAt.Some? ==>
            state.value.lastProcessedAt.value <= e.observation.observedAt)
      && place.Success?
      && e.distance == distance(e.observation.coordinates, place.value.center)
      && (e.observation.presence == Inside && confirmed != Inside ==> e.distance <= place.value.radius)
      && (e.observation.presence == Outside && confirmed != Outside ==>
            place.value.radius < e.distance && place.value.radius + around.thresholds.exitMargin <= e.distance)
      && (e.observation.presence == Unknown ==> confirmed == Unknown)
  {
  }

  /** Moving within the band never changes an answer. */
  lemma BandKeeps(o: Normalized, place: Geometry, confirmed: Presence, thresholds: Thresholds, distance: Distance)
    requires EvaluateGeofence(o, place, confirmed, thresholds, distance).Success?
    ensures
      var e := EvaluateGeofence(o, place, confirmed, thresholds, distance).value;
      && (place.radius < e.distance < place.radius + thresholds.exitMargin ==> e.observation.presence == confirmed)
      && (e.distance <= place.radius <==>
            forall p :: EvaluateGeofence(o, place, p, thresholds, distance).value.observation.presence == Inside)
  {
    var other := EvaluateGeofence(o, place, Outside, thresholds, distance).value;
    assert other.distance == EvaluateGeofence(o, place, confirmed, thresholds, distance).value.distance;
    assert forall p :: EvaluateGeofence(o, place, p, thresholds, distance).Success?;
  }

  /** The raw state passes every check on time, state, coordinates and accuracy. */
  predicate Usable(raw: TrackerState, lastAccepted: Option<Time>, maxAccuracy: real)
  {
    && raw.expectedKind && raw.aware && raw.readable
    && (lastAccepted.Some? ==> lastAccepted.value <= raw.observedAt)
    && raw.latitude.Finite? && raw.longitude.Finite?
    && OnGlobe(Coordinates(raw.latitude.value, raw.longitude.value))
    && (raw.accuracy.Absent? || (raw.accuracy.Finite? && 0.0 <= raw.accuracy.value <= maxAccuracy))
  }

  /** A state is evaluated exactly when it is usable, its place resolves, and the distance is one. */
  lemma EvaluatedExactly(raw: TrackerState, around: Surroundings, state: Option<RuntimeState>, distance: Distance)
    ensures
      EvaluateTrackerState(raw, around, state, distance).Success? <==>
      && Usable(raw, if state.None? then None else state.value.lastProcessedAt, around.thresholds.maxAccuracy)
      && ResolvePlace(around.place, around.zone).Success?
      && distance(Coordinates(raw.latitude.value, raw.longitude.value),
                  ResolvePlace(around.place, around.zone).value.center) >= 0.0
  {
  }

  /** Between the radius, exclusive, and the radius plus the margin, exclusive. */
  predicate InBand(d: real, radius: real, margin: real)
  {
    radius < d < radius + margin
  }

  /** The answer, both ways. Inside: up to the radius, or in the band of a place that was confirmed inside.
      Outside: from the radius plus the margin on, or in the band if it was confirmed outside. */
  predicate Located(p: Presence, d: real, radius: real, margin: real, confirmed: Presence)
  {
    && (p == Inside <==> d <= radius || (InBand(d, radius, margin) && confirmed == Inside))
    && (p == Outside <==> (radius < d && radius + margin <= d) || (InBand(d, radius, margin) && confirmed == Outside))
  }

  /** The raw coordinates. */
  function Position(raw: TrackerState): Coordinates
    requires raw.latitude.Finite? && raw.longitude.Finite?
  {
    Coordinates(raw.latitude.value, raw.longitude.value)
  }

  /** An evaluated state is located by the distance from its own coordinates to the center of its place, and
      the observation carries its time, its coordinates and its accuracy. */
  lemma EvaluatedPresence(raw: TrackerState, around: Surroundings, state: Option<RuntimeState>, distance: Distance)
    requires EvaluateTrackerState(raw, around, state, distance).Success?
    ensures raw.latitude.Finite? && raw.longitude.Finite? && ResolvePlace(around.place, around.zone).Success?
    ensures
      var e := EvaluateTrackerState(raw, around, state, distance).value;
      var place := ResolvePlace(around.place, around.zone).value;
      var confirmed := if state.None? then Unknown else state.value.presence;
      var d := distance(Position(raw), place.center);
      && Located(e.observation.presence, d, place.radius, around.thresholds.exitMargin, confirmed)
      && e.distance == d && e.observation.observedAt == raw.observedAt && e.observation.coordinates == Position(raw)
      && e.observation.accuracy == (if raw.accuracy.Finite? then Some(raw.accuracy.value) else None)
  {
  }

  /** A place of its own is taken as it is; one that follows a zone has the zone's center and radius. */
  lemma PlaceResolved(place: PlaceDefinition, zone: Option<Zone>)
    ensures
      match place
      case CoordinatePlace(g) =>
        ResolvePlace(place, zone) == if OnGlobe(g.center) && g.radius > 0.0 then Success(g) else Failure(InvalidZone)
      case ZonePlace =>
        if zone.None? then ResolvePlace(place, zone) == Failure(MissingZone)
        else
          var z := zone.value;
          if z.latitude.Finite? && z.longitude.Finite? && z.radius.Finite? && z.radius.value > 0.0
             && -90.0 <= z.latitude.value <= 90.0 && -180.0 <= z.longitude.value <= 180.0 then
            ResolvePlace(place, zone) ==
            Success(Geometry(Coordinates(z.latitude.value, z.longitude.value), z.radius.value))
          else ResolvePlace(place, zone) == Failure(InvalidZone)
  {
  }

  /** The re-check answers exactly where an evaluation against the confirmed presence finds the tracker, and
      nothing if there is no such evaluation. */
  lemma ReCheckExactly(raw: Option<TrackerState>, around: Surroundings, state: RuntimeState, distance: Distance)
    ensures
      if raw.Some? && Usable(raw.value, state.lastProcessedAt, around.thresholds.maxAccuracy)
         && ResolvePlace(around.place, around.zone).Success?
         && distance(Position(raw.value), ResolvePlace(around.place, around.zone).value.center) >= 0.0 then
        var place := ResolvePlace(around.place, around.zone).value;
        && ReCheck(raw, around, state, distance).Some?
        && Located(ReCheck(raw, around, state, distance).value, distance(Position(raw.value), place.center),
                   place.radius, around.thresholds.exitMargin, state.presence)
      else ReCheck(raw, around, state, distance).None?
  {
    if raw.Some? {
      EvaluatedExactly(raw.value, around, Some(state), distance);
      if EvaluateTrackerState(raw.value, around, Some(state), distance).Success? {
        EvaluatedPresence(raw.value, around, Some(state), distance);
      }
    }
  }

  /** Every ignored state is ignored for the first of these reasons that holds. */
  lemma ReasonsExactly(raw: TrackerState, around: Surroundings, state: Option<RuntimeState>, distance: Distance)
    requires EvaluateTrackerState(raw, around, state, distance).Failure?
    ensures
      var last := if state.None? then None else state.value.lastProcessedAt;
      var (lat, lon, place) := (raw.latitude, raw.longitude, ResolvePlace(around.place, around.zone));
      EvaluateTrackerState(raw, around, state, distance).error ==
      if !raw.expectedKind then InvalidState
      else if !raw.aware then InvalidTimestamp
      else if last.Some? && raw.observedAt < last.value then StaleTimestamp
      else if !raw.readable then InvalidState
      else if lat.Absent? || lon.Absent? then MissingCoordinates
      else if lat.Unusable? || lon.Unusable? || !(-90.0 <= lat.value <= 90.0 && -180.0 <= lon.value <= 180.0) then
        InvalidCoordinates
      else if raw.accuracy.Unusable? || (raw.accuracy.Finite? && raw.accuracy.value < 0.0) then InvalidAccuracy
      else if place.Failure? then place.error
      else if raw.accuracy.Finite? && raw.accuracy.value > around.thresholds.maxAccuracy then ExcessiveAccuracy
      else InvalidDistance
  {
  }

  /** Why a sample is ignored: an unaware time comes first, then an outdated one, then its state. */
  lemma EarlyReasons(raw: TrackerState, around: Surroundings, state: Option<RuntimeState>, distance: Distance)
    requires raw.expectedKind
    ensures
      var (evaluated, last) :=
        (EvaluateTrackerState(raw, around, state, distance), if state.None? then None else state.value.lastProcessedAt);
      && (evaluated == Failure(InvalidTimestamp) <==> !raw.aware)
      && (evaluated == Failure(StaleTimestamp) <==> raw.aware && last.Some? && raw.observedAt < last.value)
      && (evaluated == Failure(InvalidState) <==>
            raw.aware && !(last.Some? && raw.observedAt < last.value) && !raw.readable)
  {
  }
}
