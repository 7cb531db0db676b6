/** The `useGeolocation` hook: a `GeolocationState` record stepped through
    start, success and failure by one location request, the mapping from a
    position-error code to a user-facing message, and the map link.

    Whether the browser offers geolocation and what the position request
    reports are parameters; JavaScript's rendering of a number as a string is
    done by the caller, so coordinates reach `MapsLink` as strings. */
module Geolocation {
  import opened Js

  /** The hook's state record. */
  datatype GeoState = GeoState(
    latitude: Option<real>,
    longitude: Option<real>,
    error: Option<string>,
    loading: bool)

  const InitialState: GeoState := GeoState(None, None, None, false)

  /** A fix resolved by the request. */
  datatype Coords = Coords(latitude: real, longitude: real)

  /** What `getCurrentPosition` calls back with. */
  datatype PositionOutcome = Position(latitude: real, longitude: real) | PositionError(code: int)

  /** The codes of a GeolocationPositionError (W3C Geolocation API). */
  const PermissionDenied: int := 1
  const PositionUnavailable: int := 2
  const Timeout: int := 3

  const UnsupportedMessage: string := "Geolocation is not supported by your browser"
  const PermissionDeniedMessage: string := "Location permission denied. Please enable location access."
  const UnavailableMessage: string := "Location information is unavailable."
  const TimeoutMessage: string := "Location request timed out."
  const FallbackMessage: string := "Unable to retrieve your location"

  /** The `switch (error.code)` of the error callback. */
  function ErrorMessage(code: int): string {
    if code == PermissionDenied then PermissionDeniedMessage
    else if code == PositionUnavailable then UnavailableMessage
    else if code == Timeout then TimeoutMessage
    else FallbackMessage
  }

  /** Each of the three known codes has a message of its own; exactly the other
      codes get the fallback message. */
  lemma ErrorMessageCases(code: int)
    ensures ErrorMessage(code) == FallbackMessage <==> code !in {PermissionDenied, PositionUnavailable, Timeout}
    ensures forall c :: (c in {PermissionDenied, PositionUnavailable, Timeout} && c != code
      ==> ErrorMessage(c) != ErrorMessage(code))
  {
  }

  // ---------------------------------------------------------------------------
  // State transitions

  /** No geolocation support: the error is set and loading cleared. */
  function Unsupported(s: GeoState): GeoState {
    s.(error := Some(UnsupportedMessage), loading := false)
  }

  /** A request starts: loading set, error cleared. */
  function Started(s: GeoState): GeoState {
    s.(loading := true, error := None)
  }

  /** The success callback replaces the whole record. */
  function Located(latitude: real, longitude: real): GeoState {
    GeoState(Some(latitude), Some(longitude), None, false)
  }

  /** The error callback sets the message for the code and clears loading. */
  function Faulted(s: GeoState, code: int): GeoState {
    s.(error := Some(ErrorMessage(code)), loading := false)
  }

  /** The state after one whole request from state `s`. */
  function AfterRequest(s: GeoState, supported: bool, outcome: PositionOutcome): GeoState {
    if !supported then Unsupported(s)
    else match outcome
      case Position(lat, lon) => Located(lat, lon)
      case PositionError(code) => Faulted(Started(s), code)
  }

  /** Once a request has settled, loading is off; the error is cleared exactly
      when a fix came back, and the stored coordinates change only then. */
  lemma AfterRequestSettles(s: GeoState, supported: bool, outcome: PositionOutcome)
    ensures var t := AfterRequest(s, supported, outcome);
      && !t.loading
      && (t.error.None? <==> supported && outcome.Position?)
      && (supported && outcome.Position? ==> t.latitude == Some(outcome.latitude) && t.longitude == Some(outcome.longitude))
      && (!(supported && outcome.Position?) ==> t.latitude == s.latitude && t.longitude == s.longitude)
      && (!supported ==> t.error == Some(UnsupportedMessage))
      && (supported && outcome.PositionError? ==> t.error == Some(ErrorMessage(outcome.code)))
  {
  }

  /** The hook's state, updated in place by `setState`. */
  class Tracker {
    var state: GeoState

    constructor ()
      ensures state == InitialState
    {
      state := InitialState;
    }

    /** The synchronous part of `getLocation`: rejects at once without support,
        otherwise marks the request as started. */
    method Start(supported: bool) returns (rejected: Option<string>)
      modifies this
      ensures !supported ==> state == Unsupported(old(state)) && rejected == Some(UnsupportedMessage)
      ensures supported ==> state == Started(old(state)) && rejected == None
    {
      if !supported {
        state := state.(error := Some(UnsupportedMessage), loading := false);
        return Some(UnsupportedMessage);
      }
      state := state.(loading := true, error := None);
      rejected := None;
    }

    /** The success callback: the state is exactly the fix, which is resolved. */
    method OnPosition(latitude: real, longitude: real) returns (c: Coords)
      modifies this
      ensures state == Located(latitude, longitude)
      ensures c == Coords(latitude, longitude)
    {
      state := GeoState(Some(latitude), Some(longitude), None, false);
      c := Coords(latitude, longitude);
    }

    /** The error callback: the message for the code is stored and rejected with. */
    method OnError(code: int) returns (message: string)
      modifies this
      ensures state == Faulted(old(state), code)
      ensures message == ErrorMessage(code)
    {
      message := ErrorMessage(code);
      state := state.(error := Some(message), loading := false);
    }

    /** `getLocation()` through to the settling of its promise. */
    method GetLocation(supported: bool, outcome: PositionOutcome) returns (r: Settled<Coords>)
      modifies this
      ensures state == AfterRequest(old(state), supported, outcome)
      ensures r.Resolved? <==> supported && outcome.Position?
      ensures r.Resolved? ==> r.value == Coords(outcome.latitude, outcome.longitude)
      ensures !supported ==> r == Rejected(UnsupportedMessage)
      ensures supported && outcome.PositionError? ==> r == Rejected(ErrorMessage(outcome.code))
    {
      var rejected := Start(supported);
      if rejected.Some? {
        return Rejected(rejected.value);
      }
      match outcome {
        case Position(lat, lon) =>
          var c := OnPosition(lat, lon);
          r := Resolved(c);
        case PositionError(code) =>
          var message := OnError(code);
          r := Rejected(message);
      }
    }
  }

  // ---------------------------------------------------------------------------
  // Map link

  const MapsPrefix: string := "https://www.google.com/maps?q="

  /** `generateMapsLink`, given the two coordinates as JavaScript renders them. */
  function MapsLink(latitude: string, longitude: string): string {
    MapsPrefix + latitude + "," + longitude
  }

  /** Position of the first comma in `s`, or |s| when there is none. */
  function FirstComma(s: string): (k: nat)
    ensures k <= |s|
    ensures forall i :: 0 <= i < k ==> s[i] != ','
    ensures k < |s| ==> s[k] == ','
  {
    if s == [] then 0
    else if s[0] == ',' then 0
    else 1 + FirstComma(s[1..])
  }

  /** Reads the two coordinates back out of a map link. */
  function ParseMapsLink(link: string): Option<(string, string)> {
    if !StartsWith(link, MapsPrefix) then None
    else
      var q := link[|MapsPrefix|..];
      var k := FirstComma(q);
      if k == |q| then None else Some((q[..k], q[k + 1..]))
  }

  /** A map link gives back its coordinates, as long as the latitude's
      rendering has no comma (JavaScript's number rendering never has one). */
  lemma {:induction false} MapsLinkRoundTrip(latitude: string, longitude: string)
    requires ',' !in latitude
    ensures ParseMapsLink(MapsLink(latitude, longitude)) == Some((latitude, longitude))
  {
    var link := MapsLink(latitude, longitude);
    var q := latitude + "," + longitude;
    assert link == MapsPrefix + q;
    assert link[..|MapsPrefix|] == MapsPrefix;
    assert link[|MapsPrefix|..] == q;
    FirstCommaAfter(latitude, longitude);
    assert q[..|latitude|] == latitude;
    assert q[|latitude| + 1..] == longitude;
  }

  lemma {:induction false} FirstCommaAfter(a: string, b: string)
    requires ',' !in a
    ensures FirstComma(a + "," + b) == |a|
  {
    var q := a + "," + b;
    var k := FirstComma(q);
    assert q[|a|] == ',';
  }
}
