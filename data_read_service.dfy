/** Itinerary ingestion (src/utils/dataReadService.ts): coordinate strings
    become positions, a route-matching reply becomes a chain of legs, and the
    itinerary records become one Day each. The bundled itinerary is a
    parameter; JavaScript's Number() and the route-matching HTTP request are
    supplied by the caller as a Backend. */
module DataReadService {
  import opened Interfaces
  import Helpers

  // ---------------------------------------------------------------------
  // convertStringToPosition
  // ---------------------------------------------------------------------

  /** String.prototype.split with a one-character separator: the maximal
      separator-free pieces, in order; the empty string gives one empty piece. */
  function Split(s: string, sep: char): (fields: seq<string>)
    ensures |fields| >= 1
  {
    if s == [] then [""]
    else
      var rest := Split(s[1..], sep);
      assert s == [s[0]] + s[1..];
      if s[0] == sep then [""] + rest
      else [[s[0]] + rest[0]] + rest[1..]
  }

  /** There is one piece more than there are separators. */
  lemma {:induction false} SplitCount(s: string, sep: char)
    ensures |Split(s, sep)| == multiset(s)[sep] + 1
  {
    if s != [] {
      SplitCount(s[1..], sep);
      assert s == [s[0]] + s[1..];
      assert multiset(s) == multiset{s[0]} + multiset(s[1..]);
    }
  }

  /** Array.prototype.join: the pieces with the separator between them. */
  function Join(fields: seq<string>, sep: char): string
    requires |fields| >= 1
  {
    if |fields| == 1 then fields[0]
    else fields[0] + [sep] + Join(fields[1..], sep)
  }

  /** Splitting a string that starts with a given character. */
  lemma SplitCons(c: char, t: string, sep: char)
    ensures c == sep ==> Split([c] + t, sep) == [""] + Split(t, sep)
    ensures c != sep ==> Split([c] + t, sep) == [[c] + Split(t, sep)[0]] + Split(t, sep)[1..]
  {
    assert ([c] + t)[1..] == t;
  }

  /** Splitting a separator-free prefix off a string. */
  lemma {:induction false} SplitPrefix(a: string, t: string, sep: char)
    requires sep !in a
    ensures Split(a + t, sep) == [a + Split(t, sep)[0]] + Split(t, sep)[1..]
  {
    var st := Split(t, sep);
    if a != [] {
      SplitPrefix(a[1..], t, sep);
      var rest := Split(a[1..] + t, sep);
      assert a + t == [a[0]] + (a[1..] + t);
      SplitCons(a[0], a[1..] + t, sep);
      assert [a[0]] + (a[1..] + st[0]) == a + st[0];
    } else {
      assert a + t == t && a + st[0] == st[0];
    }
  }

  /** Joining pieces that hold no separator and splitting again gives the
      same pieces: split is the inverse of join. */
  lemma {:induction false} SplitJoin(fields: seq<string>, sep: char)
    requires |fields| >= 1
    requires forall i :: 0 <= i < |fields| ==> sep !in fields[i]
    ensures Split(Join(fields, sep), sep) == fields
  {
    SplitPrefix(fields[0], [], sep);
    assert fields[0] + [] == fields[0];
    if |fields| > 1 {
      SplitJoin(fields[1..], sep);
      var tail := [sep] + Join(fields[1..], sep);
      assert fields[0] + [sep] + Join(fields[1..], sep) == fields[0] + tail;
      SplitPrefix(fields[0], tail, sep);
      assert tail[1..] == Join(fields[1..], sep);
      assert Split(tail, sep) == [""] + fields[1..];
      assert fields[0] + "" == fields[0];
      assert [fields[0]] + fields[1..] == fields;
    }
  }

  /** Joining after a leading separator. */
  lemma JoinEmptyHead(rest: seq<string>, sep: char)
    requires |rest| >= 1
    ensures Join([""] + rest, sep) == [sep] + Join(rest, sep)
  {
    assert ([""] + rest)[1..] == rest;
  }

  /** Joining after a character glued to the first piece. */
  lemma JoinGlued(c: char, rest: seq<string>, sep: char)
    requires |rest| >= 1
    ensures Join([[c] + rest[0]] + rest[1..], sep) == [c] + Join(rest, sep)
  {
    var fields := [[c] + rest[0]] + rest[1..];
    if |rest| > 1 {
      assert fields[1..] == rest[1..];
    }
  }

  /** Splitting and joining again gives the string back. */
  lemma {:induction false} JoinSplit(s: string, sep: char)
    ensures Join(Split(s, sep), sep) == s
  {
    if s != [] {
      JoinSplit(s[1..], sep);
      var rest := Split(s[1..], sep);
      if s[0] == sep {
        JoinEmptyHead(rest, sep);
      } else {
        JoinGlued(s[0], rest, sep);
      }
      assert s == [s[0]] + s[1..];
    }
  }

  /** No piece holds the separator. */
  lemma {:induction false} SplitPieces(s: string, sep: char)
    ensures forall i :: 0 <= i < |Split(s, sep)| ==> sep !in Split(s, sep)[i]
  {
    if s != [] {
      SplitPieces(s[1..], sep);
    }
  }

  /** Array.prototype.map(Number). */
  function MapNumbers(fields: seq<string>, toNumber: string -> real): seq<real> {
    if fields == [] then [] else [toNumber(fields[0])] + MapNumbers(fields[1..], toNumber)
  }

  lemma {:induction false} MapNumbersAt(fields: seq<string>, toNumber: string -> real)
    ensures |MapNumbers(fields, toNumber)| == |fields|
    ensures forall i :: 0 <= i < |fields| ==> MapNumbers(fields, toNumber)[i] == toNumber(fields[i])
  {
    if fields != [] {
      MapNumbersAt(fields[1..], toNumber);
    }
  }

  /** Array.prototype.reverse. */
  function Reverse(xs: seq<real>): seq<real> {
    if xs == [] then [] else Reverse(xs[1..]) + [xs[0]]
  }

  lemma {:induction false} ReverseAt(xs: seq<real>)
    ensures |Reverse(xs)| == |xs|
    ensures forall i :: 0 <= i < |xs| ==> Reverse(xs)[i] == xs[|xs| - 1 - i]
  {
    if xs != [] {
      ReverseAt(xs[1..]);
    }
  }

  /** convertStringToPosition: split on commas, convert every field with
      Number(), reverse. One number per comma-separated field, last field first. */
  function ConvertStringToPosition(str: string, toNumber: string -> real): Position {
    Reverse(MapNumbers(Split(str, ','), toNumber))
  }

  /** One number per comma-separated field, so one more than there are
      commas, and the last field first. */
  lemma ConvertStringToPositionAt(str: string, toNumber: string -> real)
    ensures var pos := ConvertStringToPosition(str, toNumber);
      && |pos| == |Split(str, ',')| == multiset(str)[','] + 1
      && forall i :: 0 <= i < |pos| ==> pos[i] == toNumber(Split(str, ',')[|pos| - 1 - i])
  {
    SplitCount(str, ',');
    MapNumbersAt(Split(str, ','), toNumber);
    ReverseAt(MapNumbers(Split(str, ','), toNumber));
  }

  /** A "lat,lng" string becomes [lng, lat]. */
  lemma ConvertLatLng(lat: string, lng: string, toNumber: string -> real)
    requires ',' !in lat && ',' !in lng
    ensures ConvertStringToPosition(lat + "," + lng, toNumber) == [toNumber(lng), toNumber(lat)]
  {
    SplitJoin([lat, lng], ',');
    assert Join([lat, lng], ',') == lat + "," + lng;
    ConvertStringToPositionAt(lat + "," + lng, toNumber);
  }

  // ---------------------------------------------------------------------
  // getRouteSegments
  // ---------------------------------------------------------------------

  /** What the route-matching request produced: it threw, or it replied with
      an optional `code` and its `matchings`, each with the coordinate list
      of its geometry or None when `geometry.coordinates` is missing (an
      absent list reads the same as an empty one: `matchings[0]` is undefined). */
  datatype MatchResponse =
    | Threw
    | Replied(code: Option<string>, matchings: seq<Option<seq<Position>>>)

  /** The legs after the first one of a matched route: from each matched
      coordinate to the next, and from the last one to the destination. */
  function Links(points: seq<Position>, destination: Position): seq<Transport>
    requires |points| >= 1
  {
    if |points| == 1 then [Transport(points[0], destination, Car)]
    else [Transport(points[0], points[1], Car)] + Links(points[1..], destination)
  }

  lemma {:induction false} LinksAt(points: seq<Position>, destination: Position)
    requires |points| >= 1
    ensures |Links(points, destination)| == |points|
    ensures forall k :: 0 <= k < |points| ==>
      Links(points, destination)[k]
        == Transport(points[k], if k == |points| - 1 then destination else points[k + 1], Car)
  {
    if |points| > 1 {
      var tail := points[1..];
      LinksAt(tail, destination);
      var links := Links(points, destination);
      assert links == [Transport(points[0], points[1], Car)] + Links(tail, destination);
      forall k | 1 <= k < |points|
        ensures links[k] == Transport(points[k], if k == |points| - 1 then destination else points[k + 1], Car)
      {
        assert links[k] == Links(tail, destination)[k - 1];
        assert Links(tail, destination)[k - 1]
            == Transport(tail[k - 1], if k - 1 == |tail| - 1 then destination else tail[k], Car);
        assert tail[k - 1] == points[k];
        if k < |points| - 1 { assert tail[k] == points[k + 1]; }
      }
    }
  }

  /** The Car legs of a matched route: origin to the first matched
      coordinate, then Links. No coordinates, no legs. */
  function CarChain(origin: Position, points: seq<Position>, destination: Position): seq<Transport> {
    if points == [] then [] else [Transport(origin, points[0], Car)] + Links(points, destination)
  }

  function FlightLeg(origin: Position, destination: Position): seq<Transport> {
    [Transport(origin, destination, Flight)]
  }

  /** What getRouteSegments returns for a given reply. */
  function RouteSegments(origin: Position, destination: Position, response: MatchResponse): seq<Transport> {
    match response
    case Threw => FlightLeg(origin, destination)
    case Replied(code, matchings) =>
      if code == Some("NoMatch") then FlightLeg(origin, destination)
      else if code == Some("Ok") then
        // reading the coordinates of a missing matchings[0], or their length
        // when they are missing, throws inside the try
        if matchings == [] || matchings[0].None? then FlightLeg(origin, destination)
        else CarChain(origin, matchings[0].value, destination)
      else FlightLeg(origin, destination)
  }

  /** The legs of a matched route one by one: the first from the origin to
      the first matched coordinate, then leg k + 1 from coordinate k to the
      next one, or to the destination after the last. */
  lemma CarChainAt(origin: Position, points: seq<Position>, destination: Position)
    requires |points| >= 1
    ensures var segs := CarChain(origin, points, destination);
      && |segs| == |points| + 1
      && segs[0] == Transport(origin, points[0], Car)
      && forall k :: 1 <= k <= |points| ==>
        segs[k] == Transport(points[k - 1], if k == |points| then destination else points[k], Car)
  {
    LinksAt(points, destination);
    var segs := CarChain(origin, points, destination);
    var links := Links(points, destination);
    assert segs == [Transport(origin, points[0], Car)] + links;
    forall k | 1 <= k <= |points|
      ensures segs[k] == Transport(points[k - 1], if k == |points| then destination else points[k], Car)
    {
      var j := k - 1;
      assert segs[k] == links[j];
      assert links[j] == Transport(points[j], if j == |points| - 1 then destination else points[j + 1], Car);
    }
  }

  /** The reply says Ok and its first matching carries coordinates. */
  predicate Matched(response: MatchResponse) {
    response.Replied? && response.code == Some("Ok")
    && response.matchings != [] && response.matchings[0].Some?
  }

  /** A reply that throws, says NoMatch, carries any code but Ok, or says Ok
      without a matching or without its coordinates, gives exactly one Flight
      leg with the requested endpoints; a matched reply gives only Car legs. */
  lemma FlightFallback(origin: Position, destination: Position, response: MatchResponse)
    ensures var segs := RouteSegments(origin, destination, response);
      (segs == [Transport(origin, destination, Flight)]) <==> !Matched(response)
    ensures var segs := RouteSegments(origin, destination, response);
      Matched(response) ==> forall k :: 0 <= k < |segs| ==> segs[k].transportType == Car
  {
    if Matched(response) {
      var points := response.matchings[0].value;
      if points != [] {
        CarChainAt(origin, points, destination);
        var segs := CarChain(origin, points, destination);
        forall k | 1 <= k < |segs| ensures segs[k].transportType == Car {
          assert segs[k] == Transport(points[k - 1], if k == |points| then destination else points[k], Car);
        }
      }
    }
  }

  /** An Ok reply whose matching has n >= 1 coordinates gives n + 1 Car legs
      forming a chain from the origin, through the matched coordinates in
      order, to the destination. */
  lemma OkChain(origin: Position, destination: Position, points: seq<Position>, rest: seq<Option<seq<Position>>>)
    requires |points| >= 1
    ensures var segs := RouteSegments(origin, destination, Replied(Some("Ok"), [Some(points)] + rest));
      && |segs| == |points| + 1
      && segs[0].origin == origin
      && segs[|segs| - 1].destination == destination
      && (forall k :: 0 <= k < |segs| - 1 ==> segs[k].destination == segs[k + 1].origin)
      && (forall k :: 0 <= k < |points| ==> segs[k].destination == points[k])
      && (forall k :: 0 <= k < |segs| ==> segs[k].transportType == Car)
  {
    CarChainAt(origin, points, destination);
    var segs := CarChain(origin, points, destination);
    var matchings := [Some(points)] + rest;
    assert matchings != [] && matchings[0] == Some(points);
    assert segs == RouteSegments(origin, destination, Replied(Some("Ok"), matchings));
    var n := |points|;
    assert segs[n] == Transport(points[n - 1], destination, Car);
    forall k | 0 <= k <= n ensures segs[k].transportType == Car {
      if k > 0 { assert segs[k] == Transport(points[k - 1], if k == n then destination else points[k], Car); }
    }
    forall k | 0 <= k < n
      ensures segs[k].destination == points[k] && segs[k + 1].origin == points[k]
    {
      if k > 0 { assert segs[k] == Transport(points[k - 1], points[k], Car); }
      assert segs[k + 1] == Transport(points[k], if k + 1 == n then destination else points[k + 1], Car);
    }
  }

  /** An Ok reply whose matching is empty gives no legs at all. */
  lemma OkEmptyMatching(origin: Position, destination: Position, rest: seq<Option<seq<Position>>>)
    ensures RouteSegments(origin, destination, Replied(Some("Ok"), [Some([])] + rest)) == []
  {
  }

  /** getRouteSegments, from the reply on: the loop over the matched
      coordinates pushes the first leg at i = 0 and one leg per coordinate. */
  method GetRouteSegments(origin: Position, destination: Position, response: MatchResponse)
    returns (retList: seq<Transport>)
    ensures retList == RouteSegments(origin, destination, response)
  {
    if response.Threw? {
      return FlightLeg(origin, destination);
    }
    if response.code == Some("NoMatch") {
      retList := FlightLeg(origin, destination);
    } else if response.code == Some("Ok") {
      if response.matchings == [] || response.matchings[0].None? {
        return FlightLeg(origin, destination);
      }
      var listCoordinates := response.matchings[0].value;
      var n := |listCoordinates|;
      if n > 0 {
        LinksAt(listCoordinates, destination);
      }
      retList := [];
      var i := 0;
      while i < n
        invariant 0 <= i <= n
        invariant i == 0 ==> retList == []
        invariant i > 0 ==> retList == [Transport(origin, listCoordinates[0], Car)] + Links(listCoordinates, destination)[..i]
      {
        if i == 0 {
          retList := retList + [Transport(origin, listCoordinates[0], Car)];
        }
        if i == n - 1 {
          retList := retList + [Transport(listCoordinates[i], destination, Car)];
        } else {
          retList := retList + [Transport(listCoordinates[i], listCoordinates[i + 1], Car)];
        }
        assert Links(listCoordinates, destination)[..i + 1]
            == Links(listCoordinates, destination)[..i] + [Links(listCoordinates, destination)[i]];
        i := i + 1;
      }
      if n > 0 {
        assert Links(listCoordinates, destination)[..n] == Links(listCoordinates, destination);
      }
    } else {
      retList := FlightLeg(origin, destination);
    }
  }

  // ---------------------------------------------------------------------
  // getDayArray
  // ---------------------------------------------------------------------

  /** The `meta_data` of an itinerary place (`destionation` is spelled as in
      the data). */
  datatype Meta = Meta(origin: Option<string>, destionation: Option<string>, lastTicketingDate: Option<string>)

  datatype Place = Place(placeType: string, metaData: Option<Meta>, placeCoordinate: Option<string>)

  /** One record of the itinerary: its `days` number and its places. */
  datatype DayRecord = DayRecord(days: int, place: seq<Place>)

  /** What the ingestion code calls out to: Number() and the route-matching
      request for a pair of positions. */
  datatype Backend = Backend(toNumber: string -> real, matchRoute: (Position, Position) -> MatchResponse)

  const TransportError := "Origin and Destination must be defined for the transport"
  const PlaceError := "Place co ordinates must be defined for a place"

  /** JavaScript truthiness of an optional string: present and not empty. */
  predicate Truthy(s: Option<string>) {
    s.Some? && s.value != ""
  }

  function MetaOrigin(p: Place): Option<string> {
    if p.metaData.Some? then p.metaData.value.origin else None
  }

  function MetaDestination(p: Place): Option<string> {
    if p.metaData.Some? then p.metaData.value.destionation else None
  }

  predicate IsTransport(p: Place) {
    p.placeType == "transport"
  }

  /** A place the loop accepts: a transport place with both endpoints, or
      another place with a coordinate. */
  predicate WellFormed(p: Place) {
    if IsTransport(p) then Truthy(MetaOrigin(p)) && Truthy(MetaDestination(p))
    else Truthy(p.placeCoordinate)
  }

  function ErrorFor(p: Place): string {
    if IsTransport(p) then TransportError else PlaceError
  }

  /** The legs a transport place contributes: its endpoints converted, and
      the segments of the reply to the matching request for them. */
  function LegsOf(p: Place, backend: Backend): seq<Transport> {
    if IsTransport(p) && Truthy(MetaOrigin(p)) && Truthy(MetaDestination(p)) then
      var origin := ConvertStringToPosition(MetaOrigin(p).value, backend.toNumber);
      var destination := ConvertStringToPosition(MetaDestination(p).value, backend.toNumber);
      RouteSegments(origin, destination, backend.matchRoute(origin, destination))
    else []
  }

  function LocationOf(p: Place, backend: Backend): Location
    requires p.placeCoordinate.Some?
  {
    Location(p.placeType, ConvertStringToPosition(p.placeCoordinate.value, backend.toNumber))
  }

  /** One iteration of the inner loop of getDayArray. */
  function PlaceStep(day: Day, p: Place, backend: Backend): Result<Day> {
    if !WellFormed(p) then Err(ErrorFor(p))
    else if IsTransport(p) then Ok(day.(transportArray := day.transportArray + LegsOf(p, backend)))
    else Ok(day.(locationArray := day.locationArray + [LocationOf(p, backend)]))
  }

  /** The inner loop over a sequence of places, stopping at the first throw. */
  function Places(day: Day, ps: seq<Place>, backend: Backend): Result<Day>
    decreases ps
  {
    if ps == [] then Ok(day)
    else match PlaceStep(day, ps[0], backend)
      case Err(e) => Err(e)
      case Ok(next) => Places(next, ps[1..], backend)
  }

  /** The places the loop visits: every one but the first. */
  function Visited(ps: seq<Place>): seq<Place> {
    if ps == [] then [] else ps[1..]
  }

  /** The Day built for one itinerary record. */
  function DayFrom(record: DayRecord, backend: Backend): Result<Day> {
    Places(Day(record.days, [], []), Visited(record.place), backend)
  }

  /** The outer loop of getDayArray, from the days built so far. */
  function DaysFrom(done: seq<Day>, records: seq<DayRecord>, backend: Backend): Result<seq<Day>>
    decreases records
  {
    if records == [] then Ok(done)
    else match DayFrom(records[0], backend)
      case Err(e) => Err(e)
      case Ok(day) => DaysFrom(done + [day], records[1..], backend)
  }

  /** What getDayArray returns or throws. */
  function DayArray(data: seq<DayRecord>, backend: Backend): Result<seq<Day>> {
    DaysFrom([], data, backend)
  }

  /** Reference definitions: all legs of the transport places, concatenated
      in order, and the locations of the other places, in order. */
  function TransportsOf(ps: seq<Place>, backend: Backend): seq<Transport> {
    if ps == [] then [] else LegsOf(ps[0], backend) + TransportsOf(ps[1..], backend)
  }

  function LocationsOf(ps: seq<Place>, backend: Backend): seq<Location> {
    if ps == [] then [] else PlaceLocations(ps[0], backend) + LocationsOf(ps[1..], backend)
  }

  /** The location a place other than a transport contributes. */
  function PlaceLocations(p: Place, backend: Backend): seq<Location> {
    if !IsTransport(p) && p.placeCoordinate.Some? then [LocationOf(p, backend)] else []
  }

  predicate AllWellFormed(ps: seq<Place>) {
    forall i :: 0 <= i < |ps| ==> WellFormed(ps[i])
  }

  /** The first element a test rejects. */
  function FirstFailing<T>(xs: seq<T>, ok: T -> bool): (i: nat)
    requires exists k :: 0 <= k < |xs| && !ok(xs[k])
    ensures i < |xs| && !ok(xs[i])
    ensures forall k :: 0 <= k < i ==> ok(xs[k])
  {
    if !ok(xs[0]) then 0
    else
      assert exists k :: 0 <= k < |xs[1..]| && !ok(xs[1..][k]) by {
        var k :| 0 <= k < |xs| && !ok(xs[k]);
        assert xs[1..][k - 1] == xs[k];
      }
      var i := FirstFailing(xs[1..], ok);
      assert forall k :: 1 <= k < i + 1 ==> xs[k] == xs[1..][k - 1];
      i + 1
  }

  /** The first place the loop rejects. */
  function FirstIllFormed(ps: seq<Place>): (i: nat)
    requires !AllWellFormed(ps)
    ensures i < |ps| && !WellFormed(ps[i])
    ensures forall k :: 0 <= k < i ==> WellFormed(ps[k])
  {
    FirstFailing(ps, WellFormed)
  }

  /** When every place is well formed the inner loop appends the
      concatenated legs and the non-transport locations, in order, and keeps
      the index. */
  lemma {:induction false} PlacesWellFormed(day: Day, ps: seq<Place>, backend: Backend)
    requires AllWellFormed(ps)
    ensures Places(day, ps, backend)
      == Ok(Day(day.index, day.locationArray + LocationsOf(ps, backend), day.transportArray + TransportsOf(ps, backend)))
    decreases ps
  {
    if ps == [] {
      assert day.locationArray + [] == day.locationArray && day.transportArray + [] == day.transportArray;
    } else {
      var p, rest := ps[0], ps[1..];
      var locations, legs := PlaceLocations(p, backend), LegsOf(p, backend);
      var next := Day(day.index, day.locationArray + locations, day.transportArray + legs);
      PlacesOkStep(day, ps, backend);
      PlaceStepOk(day, p, backend);
      PlacesWellFormed(next, rest, backend);
      assert LocationsOf(ps, backend) == locations + LocationsOf(rest, backend);
      assert TransportsOf(ps, backend) == legs + TransportsOf(rest, backend);
      AppendAssoc(day.locationArray, locations, LocationsOf(rest, backend));
      AppendAssoc(day.transportArray, legs, TransportsOf(rest, backend));
    }
  }

  /** Regrouping a concatenation, as a call: asserting it inline in the
      inductive steps that use it makes those proofs much costlier. */
  lemma AppendAssoc<T>(a: seq<T>, b: seq<T>, c: seq<T>)
    ensures (a + b) + c == a + (b + c)
  {
  }

  /** Past a well-formed first place the loop carries on with the rest. */
  lemma PlacesOkStep(day: Day, ps: seq<Place>, backend: Backend)
    requires ps != [] && AllWellFormed(ps)
    ensures AllWellFormed(ps[1..]) && WellFormed(ps[0])
    ensures Places(day, ps, backend) == Places(PlaceStep(day, ps[0], backend).value, ps[1..], backend)
  {
    assert WellFormed(ps[0]);
    forall k | 0 <= k < |ps[1..]| ensures WellFormed(ps[1..][k]) {
      assert ps[1..][k] == ps[k + 1];
    }
  }

  /** One accepted place appends exactly what the reference definitions
      give for it alone. */
  lemma PlaceStepOk(day: Day, p: Place, backend: Backend)
    requires WellFormed(p)
    ensures PlaceStep(day, p, backend)
      == Ok(Day(day.index, day.locationArray + PlaceLocations(p, backend), day.transportArray + LegsOf(p, backend)))
  {
    if IsTransport(p) {
      assert day.locationArray + [] == day.locationArray;
    } else {
      assert day.transportArray + [] == day.transportArray;
    }
  }

  /** The places stop at the first one missing a field, with its error. */
  lemma {:induction false} PlacesIllFormed(day: Day, ps: seq<Place>, backend: Backend)
    requires !AllWellFormed(ps)
    ensures Places(day, ps, backend) == Err(ErrorFor(ps[FirstIllFormed(ps)]))
    decreases ps
  {
    var p := ps[0];
    if WellFormed(p) {
      var next := PlaceStep(day, p, backend).value;
      assert Places(day, ps, backend) == Places(next, ps[1..], backend);
      assert FirstIllFormed(ps) == FirstIllFormed(ps[1..]) + 1;
      PlacesIllFormed(next, ps[1..], backend);
      assert ps[FirstIllFormed(ps)] == ps[1..][FirstIllFormed(ps[1..])];
    }
  }

  /** A record the outer loop gets through: every place after the first is
      well formed. */
  predicate RecordWellFormed(record: DayRecord) {
    AllWellFormed(Visited(record.place))
  }

  predicate AllRecordsWellFormed(records: seq<DayRecord>) {
    forall j :: 0 <= j < |records| ==> RecordWellFormed(records[j])
  }

  /** The first record the outer loop does not get through. */
  function FirstIllFormedRecord(records: seq<DayRecord>): (j: nat)
    requires !AllRecordsWellFormed(records)
    ensures j < |records| && !RecordWellFormed(records[j])
    ensures forall k :: 0 <= k < j ==> RecordWellFormed(records[k])
  {
    FirstFailing(records, RecordWellFormed)
  }

  /** The message of the error a record that is not well formed throws. */
  function RecordError(record: DayRecord): string
    requires !RecordWellFormed(record)
  {
    ErrorFor(Visited(record.place)[FirstIllFormed(Visited(record.place))])
  }

  /** Reference definition of the day a well-formed record yields. */
  function ExpectedDay(record: DayRecord, backend: Backend): Day {
    var visited := Visited(record.place);
    Day(record.days, LocationsOf(visited, backend), TransportsOf(visited, backend))
  }

  function ExpectedDays(records: seq<DayRecord>, backend: Backend): seq<Day> {
    if records == [] then [] else [ExpectedDay(records[0], backend)] + ExpectedDays(records[1..], backend)
  }

  lemma {:induction false} ExpectedDaysAt(records: seq<DayRecord>, backend: Backend)
    ensures |ExpectedDays(records, backend)| == |records|
    ensures forall j :: 0 <= j < |records| ==> ExpectedDays(records, backend)[j] == ExpectedDay(records[j], backend)
  {
    if records != [] {
      ExpectedDaysAt(records[1..], backend);
      forall j | 1 <= j < |records| ensures ExpectedDays(records, backend)[j] == ExpectedDay(records[j], backend) {
        assert ExpectedDays(records, backend)[j] == ExpectedDays(records[1..], backend)[j - 1];
        assert records[1..][j - 1] == records[j];
      }
    }
  }

  /** One record's day, in terms of the reference definitions. */
  lemma DayFromMeaning(record: DayRecord, backend: Backend)
    ensures RecordWellFormed(record) ==> DayFrom(record, backend) == Ok(ExpectedDay(record, backend))
    ensures !RecordWellFormed(record) ==> DayFrom(record, backend) == Err(RecordError(record))
  {
    var start := Day(record.days, [], []);
    if RecordWellFormed(record) {
      PlacesWellFormed(start, Visited(record.place), backend);
    } else {
      PlacesIllFormed(start, Visited(record.place), backend);
    }
    assert [] + LocationsOf(Visited(record.place), backend) == LocationsOf(Visited(record.place), backend);
    assert [] + TransportsOf(Visited(record.place), backend) == TransportsOf(Visited(record.place), backend);
  }

  /** The outer loop appends one expected day per record when every record
      is well formed. */
  lemma {:induction false} DaysFromWellFormed(done: seq<Day>, records: seq<DayRecord>, backend: Backend)
    requires AllRecordsWellFormed(records)
    ensures DaysFrom(done, records, backend) == Ok(done + ExpectedDays(records, backend))
    decreases records
  {
    if records == [] {
      assert done + [] == done;
    } else {
      var day := ExpectedDay(records[0], backend);
      DaysOkStep(done, records, backend);
      RestWellFormed(records);
      DaysFromWellFormed(done + [day], records[1..], backend);
      AppendAssoc(done, [day], ExpectedDays(records[1..], backend));
    }
  }

  /** Past a well-formed first record the outer loop carries on with the
      rest, its day appended. */
  lemma DaysOkStep(done: seq<Day>, records: seq<DayRecord>, backend: Backend)
    requires records != [] && RecordWellFormed(records[0])
    ensures DaysFrom(done, records, backend) == DaysFrom(done + [ExpectedDay(records[0], backend)], records[1..], backend)
  {
    DayFromMeaning(records[0], backend);
  }

  lemma RestWellFormed(records: seq<DayRecord>)
    requires records != [] && AllRecordsWellFormed(records)
    ensures AllRecordsWellFormed(records[1..])
  {
    forall k | 0 <= k < |records[1..]| ensures RecordWellFormed(records[1..][k]) {
      assert records[1..][k] == records[k + 1];
    }
  }

  lemma RestIllFormed(records: seq<DayRecord>)
    requires !AllRecordsWellFormed(records) && RecordWellFormed(records[0])
    ensures !AllRecordsWellFormed(records[1..])
    ensures FirstIllFormedRecord(records) == FirstIllFormedRecord(records[1..]) + 1
  {
    var k :| 0 <= k < |records| && !RecordWellFormed(records[k]);
    assert records[1..][k - 1] == records[k];
  }

  /** Otherwise the outer loop throws the error of the first record that is
      not well formed. */
  lemma {:induction false} DaysFromIllFormed(done: seq<Day>, records: seq<DayRecord>, backend: Backend)
    requires !AllRecordsWellFormed(records)
    ensures DaysFrom(done, records, backend) == Err(RecordError(records[FirstIllFormedRecord(records)]))
    decreases records
  {
    if RecordWellFormed(records[0]) {
      RestIllFormed(records);
      DaysFromIllFormed(done + [ExpectedDay(records[0], backend)], records[1..], backend);
      DaysIllStep(done, records, backend);
    } else {
      DaysErrStep(done, records, backend);
    }
  }

  /** The error past a well-formed first record is the error of the rest. */
  lemma DaysIllStep(done: seq<Day>, records: seq<DayRecord>, backend: Backend)
    requires !AllRecordsWellFormed(records) && RecordWellFormed(records[0])
    requires !AllRecordsWellFormed(records[1..])
    requires DaysFrom(done + [ExpectedDay(records[0], backend)], records[1..], backend)
      == Err(RecordError(records[1..][FirstIllFormedRecord(records[1..])]))
    ensures DaysFrom(done, records, backend) == Err(RecordError(records[FirstIllFormedRecord(records)]))
  {
    DaysOkStep(done, records, backend);
    RestIllFormed(records);
    assert records[FirstIllFormedRecord(records)] == records[1..][FirstIllFormedRecord(records[1..])];
  }

  /** A record that is not well formed stops the outer loop at once. */
  lemma DaysErrStep(done: seq<Day>, records: seq<DayRecord>, backend: Backend)
    requires records != [] && !RecordWellFormed(records[0])
    ensures DaysFrom(done, records, backend) == Err(RecordError(records[0]))
    ensures FirstIllFormedRecord(records) == 0
  {
    DayFromMeaning(records[0], backend);
  }

  /** getDayArray: one Day per record, in order, whose index is the record's
      `days`, whose legs are the in-order concatenation of the legs of its
      transport places and whose locations are its other places, in order;
      it throws exactly when some place after the first of some record is
      ill formed, with the message of the first such place. */
  lemma DayArrayMeaning(data: seq<DayRecord>, backend: Backend)
    ensures DayArray(data, backend).Ok? <==> AllRecordsWellFormed(data)
    ensures DayArray(data, backend).Ok? ==>
      var days := DayArray(data, backend).value;
      && |days| == |data|
      && forall j :: 0 <= j < |data| ==>
        && days[j].index == data[j].days
        && days[j].transportArray == TransportsOf(Visited(data[j].place), backend)
        && days[j].locationArray == LocationsOf(Visited(data[j].place), backend)
    ensures DayArray(data, backend).Err? ==>
      DayArray(data, backend).message == RecordError(data[FirstIllFormedRecord(data)])
  {
    if AllRecordsWellFormed(data) {
      DaysFromWellFormed([], data, backend);
      assert [] + ExpectedDays(data, backend) == ExpectedDays(data, backend);
      ExpectedDaysAt(data, backend);
    } else {
      DaysFromIllFormed([], data, backend);
    }
  }

  /** place[0] of every record is skipped: replacing it changes nothing. */
  lemma FirstPlaceIgnored(record: DayRecord, other: Place, backend: Backend)
    requires |record.place| >= 1
    ensures DayFrom(record.(place := [other] + record.place[1..]), backend) == DayFrom(record, backend)
  {
    assert Visited([other] + record.place[1..]) == record.place[1..];
  }

  /** The body of the inner loop of getDayArray for one place: a transport
      place's legs are pushed one by one, another place's location is
      pushed, and a place missing a field throws. */
  method ReadPlace(day: Day, placeValue: Place, backend: Backend) returns (result: Result<Day>)
    ensures result == PlaceStep(day, placeValue, backend)
  {
    if placeValue.placeType == "transport" {
      if Truthy(MetaOrigin(placeValue)) && Truthy(MetaDestination(placeValue)) {
        var numberOrigin := ConvertStringToPosition(MetaOrigin(placeValue).value, backend.toNumber);
        var numberDestination := ConvertStringToPosition(MetaDestination(placeValue).value, backend.toNumber);
        var segmentArray := GetRouteSegments(numberOrigin, numberDestination, backend.matchRoute(numberOrigin, numberDestination));
        var next := day;
        var k := 0;
        while k < |segmentArray|
          invariant 0 <= k <= |segmentArray|
          invariant next == day.(transportArray := day.transportArray + segmentArray[..k])
        {
          next := next.(transportArray := next.transportArray + [segmentArray[k]]);
          assert segmentArray[..k + 1] == segmentArray[..k] + [segmentArray[k]];
          k := k + 1;
        }
        assert segmentArray[..k] == segmentArray == LegsOf(placeValue, backend);
        result := Ok(next);
      } else {
        result := Err(TransportError);
      }
    } else {
      if Truthy(placeValue.placeCoordinate) {
        result := Ok(day.(locationArray := day.locationArray
          + [Location(placeValue.placeType, ConvertStringToPosition(placeValue.placeCoordinate.value, backend.toNumber))]));
      } else {
        result := Err(PlaceError);
      }
    }
  }

  /** The inner loop of getDayArray for one record: the places after the
      first, in order, stopping at the first that throws. */
  method ReadDay(value: DayRecord, backend: Backend) returns (result: Result<Day>)
    ensures result == DayFrom(value, backend)
  {
    var day := Day(value.days, [], []);
    var i := 1;
    while i < |value.place|
      invariant 1 <= i && (|value.place| == 0 || i <= |value.place|)
      invariant DayFrom(value, backend) == Places(day, if i <= |value.place| then value.place[i..] else [], backend)
    {
      ghost var rest := value.place[i..];
      assert rest != [] && rest[0] == value.place[i] && rest[1..] == value.place[i + 1..];
      var step := ReadPlace(day, value.place[i], backend);
      if step.Err? {
        return Err(step.message);
      }
      day := step.value;
      i := i + 1;
    }
    result := Ok(day);
  }

  /** getDayArray: one day per record, in order; the first record that
      throws ends the whole call with its error. */
  method GetDayArray(data: seq<DayRecord>, backend: Backend) returns (result: Result<seq<Day>>)
    ensures result == DayArray(data, backend)
  {
    var dayArray: seq<Day> := [];
    var j := 0;
    while j < |data|
      invariant 0 <= j <= |data|
      invariant DayArray(data, backend) == DaysFrom(dayArray, data[j..], backend)
    {
      assert data[j..][0] == data[j] && data[j..][1..] == data[j + 1..];
      var day := ReadDay(data[j], backend);
      if day.Err? {
        return Err(day.message);
      }
      dayArray := dayArray + [day.value];
      j := j + 1;
    }
    result := Ok(dayArray);
  }

  // ---------------------------------------------------------------------
  // getDateNameArray
  // ---------------------------------------------------------------------

  /** The TypeError of reading `place` of a missing first record. */
  const ReadPlaceOfUndefined := "TypeError: Cannot read properties of undefined (reading 'place')"

  /** The TypeError of reading `meta_data` of a missing first place. */
  const ReadMetaDataOfUndefined := "TypeError: Cannot read properties of undefined (reading 'meta_data')"

  /** The start date getDateNameArray reads: the `lastTicketingDate` of the
      first place of the first record, possibly undefined. */
  function TicketingDate(first: Place): Option<string> {
    if first.metaData.Some? then first.metaData.value.lastTicketingDate else None
  }

  /** getDateNameArray: one label per itinerary record, counted from the
      first record's first place's ticketing date; it throws when there is no
      first record or that record has no places. */
  method GetDateNameArray(data: seq<DayRecord>, addDays: (string, nat) -> Helpers.CalendarDate)
    returns (result: Result<seq<string>>)
    ensures result.Ok? <==> |data| > 0 && |data[0].place| > 0
    ensures result.Err? && |data| == 0 ==> result.message == ReadPlaceOfUndefined
    ensures result.Err? && |data| > 0 ==> result.message == ReadMetaDataOfUndefined
    ensures result.Ok? ==>
      && |result.value| == |data|
      && forall i :: 0 <= i < |data| ==>
        result.value[i] == Helpers.Label(Helpers.DateAfter(TicketingDate(data[0].place[0]), i, addDays))
    ensures result.Ok? && TicketingDate(data[0].place[0]).None? ==>
      forall i :: 0 <= i < |data| ==> result.value[i] == "NaN undefined"
  {
    if |data| == 0 {
      return Err(ReadPlaceOfUndefined);
    }
    if |data[0].place| == 0 {
      return Err(ReadMetaDataOfUndefined);
    }
    var labels := Helpers.FormatDateArray(TicketingDate(data[0].place[0]), |data|, addDays);
    result := Ok(labels);
  }
}
