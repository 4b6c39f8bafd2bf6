/** The route animation engine (src/utils/mapService.ts): a MapService keeps
    the route features and the marker feature of one day, densifies every
    route line into evenly spaced samples, and plays each line frame by frame
    by moving the marker along it.

    The geodesic library is abstract (a Geodesy value holding line length,
    the point at a distance along a line, and the bearing between two
    points), and so is the map renderer: a set of source ids, a map from layer
    ids to layers, and the log of marker frames sent to the marker source. */
module MapEngine {
  import opened Interfaces

  /** turf.length, turf.along and turf.bearing, as the caller's functions. */
  datatype Geodesy = Geodesy(
    length: seq<Position> -> real,
    along: (seq<Position>, real) -> Position,
    bearing: (Position, Position) -> real)

  /** A route feature: a line string tagged with the leg's transport type. */
  datatype RouteFeature = RouteFeature(coordinates: seq<Position>, transportType: TransportType)

  /** A marker feature: a point and the `bearing` property, absent until the
      first frame sets it. */
  datatype PointFeature = PointFeature(coordinates: Position, bearing: Option<real>)

  /** The layers the service draws: the route line, and the marker symbol
      whose icon is the transport type. */
  datatype Layer = Line | Symbol(icon: TransportType)

  /** The renderer's state as far as the service can observe it. */
  datatype Renderer = Renderer(sources: set<string>, layers: map<string, Layer>, frames: seq<PointFeature>)

  const RouteId := "route"
  const PointId := "point"
  const DefaultSpeedFactor: real := 0.05

  // ---------------------------------------------------------------------
  // Renderer operations
  // ---------------------------------------------------------------------

  /** addSource: the renderer throws for an id already in use. */
  function AddSource(r: Renderer, id: string): (r': Renderer)
    requires id !in r.sources
    ensures r'.sources == r.sources + {id} && id in r'.sources
    ensures r'.layers == r.layers && r'.frames == r.frames
  {
    r.(sources := r.sources + {id})
  }

  /** removeSource: the renderer throws for an id that is not in use. */
  function RemoveSource(r: Renderer, id: string): (r': Renderer)
    requires id in r.sources
    ensures r'.sources == r.sources - {id} && id !in r'.sources
    ensures r'.layers == r.layers && r'.frames == r.frames
  {
    r.(sources := r.sources - {id})
  }

  /** addLayer: a layer whose id is already in use is reported and ignored. */
  function AddLayer(r: Renderer, id: string, layer: Layer): (r': Renderer)
    ensures id in r'.layers
    ensures id !in r.layers ==> r'.layers == r.layers[id := layer]
    ensures id in r.layers ==> r'.layers == r.layers
    ensures r'.sources == r.sources && r'.frames == r.frames
  {
    if id in r.layers then r else r.(layers := r.layers[id := layer])
  }

  /** removeLayer of a layer that is present. */
  function RemoveLayer(r: Renderer, id: string): (r': Renderer)
    requires id in r.layers
    ensures r'.layers == r.layers - {id} && id !in r'.layers
    ensures r'.sources == r.sources && r'.frames == r.frames
  {
    r.(layers := r.layers - {id})
  }

  /** What clearAll leaves of a renderer: the route and marker sources and
      layers gone, everything else as it was. */
  function Cleared(r: Renderer): Renderer {
    Renderer(r.sources - {RouteId, PointId}, r.layers - {RouteId, PointId}, r.frames)
  }

  /** Clearing twice is clearing once, and a cleared renderer accepts the
      sources handleMapLoad adds. */
  lemma ClearedIdempotent(r: Renderer)
    ensures Cleared(Cleared(r)) == Cleared(r)
    ensures RouteId !in Cleared(r).sources && PointId !in Cleared(r).sources
    ensures RouteId !in Cleared(r).layers && PointId !in Cleared(r).layers
    ensures forall id :: id in r.sources && id != RouteId && id != PointId ==> id in Cleared(r).sources
  {
    assert Cleared(Cleared(r)).layers == Cleared(r).layers;
  }

  // ---------------------------------------------------------------------
  // Densifying a line (the inner loop of preprocess)
  // ---------------------------------------------------------------------

  /** How many offsets 0, sf, 2·sf, … lie strictly below the line length:
      the smallest whole number at or above length / sf, or none at all for
      a line that has no length. */
  function SampleCount(lineDistance: real, speedFactor: real): nat
    requires speedFactor > 0.0
  {
    if lineDistance <= 0.0 then 0
    else
      var q := lineDistance / speedFactor;
      if q.Floor as real == q then q.Floor else q.Floor + 1
  }

  /** Sample k exists exactly when its offset k·sf is below the length. */
  lemma SampleCountMeaning(lineDistance: real, speedFactor: real, k: nat)
    requires speedFactor > 0.0
    ensures k < SampleCount(lineDistance, speedFactor) <==> (k as real) * speedFactor < lineDistance
  {
    if lineDistance > 0.0 {
      var q := lineDistance / speedFactor;
      assert q * speedFactor == lineDistance;
      ScaleStrict(k as real, q, speedFactor);
      CeilingBound(q, k);
    } else {
      ScaleStrict(k as real, 0.0, speedFactor);
    }
  }

  /** A whole number is below the ceiling of q exactly when it is below q. */
  lemma CeilingBound(q: real, k: int)
    ensures k < (if q.Floor as real == q then q.Floor else q.Floor + 1) <==> (k as real) < q
  {
    assert q.Floor as real <= q < (q.Floor + 1) as real;
  }

  /** Scaling by a positive factor keeps the order, in both directions. */
  lemma ScaleStrict(x: real, y: real, c: real)
    requires c > 0.0
    ensures x < y <==> x * c < y * c
  {
    if x < y {
      assert (y - x) * c > 0.0;
    } else {
      assert (x - y) * c >= 0.0;
    }
  }

  /** The offsets along a line at which the densifying loop samples it. */
  function Offsets(lineDistance: real, speedFactor: real): seq<real>
    requires speedFactor > 0.0
  {
    seq(SampleCount(lineDistance, speedFactor), k => (k as real) * speedFactor)
  }

  /** The densified line: the point at every offset, in order. */
  function Arc(geo: Geodesy, line: seq<Position>, speedFactor: real): seq<Position>
    requires speedFactor > 0.0
  {
    var offsets := Offsets(geo.length(line), speedFactor);
    seq(|offsets|, k requires 0 <= k < |offsets| => geo.along(line, offsets[k]))
  }

  /** The offsets start at 0 and increase by the speed factor, so they are
      strictly increasing. */
  lemma OffsetsSpacing(lineDistance: real, speedFactor: real)
    requires speedFactor > 0.0
    ensures var o := Offsets(lineDistance, speedFactor);
      && (|o| > 0 ==> o[0] == 0.0)
      && (forall k :: 0 <= k < |o| - 1 ==> o[k + 1] == o[k] + speedFactor)
      && (forall j, k :: 0 <= j < k < |o| ==> o[j] < o[k])
  {
    OffsetsSteps(lineDistance, speedFactor);
    OffsetsIncreasing(lineDistance, speedFactor);
  }

  /** Consecutive offsets are one speed factor apart. */
  lemma OffsetsSteps(lineDistance: real, speedFactor: real)
    requires speedFactor > 0.0
    ensures var o := Offsets(lineDistance, speedFactor);
      forall k :: 0 <= k < |o| - 1 ==> o[k + 1] == o[k] + speedFactor
  {
    var o := Offsets(lineDistance, speedFactor);
    forall k | 0 <= k < |o| - 1 ensures o[k + 1] == o[k] + speedFactor {
      assert o[k] == (k as real) * speedFactor && o[k + 1] == ((k + 1) as real) * speedFactor;
      OffsetStep(k, speedFactor);
    }
  }

  /** Offsets keep the order of their indices. */
  lemma OffsetsIncreasing(lineDistance: real, speedFactor: real)
    requires speedFactor > 0.0
    ensures var o := Offsets(lineDistance, speedFactor);
      forall j, k :: 0 <= j < k < |o| ==> o[j] < o[k]
  {
    var o := Offsets(lineDistance, speedFactor);
    forall j, k | 0 <= j < k < |o| ensures o[j] < o[k] {
      assert o[j] == (j as real) * speedFactor && o[k] == (k as real) * speedFactor;
      ScaleStrict(j as real, k as real, speedFactor);
    }
  }

  /** Offset k + 1 is offset k plus the speed factor. */
  lemma OffsetStep(k: nat, speedFactor: real)
    ensures ((k + 1) as real) * speedFactor == (k as real) * speedFactor + speedFactor
  {
    assert ((k + 1) as real) == (k as real) + 1.0;
  }

  /** The offsets stay strictly below the line length and stop at the first
      one that would not: a line of no length gives no samples. */
  lemma OffsetsRange(lineDistance: real, speedFactor: real)
    requires speedFactor > 0.0
    ensures var o := Offsets(lineDistance, speedFactor);
      && (forall k :: 0 <= k < |o| ==> o[k] < lineDistance)
      && (|o| as real) * speedFactor >= lineDistance
      && (lineDistance <= 0.0 <==> o == [])
  {
    var o := Offsets(lineDistance, speedFactor);
    forall k | 0 <= k < |o| ensures o[k] < lineDistance {
      SampleCountMeaning(lineDistance, speedFactor, k);
    }
    SampleCountMeaning(lineDistance, speedFactor, |o|);
    if lineDistance > 0.0 {
      SampleCountMeaning(lineDistance, speedFactor, 0);
    }
  }

  /** Sample k of a densified line is the point at offset k·sf. */
  lemma ArcSamples(geo: Geodesy, line: seq<Position>, speedFactor: real)
    requires speedFactor > 0.0
    ensures var arc := Arc(geo, line, speedFactor);
      && |arc| == |Offsets(geo.length(line), speedFactor)|
      && (forall k :: 0 <= k < |arc| ==> arc[k] == geo.along(line, (k as real) * speedFactor))
      && (geo.length(line) <= 0.0 ==> arc == [])
  {
    var offsets := Offsets(geo.length(line), speedFactor);
    var arc := Arc(geo, line, speedFactor);
    forall k | 0 <= k < |arc| ensures arc[k] == geo.along(line, (k as real) * speedFactor) {
      assert arc[k] == geo.along(line, offsets[k]);
      assert offsets[k] == (k as real) * speedFactor;
    }
  }

  lemma StepIsSpeedFactor(lineDistance: real, speedFactor: real)
    requires lineDistance > 0.0 && speedFactor > 0.0
    ensures lineDistance / speedFactor > 0.0
    ensures lineDistance / (lineDistance / speedFactor) == speedFactor
  {
    var steps := lineDistance / speedFactor;
    assert steps * speedFactor == lineDistance;
  }

  /** The inner loop of preprocess for one line: sample it at offsets
      0, step, 2·step, … while the offset is below the line length, where
      step is length / (length / speedFactor). */
  method SampleArc(geo: Geodesy, line: seq<Position>, speedFactor: real) returns (arc: seq<Position>)
    requires speedFactor > 0.0
    ensures arc == Arc(geo, line, speedFactor)
  {
    var lineDistance := geo.length(line);
    var steps := lineDistance / speedFactor;
    ghost var n := SampleCount(lineDistance, speedFactor);
    ghost var expected := Arc(geo, line, speedFactor);
    arc := [];
    var i: real := 0.0;
    while i < lineDistance
      invariant |arc| <= n == |expected|
      invariant i == (|arc| as real) * speedFactor
      invariant arc == expected[..|arc|]
      decreases n - |arc|
    {
      SampleCountMeaning(lineDistance, speedFactor, |arc|);
      var segment := geo.along(line, i);
      assert Offsets(lineDistance, speedFactor)[|arc|] == i;
      assert segment == expected[|arc|];
      arc := arc + [segment];
      StepIsSpeedFactor(lineDistance, speedFactor);
      i := i + lineDistance / steps;
    }
    SampleCountMeaning(lineDistance, speedFactor, |arc|);
  }

  // ---------------------------------------------------------------------
  // preprocess, as functions of the old state
  // ---------------------------------------------------------------------

  /** The route feature preprocess pushes for one leg. */
  function FeatureOf(t: Transport): RouteFeature {
    RouteFeature([t.origin, t.destination], t.transportType)
  }

  function Features(ts: seq<Transport>): (fs: seq<RouteFeature>)
    ensures |fs| == |ts|
    ensures forall k :: 0 <= k < |ts| ==> fs[k] == FeatureOf(ts[k])
  {
    seq(|ts|, k requires 0 <= k < |ts| => FeatureOf(ts[k]))
  }

  /** Every feature's line replaced by its densified samples. */
  function Densified(geo: Geodesy, fs: seq<RouteFeature>, speedFactor: real): seq<RouteFeature>
    requires speedFactor > 0.0
  {
    seq(|fs|, k requires 0 <= k < |fs| => fs[k].(coordinates := Arc(geo, fs[k].coordinates, speedFactor)))
  }

  /** The route after preprocess: the new legs appended, then every feature
      of the route densified, the old ones included. */
  function PreprocessRoute(geo: Geodesy, speedFactor: real, route: seq<RouteFeature>, ts: seq<Transport>): seq<RouteFeature>
    requires speedFactor > 0.0
  {
    Densified(geo, route + Features(ts), speedFactor)
  }

  /** The marker features after preprocess: one more, at the first leg's
      origin, without a bearing. */
  function PreprocessPoint(point: seq<PointFeature>, ts: seq<Transport>): seq<PointFeature>
    requires |ts| > 0
  {
    point + [PointFeature(ts[0].origin, None)]
  }

  /** preprocess appends one feature per leg, in order, with the leg's
      transport type and the samples of the line from its origin to its
      destination; the features already there keep their type and are
      sampled again. */
  lemma PreprocessRouteMeaning(geo: Geodesy, speedFactor: real, route: seq<RouteFeature>, ts: seq<Transport>)
    requires speedFactor > 0.0
    ensures var r := PreprocessRoute(geo, speedFactor, route, ts);
      && |r| == |route| + |ts|
      && (forall k :: 0 <= k < |ts| ==>
            r[|route| + k] == RouteFeature(Arc(geo, [ts[k].origin, ts[k].destination], speedFactor), ts[k].transportType))
      && (forall k :: 0 <= k < |route| ==>
            r[k] == route[k].(coordinates := Arc(geo, route[k].coordinates, speedFactor)))
  {
    var all := route + Features(ts);
    forall k | 0 <= k < |ts|
      ensures all[|route| + k] == FeatureOf(ts[k])
    {
    }
  }

  /** Nothing is ever removed by preprocess: two calls without clearAll
      leave the old features followed by one per leg of each call, and two
      more markers, the first marker untouched. */
  lemma PreprocessTwice(geo: Geodesy, speedFactor: real, route: seq<RouteFeature>, point: seq<PointFeature>,
                        ts1: seq<Transport>, ts2: seq<Transport>)
    requires speedFactor > 0.0 && |ts1| > 0 && |ts2| > 0
    ensures var r := PreprocessRoute(geo, speedFactor, PreprocessRoute(geo, speedFactor, route, ts1), ts2);
      |r| == |route| + |ts1| + |ts2|
    ensures var p := PreprocessPoint(PreprocessPoint(point, ts1), ts2);
      && |p| == |point| + 2
      && p[0] == (if point == [] then PointFeature(ts1[0].origin, None) else point[0])
      && p[|point|] == PointFeature(ts1[0].origin, None)
      && p[|point| + 1] == PointFeature(ts2[0].origin, None)
  {
    PreprocessRouteMeaning(geo, speedFactor, route, ts1);
    PreprocessRouteMeaning(geo, speedFactor, PreprocessRoute(geo, speedFactor, route, ts1), ts2);
  }

  // ---------------------------------------------------------------------
  // animate, as a function of the line
  // ---------------------------------------------------------------------

  /** The number of frames a line is worth: its length over the speed factor. */
  function Steps(geo: Geodesy, coords: seq<Position>, speedFactor: real): real
    requires speedFactor > 0.0
  {
    geo.length(coords) / speedFactor
  }

  /** The indices the bearing of frame `counter` is taken between: the
      current and the next sample while counter < steps, afterwards the
      previous and the current one. */
  function StartIndex(steps: real, counter: nat): int {
    if counter as real >= steps then counter - 1 else counter
  }

  function EndIndex(steps: real, counter: nat): int {
    if counter as real >= steps then counter else counter + 1
  }

  /** Frame `counter` is drawn only when both indices name a sample. */
  predicate Drawn(coords: seq<Position>, steps: real, counter: nat) {
    0 <= StartIndex(steps, counter) < |coords| && 0 <= EndIndex(steps, counter) < |coords|
  }

  /** After frame `counter` the animation carries on with the next one. */
  predicate Continues(coords: seq<Position>, steps: real, counter: nat) {
    Drawn(coords, steps, counter) && (counter as real) < steps
  }

  /** The marker of a drawn frame: at sample `counter`, with the bearing
      between the start and end samples. */
  function Marker(geo: Geodesy, coords: seq<Position>, steps: real, counter: nat): (m: PointFeature)
    requires Drawn(coords, steps, counter)
    ensures counter < |coords|
  {
    PointFeature(coords[counter],
      Some(geo.bearing(coords[StartIndex(steps, counter)], coords[EndIndex(steps, counter)])))
  }

  /** The markers animate sends from frame `counter` on. */
  function Frames(geo: Geodesy, coords: seq<Position>, steps: real, counter: nat): seq<PointFeature>
    decreases |coords| - counter
  {
    if !Drawn(coords, steps, counter) then []
    else if (counter as real) < steps then [Marker(geo, coords, steps, counter)] + Frames(geo, coords, steps, counter + 1)
    else [Marker(geo, coords, steps, counter)]
  }

  /** The frames are those of consecutive counters from `counter` on:
      frame k is drawn and is the marker of frame counter + k. */
  lemma {:induction false} FrameAt(geo: Geodesy, coords: seq<Position>, steps: real, counter: nat, k: nat)
    requires k < |Frames(geo, coords, steps, counter)|
    ensures Drawn(coords, steps, counter + k)
    ensures Frames(geo, coords, steps, counter)[k] == Marker(geo, coords, steps, counter + k)
    decreases k
  {
    FrameHead(geo, coords, steps, counter);
    if k > 0 {
      var frames := Frames(geo, coords, steps, counter);
      FrameAt(geo, coords, steps, counter + 1, k - 1);
      assert counter + k == (counter + 1) + (k - 1);
      assert frames[k] == frames[1..][k - 1];
    }
  }

  /** Every frame but the last continues, so the counter goes up by exactly
      one from frame to frame. */
  lemma {:induction false} FrameContinues(geo: Geodesy, coords: seq<Position>, steps: real, counter: nat, k: nat)
    requires k + 1 < |Frames(geo, coords, steps, counter)|
    ensures Continues(coords, steps, counter + k)
    decreases k
  {
    FrameHead(geo, coords, steps, counter);
    if k > 0 {
      FrameContinues(geo, coords, steps, counter + 1, k - 1);
      assert counter + k == (counter + 1) + (k - 1);
    }
  }

  /** The last frame stops the animation: steps is reached, or the next
      frame would have no samples. */
  lemma {:induction false} FrameLast(geo: Geodesy, coords: seq<Position>, steps: real, counter: nat)
    requires Frames(geo, coords, steps, counter) != []
    ensures var n := |Frames(geo, coords, steps, counter)|;
      !Continues(coords, steps, counter + n - 1) || !Drawn(coords, steps, counter + n)
    decreases |coords| - counter
  {
    FrameHead(geo, coords, steps, counter);
    var n := |Frames(geo, coords, steps, counter)|;
    if n > 1 {
      FrameLast(geo, coords, steps, counter + 1);
      assert counter + n - 1 == (counter + 1) + (n - 1) - 1;
    } else {
      FramesCons(geo, coords, steps, counter);
      FramesCons(geo, coords, steps, counter + 1);
    }
  }

  /** The first frame is the marker of frame `counter`; any further frames
      are those from the next counter, which the first one continues to. */
  lemma FrameHead(geo: Geodesy, coords: seq<Position>, steps: real, counter: nat)
    requires Frames(geo, coords, steps, counter) != []
    ensures Drawn(coords, steps, counter)
    ensures Frames(geo, coords, steps, counter)[0] == Marker(geo, coords, steps, counter)
    ensures |Frames(geo, coords, steps, counter)| > 1 ==>
      Continues(coords, steps, counter)
      && Frames(geo, coords, steps, counter)[1..] == Frames(geo, coords, steps, counter + 1)
  {
  }

  /** One frame at a time: a drawn frame is followed by the frames from the
      next counter exactly when it continues. */
  lemma FramesCons(geo: Geodesy, coords: seq<Position>, steps: real, counter: nat)
    ensures Continues(coords, steps, counter) ==>
      Frames(geo, coords, steps, counter) == [Marker(geo, coords, steps, counter)] + Frames(geo, coords, steps, counter + 1)
    ensures Drawn(coords, steps, counter) && !Continues(coords, steps, counter) ==>
      Frames(geo, coords, steps, counter) == [Marker(geo, coords, steps, counter)]
    ensures !Drawn(coords, steps, counter) ==> Frames(geo, coords, steps, counter) == []
  {
  }

  /** What frame `counter` shows: sample `counter`, with the bearing taken
      forwards to the next sample while counter < steps and backwards from
      the previous sample afterwards. */
  lemma MarkerMeaning(geo: Geodesy, coords: seq<Position>, steps: real, counter: nat)
    requires Drawn(coords, steps, counter)
    ensures var m := Marker(geo, coords, steps, counter);
      && m.coordinates == coords[counter]
      && ((counter as real) < steps ==>
            counter + 1 < |coords| && m.bearing == Some(geo.bearing(coords[counter], coords[counter + 1])))
      && ((counter as real) >= steps ==>
            counter >= 1 && m.bearing == Some(geo.bearing(coords[counter - 1], coords[counter])))
  {
  }

  /** There are never more frames than samples from `counter` on. */
  lemma {:induction false} FramesBound(geo: Geodesy, coords: seq<Position>, steps: real, counter: nat)
    ensures Frames(geo, coords, steps, counter) != [] ==> counter + |Frames(geo, coords, steps, counter)| <= |coords|
    decreases |coords| - counter
  {
    var f := Frames(geo, coords, steps, counter);
    if Drawn(coords, steps, counter) {
      var m := Marker(geo, coords, steps, counter);
      if (counter as real) < steps {
        FramesBound(geo, coords, steps, counter + 1);
        assert f == [m] + Frames(geo, coords, steps, counter + 1);
      } else {
        assert f == [m];
      }
    }
  }

  /** A frame whose start or end sample does not exist changes nothing:
      in particular a line of no length draws no frame at all. */
  lemma NoFrameWithoutSamples(geo: Geodesy, coords: seq<Position>, speedFactor: real)
    requires speedFactor > 0.0 && geo.length(coords) <= 0.0
    ensures Frames(geo, coords, Steps(geo, coords, speedFactor), 0) == []
  {
    var steps := Steps(geo, coords, speedFactor);
    assert StartIndex(steps, 0) == -1;
  }

  /** The marker features after a run of frames: the first one is the last
      frame sent, if any. */
  function AfterFrames(point: seq<PointFeature>, frames: seq<PointFeature>): (p: seq<PointFeature>)
    ensures |p| == |point|
    ensures forall k :: 1 <= k < |point| ==> p[k] == point[k]
  {
    if frames == [] || point == [] then point else point[0 := frames[|frames| - 1]]
  }

  lemma AfterFramesAppend(point: seq<PointFeature>, a: seq<PointFeature>, b: seq<PointFeature>)
    ensures AfterFrames(AfterFrames(point, a), b) == AfterFrames(point, a + b)
  {
    if b != [] {
      assert (a + b)[|a + b| - 1] == b[|b| - 1];
    } else {
      assert a + b == a;
    }
  }

  /** Removing the marker layer and adding it again with an icon is the
      same as setting that icon, and setting it twice is setting it once. */
  lemma SymbolSwap(layers: map<string, Layer>, icon: TransportType)
    ensures (layers - {PointId})[PointId := Symbol(icon)] == layers[PointId := Symbol(icon)]
    ensures layers[PointId := Symbol(icon)][PointId := Symbol(icon)] == layers[PointId := Symbol(icon)]
  {
  }

  /** Regrouping the frame log, as a call: asserting it inline in Animate
      makes that proof much costlier. */
  lemma LogAppend(log: seq<PointFeature>, m: PointFeature, rest: seq<PointFeature>)
    ensures (log + [m]) + rest == log + ([m] + rest)
  {
  }

  /** The symbol layer after a run of features: that of the last feature
      whose first frame continued, if any. */
  function WithSymbol(layers: map<string, Layer>, icon: Option<TransportType>): map<string, Layer> {
    match icon
    case None => layers
    case Some(t) => layers[PointId := Symbol(t)]
  }

  // ---------------------------------------------------------------------
  // handleMapLoad, as a function of the route
  // ---------------------------------------------------------------------

  /** The frames of one feature, played from counter 0. */
  function FeatureFrames(geo: Geodesy, speedFactor: real, f: RouteFeature): seq<PointFeature>
    requires speedFactor > 0.0
  {
    Frames(geo, f.coordinates, Steps(geo, f.coordinates, speedFactor), 0)
  }

  /** The frames of the features in order, each played from counter 0. */
  function RouteFrames(geo: Geodesy, speedFactor: real, fs: seq<RouteFeature>): seq<PointFeature>
    requires speedFactor > 0.0
    decreases |fs|
  {
    if fs == [] then []
    else RouteFrames(geo, speedFactor, fs[..|fs| - 1]) + FeatureFrames(geo, speedFactor, fs[|fs| - 1])
  }

  /** The frame log of a route is that of any prefix followed by that of
      the rest: the features play strictly one after the other. */
  lemma {:induction false} RouteFramesAppend(geo: Geodesy, speedFactor: real, a: seq<RouteFeature>, b: seq<RouteFeature>)
    requires speedFactor > 0.0
    ensures RouteFrames(geo, speedFactor, a + b) == RouteFrames(geo, speedFactor, a) + RouteFrames(geo, speedFactor, b)
    decreases |b|
  {
    if b == [] {
      assert a + b == a;
    } else {
      var last := b[|b| - 1];
      assert (a + b)[..|a + b| - 1] == a + b[..|b| - 1];
      RouteFramesAppend(geo, speedFactor, a, b[..|b| - 1]);
      assert RouteFrames(geo, speedFactor, a + b)
          == (RouteFrames(geo, speedFactor, a) + RouteFrames(geo, speedFactor, b[..|b| - 1])) + FeatureFrames(geo, speedFactor, last);
    }
  }

  /** The icon of the last feature whose first frame continues. */
  function LastIcon(geo: Geodesy, speedFactor: real, fs: seq<RouteFeature>): (icon: Option<TransportType>)
    requires speedFactor > 0.0
    decreases |fs|
  {
    if fs == [] then None
    else
      var f := fs[|fs| - 1];
      if Continues(f.coordinates, Steps(geo, f.coordinates, speedFactor), 0) then Some(f.transportType)
      else LastIcon(geo, speedFactor, fs[..|fs| - 1])
  }

  /** Playing one more feature: its frames follow those of the features
      before it, the marker ends on the last frame overall, and the marker
      layer is that of the feature if its first frame continues. */
  lemma PlayStep(geo: Geodesy, speedFactor: real, fs: seq<RouteFeature>, i: nat,
                 log: seq<PointFeature>, point: seq<PointFeature>, layers: map<string, Layer>)
    requires speedFactor > 0.0 && i < |fs|
    ensures var before := RouteFrames(geo, speedFactor, fs[..i]);
      var now := FeatureFrames(geo, speedFactor, fs[i]);
      && RouteFrames(geo, speedFactor, fs[..i + 1]) == before + now
      && log + before + now == log + RouteFrames(geo, speedFactor, fs[..i + 1])
      && AfterFrames(AfterFrames(point, before), now) == AfterFrames(point, RouteFrames(geo, speedFactor, fs[..i + 1]))
    ensures var f := fs[i];
      var steps := Steps(geo, f.coordinates, speedFactor);
      var icons := WithSymbol(layers, LastIcon(geo, speedFactor, fs[..i]));
      WithSymbol(layers, LastIcon(geo, speedFactor, fs[..i + 1]))
        == if Continues(f.coordinates, steps, 0) then icons[PointId := Symbol(f.transportType)] else icons
  {
    assert fs[..i + 1][..i] == fs[..i];
    var before := RouteFrames(geo, speedFactor, fs[..i]);
    var now := FeatureFrames(geo, speedFactor, fs[i]);
    AfterFramesAppend(point, before, now);
    assert log + before + now == log + (before + now);
  }

  // ---------------------------------------------------------------------
  // The service
  // ---------------------------------------------------------------------

  class MapService {
    const geo: Geodesy
    var speedFactor: real
    var route: seq<RouteFeature>
    var point: seq<PointFeature>
    var renderer: Renderer

    /** The speed factor is positive (the densifying loop would not end
        otherwise), and there is a marker whenever there is a route. */
    ghost predicate Valid()
      reads this
    {
      speedFactor > 0.0 && (|route| > 0 ==> |point| > 0)
    }

    /** A service on a new map: the given speed factor or 0.05, no features. */
    constructor (geo: Geodesy, speedFactor: Option<real>)
      requires speedFactor.Some? ==> speedFactor.value > 0.0
      ensures Valid()
      ensures this.geo == geo
      ensures this.speedFactor == if speedFactor.Some? then speedFactor.value else DefaultSpeedFactor
      ensures route == [] && point == [] && renderer == Renderer({}, map[], [])
    {
      this.geo := geo;
      this.speedFactor := if speedFactor.Some? then speedFactor.value else DefaultSpeedFactor;
      route := [];
      point := [];
      renderer := Renderer({}, map[], []);
    }

    /** preprocess: push a feature per leg and one marker at the first
        leg's origin, then densify every feature of the route. An empty
        array throws at `transportArray[0]`, before anything changes. */
    method Preprocess(transportArray: seq<Transport>) returns (thrown: bool)
      requires Valid()
      modifies this
      ensures Valid()
      ensures thrown <==> transportArray == []
      ensures thrown ==> route == old(route) && point == old(point)
      ensures !thrown ==> route == PreprocessRoute(geo, speedFactor, old(route), transportArray)
      ensures !thrown ==> point == PreprocessPoint(old(point), transportArray)
      ensures speedFactor == old(speedFactor) && renderer == old(renderer)
    {
      if transportArray == [] {
        return true;
      }
      thrown := false;
      var origin := transportArray[0].origin;
      var t := 0;
      while t < |transportArray|
        invariant 0 <= t <= |transportArray|
        invariant route == old(route) + Features(transportArray)[..t]
        invariant speedFactor == old(speedFactor) && renderer == old(renderer) && point == old(point)
      {
        route := route + [FeatureOf(transportArray[t])];
        assert Features(transportArray)[..t + 1] == Features(transportArray)[..t] + [FeatureOf(transportArray[t])];
        t := t + 1;
      }
      assert Features(transportArray)[..t] == Features(transportArray);
      point := point + [PointFeature(origin, None)];
      Densify();
    }

    /** The second half of preprocess: every feature of the route, old and
        new, has its line replaced by the samples SampleArc takes of it. */
    method Densify()
      requires Valid()
      modifies this
      ensures Valid()
      ensures route == Densified(geo, old(route), speedFactor)
      ensures point == old(point) && speedFactor == old(speedFactor) && renderer == old(renderer)
    {
      ghost var densified := Densified(geo, route, speedFactor);
      var j := 0;
      while j < |route|
        invariant 0 <= j <= |route| == |old(route)| == |densified|
        invariant point == old(point) && speedFactor == old(speedFactor) && renderer == old(renderer)
        invariant forall k :: 0 <= k < j ==> route[k] == densified[k]
        invariant forall k :: j <= k < |route| ==> route[k] == old(route)[k]
      {
        var arc := SampleArc(geo, route[j].coordinates, speedFactor);
        route := route[j := route[j].(coordinates := arc)];
        j := j + 1;
      }
      assert route == densified;
    }

    /** clearSourceRoute: remove the route source if it is there. */
    method ClearSourceRoute()
      modifies this
      ensures renderer == old(renderer).(sources := old(renderer.sources) - {RouteId})
      ensures route == old(route) && point == old(point) && speedFactor == old(speedFactor)
    {
      if RouteId in renderer.sources {
        renderer := RemoveSource(renderer, RouteId);
      }
    }

    /** clearSourcePoint: remove the marker source if it is there. */
    method ClearSourcePoint()
      modifies this
      ensures renderer == old(renderer).(sources := old(renderer.sources) - {PointId})
      ensures route == old(route) && point == old(point) && speedFactor == old(speedFactor)
    {
      if PointId in renderer.sources {
        renderer := RemoveSource(renderer, PointId);
      }
    }

    /** clearLayerLine: remove the route layer if it is there. */
    method ClearLayerLine()
      modifies this
      ensures renderer == old(renderer).(layers := old(renderer.layers) - {RouteId})
      ensures route == old(route) && point == old(point) && speedFactor == old(speedFactor)
    {
      if RouteId in renderer.layers {
        renderer := RemoveLayer(renderer, RouteId);
      }
    }

    /** clearLayerSymbol: remove the marker layer if it is there. */
    method ClearLayerSymbol()
      modifies this
      ensures renderer == old(renderer).(layers := old(renderer.layers) - {PointId})
      ensures route == old(route) && point == old(point) && speedFactor == old(speedFactor)
    {
      if PointId in renderer.layers {
        renderer := RemoveLayer(renderer, PointId);
      }
    }

    /** addSourceRoute: the route source; the id must be free. */
    method AddSourceRoute()
      requires RouteId !in renderer.sources
      modifies this
      ensures renderer == AddSource(old(renderer), RouteId)
      ensures route == old(route) && point == old(point) && speedFactor == old(speedFactor)
    {
      renderer := AddSource(renderer, RouteId);
    }

    /** addSourcePoint: the marker source; the id must be free. */
    method AddSourcePoint()
      requires PointId !in renderer.sources
      modifies this
      ensures renderer == AddSource(old(renderer), PointId)
      ensures route == old(route) && point == old(point) && speedFactor == old(speedFactor)
    {
      renderer := AddSource(renderer, PointId);
    }

    /** addLayerLine: the route layer. */
    method AddLayerLine()
      modifies this
      ensures renderer == AddLayer(old(renderer), RouteId, Line)
      ensures route == old(route) && point == old(point) && speedFactor == old(speedFactor)
    {
      renderer := AddLayer(renderer, RouteId, Line);
    }

    /** addLayerSymbol: the marker layer, drawn with the leg's icon. */
    method AddLayerSymbol(icon: TransportType)
      modifies this
      ensures renderer == AddLayer(old(renderer), PointId, Symbol(icon))
      ensures route == old(route) && point == old(point) && speedFactor == old(speedFactor)
    {
      renderer := AddLayer(renderer, PointId, Symbol(icon));
    }

    /** clearAll: remove both layers, then both sources, each only if it is
        there, and empty both feature collections. */
    method ClearAll()
      requires Valid()
      modifies this
      ensures Valid()
      ensures route == [] && point == []
      ensures renderer == Cleared(old(renderer))
      ensures speedFactor == old(speedFactor)
    {
      ClearLayerLine();
      ClearLayerSymbol();
      ClearSourcePoint();
      ClearSourceRoute();
      route := [];
      point := [];
    }

    /** animate for feature `index` from frame `counter`: a drawn frame
        moves the marker and sends it to the marker source; a frame before
        `steps` also re-creates the marker layer with the leg's icon and
        goes on with the next frame. */
    method Animate(index: nat, counter: nat)
      requires Valid() && index < |route| && PointId in renderer.sources
      modifies this
      ensures Valid()
      ensures route == old(route) && speedFactor == old(speedFactor) && renderer.sources == old(renderer.sources)
      ensures var coords := route[index].coordinates;
        var steps := Steps(geo, coords, speedFactor);
        var frames := Frames(geo, coords, steps, counter);
        && renderer.frames == old(renderer.frames) + frames
        && point == AfterFrames(old(point), frames)
        && renderer.layers
          == if Continues(coords, steps, counter) then old(renderer.layers)[PointId := Symbol(route[index].transportType)]
             else old(renderer.layers)
      decreases |route[index].coordinates| - counter
    {
      var coords := route[index].coordinates;
      var lineDistance := geo.length(coords);
      var steps := lineDistance / speedFactor;
      var start, end := StartIndex(steps, counter), EndIndex(steps, counter);
      assert steps == Steps(geo, coords, speedFactor);
      FramesCons(geo, coords, steps, counter);
      if !(0 <= start < |coords| && 0 <= end < |coords|) {
        return;
      }
      var marker := PointFeature(coords[counter], Some(geo.bearing(coords[start], coords[end])));
      assert marker == Marker(geo, coords, steps, counter);
      point := point[0 := marker];
      renderer := renderer.(frames := renderer.frames + [marker]);
      if counter as real < steps {
        ghost var layers := renderer.layers;
        ghost var log := renderer.frames;
        ClearLayerSymbol();
        AddLayerSymbol(route[index].transportType);
        SymbolSwap(layers, route[index].transportType);
        Animate(index, counter + 1);
        AfterFramesAppend(old(point), [marker], Frames(geo, coords, steps, counter + 1));
        LogAppend(old(renderer.frames), marker, Frames(geo, coords, steps, counter + 1));
      }
    }

    /** handleMapLoad: add the route and marker sources and the route
        layer, then animate every feature in order, each from frame 0. */
    method HandleMapLoad()
      requires Valid() && RouteId !in renderer.sources && PointId !in renderer.sources
      modifies this
      ensures Valid()
      ensures route == old(route) && speedFactor == old(speedFactor)
      ensures renderer.sources == old(renderer.sources) + {RouteId, PointId}
      ensures renderer.frames == old(renderer.frames) + RouteFrames(geo, speedFactor, route)
      ensures point == AfterFrames(old(point), RouteFrames(geo, speedFactor, route))
      ensures renderer.layers
        == WithSymbol(AddLayer(old(renderer), RouteId, Line).layers, LastIcon(geo, speedFactor, route))
    {
      AddSourceRoute();
      AddSourcePoint();
      AddLayerLine();
      ghost var lined := renderer.layers;
      ghost var log := renderer.frames;
      var i := 0;
      while i < |route|
        invariant 0 <= i <= |route|
        invariant Valid() && route == old(route) && speedFactor == old(speedFactor)
        invariant renderer.sources == old(renderer.sources) + {RouteId, PointId}
        invariant renderer.frames == log + RouteFrames(geo, speedFactor, route[..i])
        invariant point == AfterFrames(old(point), RouteFrames(geo, speedFactor, route[..i]))
        invariant renderer.layers == WithSymbol(lined, LastIcon(geo, speedFactor, route[..i]))
      {
        PlayStep(geo, speedFactor, route, i, log, old(point), lined);
        Animate(i, 0);
        i := i + 1;
      }
      assert route[..i] == route;
    }
  }
}
