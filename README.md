# travel_map_box core, modelled in Dafny

travel_map_box shows a travel itinerary on a Mapbox map. It has three parts:

- **Ingestion** (`src/utils/dataReadService.ts`). This part reads the bundled
  itinerary. For every day record it turns the places after the first into
  locations and transport legs:
  - A "lat,lng" string becomes a `[lng, lat]` position.
  - A transport place becomes the legs of a route-matching reply. These are
    Car legs along the matched road. If the reply has no match, a Flight leg
    stands in.
  - A place that is missing a field throws.
- **Helpers** (`src/utils/helpers.ts`). These label the day selector with one
  "DD Mon" text per day, counting from the ticketing date.
- **Route animation** (`src/utils/mapService.ts`). `MapService` keeps the route
  features and the marker feature of one day:
  - `preprocess` adds one line per leg and one marker, then densifies every
    line into samples spaced one speed factor apart.
  - `handleMapLoad` adds the sources and the route layer. It then plays each
    line in order, frame by frame. Each frame moves the marker to the next
    sample, turns it to face along the line and sends it to the marker source.
  - `clearAll` removes all of this.

The model has four modules, one per source file plus the shared records:

- `Interfaces` (`interfaces.dfy`): the records of `src/utils/interfaces.ts`,
  plus `Option` for `undefined` and `Result` for code that throws.
- `Helpers` (`helpers.dfy`): number and month formatting, the date labels,
  and how `DayCell` splits a label back into day and month.
- `DataReadService` (`data_read_service.dfy`): splitting and converting
  coordinates, route segments from a matching reply, and the day array.
  Each loop of the source is a method. The method is proved equal to a
  recursive specification function. The function is then characterised by
  lemmas against independent reference definitions: the concatenated legs,
  the locations in order, and the first ill-formed place.
- `MapEngine` (`map_service.dfy`): `MapService` is a class with the fields
  `route`, `point`, `speedFactor` and `renderer`. The renderer is a value: the
  set of source ids, the layers by id, and the log of marker frames sent to
  the marker source. Each method states its new state as a function of the
  old one, and lemmas state what those functions mean.

Three things the code calls out to are parameters:

- The geodesic library: `Geodesy`, with length, along and bearing.
- JavaScript's `Number()` and the route-matching request: `Backend`.
- Calendar arithmetic: `addDays`.

## Model

| member | source | states |
|---|---|---|
| Helpers.NatToStringDigits | src/utils/helpers.ts:18 | The text a template literal prints for a natural number below 10^21 is non-empty and all decimal digits. It has one digit exactly when the number is below 10, and two exactly for 10..99. |
| Helpers.NatToStringRoundTrip | src/utils/helpers.ts:18 | Reading the printed digits back as a decimal number gives the number, for the numbers below 10^21 that a template literal prints in decimal. |
| Helpers.AddLeadingZeroTwoDigits | src/utils/helpers.ts:17-19 | For every number 0..99, which covers every day of a month, the padded text is exactly two digits whose decimal value is the number. |
| Helpers.MonthAbbreviation | src/utils/helpers.ts:21-37 | The result is defined exactly for months 0..11. It is then the three-letter entry of the table; any other month gives `undefined`. |
| Helpers.MonthAbbreviationInjective | src/utils/helpers.ts:22-35 | Two months with the same abbreviation are the same month. |
| Helpers.FormatDateArray | src/utils/helpers.ts:1-15 | There are `l` labels when `l > 0` and none otherwise. Label `i` is the padded day, a space and the month abbreviation of the date `i` days after the start date; an invalid date gives "NaN undefined". With no start date at all, every label is "NaN undefined". |
| Helpers.LabelRoundTrip | src/components/DayCell/DayCell.tsx:24-25 | For a valid date the label is 6 characters with a space at index 2. `slice(0, 2)` gives back two digits whose value is the day, and `slice(3)` gives exactly the month's abbreviation. |
| DataReadService.Split | src/utils/dataReadService.ts:8 | Splitting always gives at least one piece. |
| DataReadService.SplitCount | src/utils/dataReadService.ts:8 | There is one more piece than there are separators. |
| DataReadService.SplitPieces | src/utils/dataReadService.ts:8 | No piece contains the separator. |
| DataReadService.SplitJoin | src/utils/dataReadService.ts:8 | Joining separator-free pieces and splitting again gives the same pieces. |
| DataReadService.JoinSplit | src/utils/dataReadService.ts:8 | Splitting and joining again gives the original string. |
| DataReadService.MapNumbersAt | src/utils/dataReadService.ts:8 | `map(Number)` keeps the length, and element `i` is `Number` of piece `i`. |
| DataReadService.ReverseAt | src/utils/dataReadService.ts:8 | `reverse` keeps the length, and element `i` is element `n - 1 - i` of the input. |
| DataReadService.ConvertStringToPositionAt | src/utils/dataReadService.ts:7-9 | The position has one number per comma-separated field, so one more than there are commas. Element `i` is the number of the field counted from the end. |
| DataReadService.ConvertLatLng | src/utils/dataReadService.ts:7-9 | For comma-free `lat` and `lng`, "lat,lng" becomes `[Number(lng), Number(lat)]`. |
| DataReadService.LinksAt | src/utils/dataReadService.ts:42-54 | For matched coordinate `k` the loop pushes one Car leg. The leg goes to coordinate `k + 1`, or to the destination after the last coordinate. |
| DataReadService.CarChainAt | src/utils/dataReadService.ts:32-56 | A matching of `n >= 1` coordinates gives `n + 1` legs. The first goes from the origin to the first coordinate (pushed at `i = 0`). Leg `k` goes from coordinate `k - 1` to coordinate `k`, or to the destination. |
| DataReadService.FlightFallback | src/utils/dataReadService.ts:29-62 | The result is the single Flight leg between the requested endpoints exactly when the request is not an Ok reply whose first matching has coordinates. That covers a throw, NoMatch, any other code, Ok without `matchings[0]`, and Ok with a `matchings[0]` lacking `geometry.coordinates`. An Ok reply with coordinates gives only Car legs. |
| DataReadService.OkChain | src/utils/dataReadService.ts:31-56 | An Ok reply with `n >= 1` matched coordinates gives `n + 1` Car legs. They form an unbroken chain from the origin through the coordinates, in order, to the destination. |
| DataReadService.OkEmptyMatching | src/utils/dataReadService.ts:31-56 | An Ok reply whose matched coordinate list is empty gives no leg at all. |
| DataReadService.GetRouteSegments | src/utils/dataReadService.ts:29-62 | The branches and the push loop compute exactly `RouteSegments` of the reply. |
| DataReadService.PlaceStepOk | src/utils/dataReadService.ts:76-108 | An accepted place adds its legs if it is a transport place, or its one location otherwise. The other list and the index stay unchanged. |
| DataReadService.PlacesWellFormed | src/utils/dataReadService.ts:74-109 | When every place is well formed, the inner loop appends two things and keeps the index. It appends the concatenated legs of the transport places and the locations of the other places, each in order. |
| DataReadService.PlacesIllFormed | src/utils/dataReadService.ts:74-109 | Otherwise the inner loop throws the message that belongs to the first place missing a field. |
| DataReadService.DayFromMeaning | src/utils/dataReadService.ts:68-109 | A record whose visited places are all well formed yields its reference day. Any other record yields the error of its first ill-formed place. |
| DataReadService.DaysFromWellFormed | src/utils/dataReadService.ts:65-113 | When every record is well formed, the outer loop appends one reference day per record, in order. |
| DataReadService.DaysFromIllFormed | src/utils/dataReadService.ts:65-113 | Otherwise the outer loop throws the error of the first ill-formed record. |
| DataReadService.DayArrayMeaning | src/utils/dataReadService.ts:65-113 | The call succeeds exactly when every record is well formed. Day `j` then has the record's `days` as index, the concatenated legs of its transport places and the locations of its other places. Otherwise the call throws the first error. |
| DataReadService.FirstPlaceIgnored | src/utils/dataReadService.ts:74 | `place[0]` of a record is never read: replacing it does not change the day. |
| DataReadService.ReadPlace | src/utils/dataReadService.ts:75-108 | One iteration of the inner loop, including the push loop over the segments, is exactly `PlaceStep`. |
| DataReadService.ReadDay | src/utils/dataReadService.ts:68-110 | The inner loop from `i = 1` builds exactly `DayFrom` of the record, stopping at the first throw. |
| DataReadService.GetDayArray | src/utils/dataReadService.ts:65-113 | The outer loop builds exactly `DayArray` of the data, stopping at the first throw. |
| DataReadService.GetDateNameArray | src/utils/dataReadService.ts:115-120 | The call throws exactly when there is no first record (reading `place`) or that record has no places (reading `meta_data`), with the TypeError naming that property. Otherwise it gives one label per record, counted from the first place's ticketing date. When that date is missing, every label is "NaN undefined". |
| MapEngine.ClearedIdempotent | src/utils/mapService.ts:179-192 | Clearing twice is clearing once. A cleared renderer holds neither the route nor the marker source or layer, and it keeps every other source. |
| MapEngine.SampleCountMeaning | src/utils/mapService.ts:102 | Sample `k` is taken exactly when its offset `k * speedFactor` is below the line length. |
| MapEngine.OffsetsSpacing | src/utils/mapService.ts:102 | The offsets start at 0, grow by exactly the speed factor and are strictly increasing. |
| MapEngine.OffsetsRange | src/utils/mapService.ts:102 | Every offset is below the line length, and the offsets stop at the first one that would not be. A line of no length gives no offsets. |
| MapEngine.ArcSamples | src/utils/mapService.ts:101-108 | Sample `k` of a densified line is the point at distance `k * speedFactor` along it. A line of no length gives no samples. |
| MapEngine.StepIsSpeedFactor | src/utils/mapService.ts:100-102 | For a line of positive length, the increment `lineDistance / steps` is exactly the speed factor. |
| MapEngine.SampleArc | src/utils/mapService.ts:99-109 | The sampling loop computes exactly `Arc` of the line. |
| MapEngine.PreprocessRouteMeaning | src/utils/mapService.ts:75-111 | preprocess appends one feature per leg, in order. Each has the leg's transport type and the samples of the line from the leg's origin to its destination. The features already there keep their type and are sampled again. |
| MapEngine.PreprocessTwice | src/utils/mapService.ts:75-111 | Two calls without clearAll keep every old feature and add one feature per leg of each call. They also add two markers, and the first marker is the earlier one. |
| MapEngine.MarkerMeaning | src/utils/mapService.ts:47-63 | Frame `counter` puts the marker on sample `counter`. Before `steps`, its bearing is towards the next sample; from `steps` on, it is from the previous sample. |
| MapEngine.FrameAt | src/utils/mapService.ts:44-73 | The frames played from `counter` are those of consecutive counters. Frame `k` is drawn and is the marker of frame `counter + k`. |
| MapEngine.FrameContinues | src/utils/mapService.ts:65-72 | Every frame but the last continues to the next one. |
| MapEngine.FrameLast | src/utils/mapService.ts:52-54 | After the last frame the animation stops: either `steps` was reached, or the next frame would lack a sample. |
| MapEngine.FramesBound | src/utils/mapService.ts:44-73 | A line never yields more frames than it has samples from `counter` on, so the recursion ends. |
| MapEngine.NoFrameWithoutSamples | src/utils/mapService.ts:45-54 | A line of no length draws no frame at all. |
| MapEngine.AfterFrames | src/utils/mapService.ts:55-63 | Frames change only the first marker feature; the number of features and all the others stay as they were. |
| MapEngine.SymbolSwap | src/utils/mapService.ts:68-69 | Removing the marker layer and adding it again with an icon is the same as setting that icon. |
| MapEngine.RouteFramesAppend | src/utils/mapService.ts:198-200 | The features play strictly one after another: the frames of a route are those of any prefix followed by those of the rest. |
| MapEngine.MapService.constructor | src/utils/mapService.ts:17-34 | A new service has the given speed factor, or 0.05 when none is given. It has no features and an empty renderer. |
| MapEngine.MapService.Preprocess | src/utils/mapService.ts:75-111 | An empty array throws and changes nothing. Otherwise the route becomes `PreprocessRoute` of the old route and the marker list gains one marker at the first leg's origin; the renderer is unchanged. |
| MapEngine.MapService.Densify | src/utils/mapService.ts:98-110 | Every feature of the route has its line replaced by the samples `SampleArc` takes, and nothing else changes. |
| MapEngine.MapService.AddSourceRoute | src/utils/mapService.ts:113-118 | Adds the route source, which must not exist yet. |
| MapEngine.MapService.ClearSourceRoute | src/utils/mapService.ts:120-124 | Afterwards the route source is gone, whether or not it was there; nothing else changes. |
| MapEngine.MapService.AddSourcePoint | src/utils/mapService.ts:126-131 | Adds the marker source, which must not exist yet. |
| MapEngine.MapService.ClearSourcePoint | src/utils/mapService.ts:133-137 | Afterwards the marker source is gone; nothing else changes. |
| MapEngine.MapService.AddLayerLine | src/utils/mapService.ts:139-149 | Adds the route layer. |
| MapEngine.MapService.ClearLayerLine | src/utils/mapService.ts:151-155 | Afterwards the route layer is gone; nothing else changes. |
| MapEngine.MapService.AddLayerSymbol | src/utils/mapService.ts:157-171 | Adds the marker layer with the leg's icon. |
| MapEngine.MapService.ClearLayerSymbol | src/utils/mapService.ts:173-177 | Afterwards the marker layer is gone; nothing else changes. |
| MapEngine.MapService.ClearAll | src/utils/mapService.ts:179-192 | The renderer becomes `Cleared` of the old one, both feature lists become empty and the speed factor is kept. |
| MapEngine.MapService.Animate | src/utils/mapService.ts:44-73 | The frame log gains exactly the frames of the line from `counter` on, and the first marker ends on the last of them. The marker layer shows the leg's icon exactly when the first frame continues. Nothing else changes. |
| MapEngine.MapService.HandleMapLoad | src/utils/mapService.ts:194-201 | Both sources and the route layer are added. The frame log gains the frames of every feature in order, and the first marker ends on the last frame. The marker layer shows the icon of the last leg that moved. |

## Left out

- The geodesic maths of turf (length, along, bearing) is abstract: `Geodesy` is a parameter.
- Floating-point rounding is not modelled. The sampling uses exact reals, so the increment `lineDistance / steps` equals the speed factor exactly. In floating point the number of samples of a line can differ by one.
- Mapbox details are not modelled. This covers the GeoJSON payloads, the paint and layout properties, `setCenter`, `requestAnimationFrame` and the asynchronous scheduling. The awaited calls run strictly one after another, so they are modelled as sequential calls.
- The frame log records the first marker feature, which is the only one `animate` changes. The source sends the whole marker collection each time.
- Removing a source that a layer still uses is not modelled. Mapbox reports an error and keeps the source. `clearAll` removes both layers before the sources, so the case does not arise here.
- Mapbox's own bookkeeping is taken as given, not derived: the renderer is a set of source ids, a map of layers and a log of marker frames. `AddSource`, `RemoveSource`, `AddLayer` and `RemoveLayer` state that bookkeeping (an existing layer id is left as it was).
- `animate` sets the bearing only when the marker has properties. `preprocess` always creates them, so the model always sets the bearing.
- The HTTP request is abstract (`src/utils/axiosService.ts` is not part of this model). This covers the URL, the query parameters and the access token. The reply is a parameter that depends only on the origin and destination.
- `Number()` is the parameter `toNumber`, which returns a real. `Number()` of a non-numeric field is NaN, which the model cannot express. The data-reading code only passes positions along, and the map code hands them to the abstract `Geodesy` functions, so no contract depends on a coordinate's value.
- The bundled `sampleResponse.json` is the parameter `data`.
- Date parsing and `setDate` on a present date string are abstract: `addDays` gives the calendar date `i` days after it, or an invalid date. A missing date string is modelled exactly: `new Date(undefined)` is invalid, and so is every date moved from it.
- `waitSeconds` (a timer) is not modelled.
- The React components (`App`, `Home`, `DaySelector` and the rest of `DayCell`) are not modelled. `Home.tsx` calls a `reset()` that `MapService` does not define; `ClearAll` is the model's reset.
- `src/utils/enum.ts` is not part of this model. `TransportType` is modelled as the two values the code uses, Car and Flight.
- Helpers.AddLeadingZero: models integer input only, printed in decimal. JavaScript prints numbers from 10^21 up in exponent form (`1e+21`), which the model does not; `getDate()` returns an integer from 1 to 31, and an invalid date is modelled by `Label` as "NaN undefined".
- MapEngine.MapService.constructor: requires a positive speed factor. The source also accepts 0 or a negative number, with which the sampling loop of `preprocess` never ends.
- MapEngine.MapService.Animate: requires the marker source to exist and a marker feature to be there. Without them the source throws, at `setData` and at `point.features[0]`; its only caller, `handleMapLoad`, provides both.
- MapEngine.MapService.HandleMapLoad: requires the route and marker source ids to be free. Mapbox's `addSource` throws for an id that is already in use.
