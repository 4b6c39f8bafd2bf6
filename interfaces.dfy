/** Records shared by the ingestion layer and the map service
    (src/utils/interfaces.ts), plus the option and result wrappers used
    for JavaScript's `undefined` and for thrown errors. */
module Interfaces {

  /** A coordinate as the ingestion layer produces it: the numbers of a
      comma-separated string, in reversed order (`[lng, lat]` for "lat,lng").
      The source types it as a plain number array, so its length is not fixed. */
  type Position = seq<real>

  /** The marker icon chosen for a leg. */
  datatype TransportType = Car | Flight

  /** ITransport: one leg of a day, from `origin` to `destination`. */
  datatype Transport = Transport(origin: Position, destination: Position, transportType: TransportType)

  /** ILocation: a visited place that is not a transport leg. */
  datatype Location = Location(locationType: string, coordinate: Position)

  /** IDay: the places and legs of one itinerary day. */
  datatype Day = Day(index: int, locationArray: seq<Location>, transportArray: seq<Transport>)

  /** A value that may be `undefined`. */
  datatype Option<T> = None | Some(value: T)

  /** The outcome of code that may throw: the value, or the thrown message. */
  datatype Result<T> = Ok(value: T) | Err(message: string)
}
