/** Value types shared by the event aggregate and the map card. */
module Common {

  /** A value that may be absent (JavaScript's `undefined`). */
  datatype Option<+T> = None | Some(value: T)

  /** A sensor data-type key such as "Altitude" or "Number of Satellites". */
  type DataType = string

  /** A geographic position in degrees. */
  datatype Position = Position(latitudeDegrees: real, longitudeDegrees: real)

  /** The kinds of lap a recording may carry; only AutoLap and Manual are filtered on. */
  datatype LapType = AutoLap | Manual | OtherLap(name: string)

  /** A lap: its kind and its time interval (milliseconds since the epoch). */
  datatype Lap = Lap(kind: LapType, startDate: int, endDate: int)
}
