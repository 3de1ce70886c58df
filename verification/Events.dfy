/** Scalars, readings and events of include/gateway/model.hpp. D is what stands for a double. */
module Events {
  type Byte = n: int | 0 <= n < 256

  datatype Quality = Good | Timeout | Disconnected | DecodeError | OutOfRange | Bad

  datatype Scalar<D> = Integer(n: int) | Double(x: D) | Boolean(b: bool) | Text(s: string) | Bytes(bytes: seq<Byte>)

  datatype Reading<D> = Reading(
    point: string, value: Scalar<D>, quality: Quality, unit: string, sourceTime: int, receivedTime: int, derived: bool)

  datatype Event<D> = Event(
    eventId: string, deviceId: string, source: string, readings: seq<Reading<D>>, modelVersion: string)
}
