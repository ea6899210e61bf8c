/** The values a log call is turned into: a point with a measurement, a tag
    map and a field map, and the field map that the message, the caller and
    the stack trace of a log call give. */
module LogPoint {

  newtype byte = x: int | 0 <= x < 256

  datatype Option<T> = None | Some(value: T)

  /** The logging facade's severity level (an ordered enumeration). */
  type Level = int

  /** The wall-clock instant a point is stamped with. */
  type Time = int

  /** A value stored in a point's field map. `V` stands for an arbitrary value
      handed in by the caller (Go's `interface{}`). */
  datatype FieldValue<V> =
    | Str(s: string)          // a Go string
    | Raw(v: V)               // a caller value stored as it is
    | Bytes(b: seq<byte>)     // a Go byte slice (the JSON blob)

  /** The point handed to the time-series client. */
  datatype Point<V> = Point(
    measurement: string,
    tags: map<string, string>,
    fields: map<string, FieldValue<V>>,
    time: Time)

  const Measurement: string := "logs"
  const StackSeparator: string := "\r\n"
  const MissingValue: string := "!VALUE"

  /** Go's strings.Join. */
  function Join(elems: seq<string>, sep: string): string
  {
    if |elems| == 0 then ""
    else if |elems| == 1 then elems[0]
    else elems[0] + sep + Join(elems[1..], sep)
  }

  /** A point of the "logs" measurement whose tags are exactly
      app, scope and level, bound to the given strings. */
  predicate Tagged<V>(p: Point<V>, app: string, scope: string, levelText: string)
  {
    && p.measurement == Measurement
    && p.tags.Keys == {"app", "scope", "level"}
    && p.tags["app"] == app
    && p.tags["scope"] == scope
    && p.tags["level"] == levelText
  }

  /** The field names a log call with this caller and stack sets before any
      key/value pairs are merged in. */
  ghost function BaseKeys(caller: string, stack: seq<string>): set<string>
  {
    {"message"}
    + (if caller != "" then {"caller"} else {})
    + (if |stack| > 0 then {"stack"} else {})
  }

  /** The field map a log call assembles from its message, caller and stack:
      message always, caller only when non-empty, stack only when there are
      frames, joined by CRLF; nothing else. */
  function BaseFields<V>(message: string, caller: string, stack: seq<string>): (r: map<string, FieldValue<V>>)
    ensures r.Keys == BaseKeys(caller, stack)
    ensures r["message"] == Str(message)
    ensures "caller" in r <==> caller != ""
    ensures caller != "" ==> r["caller"] == Str(caller)
    ensures "stack" in r <==> |stack| > 0
    ensures |stack| > 0 ==> r["stack"] == Str(Join(stack, StackSeparator))
  {
    var withMessage := map["message" := Str(message)];
    var withCaller := if caller != "" then withMessage["caller" := Str(caller)] else withMessage;
    if |stack| > 0 then withCaller["stack" := Str(Join(stack, StackSeparator))] else withCaller
  }
}
