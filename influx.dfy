/** The InfluxDB log writer: each logging entry point turns a log call into a
    point of the "logs" measurement. The builders return the point that the
    writer hands to the client's asynchronous write API. */
module Influx {
  import opened LogPoint
  import opened KeyValues

  /** The library calls the writer makes, whose bodies are not part of this
      model. */
  datatype Library<!V> = Library(
    sprint: seq<V> -> string,                                // fmt.Sprint(message...)
    sprintf: (string, seq<V>) -> string,                     // fmt.Sprintf(format, args...)
    render: V -> string,                                     // fmt.Sprintf("%v", v)
    levelText: Level -> string,                              // logger.LevelText
    marshal: map<string, FieldValue<V>> -> Option<seq<byte>> // json.Marshal; None on error
  )

  /** What json.Marshal's first result holds: the encoding, or a nil slice
      when encoding failed. */
  function Encoded(r: Option<seq<byte>>): seq<byte>
  {
    match r
    case Some(data) => data
    case None => []
  }

  class Influx {
    const app: string

    constructor (app: string)
      ensures this.app == app
    {
      this.app := app;
    }

    /** A log call whose message is the variadic parts rendered by Sprint. */
    method Print<V>(lib: Library<V>, l: Level, s: string, caller: string, stack: seq<string>,
                    message: seq<V>, now: Time) returns (p: Point<V>)
      ensures Tagged(p, app, s, lib.levelText(l))
      ensures p.fields == BaseFields(lib.sprint(message), caller, stack)
      ensures p.time == now
    {
      var fields: map<string, FieldValue<V>> := map[];
      fields := fields["message" := Str(lib.sprint(message))];
      if caller != "" {
        fields := fields["caller" := Str(caller)];
      }
      if |stack| > 0 {
        fields := fields["stack" := Str(Join(stack, StackSeparator))];
      }
      p := Point(Measurement, map["app" := app, "scope" := s, "level" := lib.levelText(l)], fields, now);
    }

    /** A log call with a message and key/value pairs: the merged field map
        is stored JSON-encoded as the single field "values"; an encoding
        error is ignored. */
    method Printv<V>(lib: Library<V>, l: Level, s: string, caller: string, stack: seq<string>,
                     message: string, keysValues: seq<V>, now: Time) returns (p: Point<V>)
      ensures Tagged(p, app, s, lib.levelText(l))
      ensures p.fields.Keys == {"values"}
      ensures p.fields["values"]
           == Bytes(Encoded(lib.marshal(Merge(BaseFields(message, caller, stack), keysValues, lib.render))))
      ensures p.time == now
    {
      var fields: map<string, FieldValue<V>> := map[];
      fields := fields["message" := Str(message)];
      if caller != "" {
        fields := fields["caller" := Str(caller)];
      }
      if |stack| > 0 {
        fields := fields["stack" := Str(Join(stack, StackSeparator))];
      }
      fields := AddKeyValues(fields, keysValues, lib.render);
      var jsonString := Encoded(lib.marshal(fields));
      p := Point(Measurement, map["app" := app, "scope" := s, "level" := lib.levelText(l)],
                 map["values" := Bytes(jsonString)], now);
    }

    /** A log call with a pre-rendered message. */
    method Prints<V>(lib: Library<V>, l: Level, s: string, caller: string, stack: seq<string>,
                     message: string, now: Time) returns (p: Point<V>)
      ensures Tagged(p, app, s, lib.levelText(l))
      ensures p.fields == BaseFields(message, caller, stack)
      ensures p.time == now
    {
      var fields: map<string, FieldValue<V>> := map[];
      fields := fields["message" := Str(message)];
      if caller != "" {
        fields := fields["caller" := Str(caller)];
      }
      if |stack| > 0 {
        fields := fields["stack" := Str(Join(stack, StackSeparator))];
      }
      p := Point(Measurement, map["app" := app, "scope" := s, "level" := lib.levelText(l)], fields, now);
    }

    /** A log call with a format string: the point Prints builds for the
        formatted message. */
    method Printf<V>(lib: Library<V>, l: Level, s: string, caller: string, stack: seq<string>,
                     format: string, args: seq<V>, now: Time) returns (p: Point<V>)
      ensures Tagged(p, app, s, lib.levelText(l))
      ensures p.fields == BaseFields(lib.sprintf(format, args), caller, stack)
      ensures p.time == now
    {
      p := Prints(lib, l, s, caller, stack, lib.sprintf(format, args), now);
    }

    /** Merges the alternating key/value sequence into `fields`, two
        elements at a time. */
    method AddKeyValues<V>(fields: map<string, FieldValue<V>>, keysValues: seq<V>, render: V -> string)
      returns (r: map<string, FieldValue<V>>)
      ensures r == Merge(fields, keysValues, render)
      ensures |keysValues| == 0 ==> r == fields
    {
      var lenValues := |keysValues|;
      if lenValues < 1 {
        return fields;
      }
      r := fields;
      var i := 0;
      while i < lenValues
        invariant 0 <= i <= lenValues + 1
        invariant Merge(r, if i <= lenValues then keysValues[i..] else [], render)
               == Merge(fields, keysValues, render)
        decreases lenValues + 1 - i
      {
        ghost var rest := keysValues[i..];
        if i + 1 < lenValues {
          assert rest[2..] == keysValues[i + 2..];
          r := r[render(keysValues[i]) := Raw(keysValues[i + 1])];
        } else {
          r := r[render(keysValues[i]) := Str(MissingValue)];
        }
        i := i + 2;
      }
    }
  }
}
