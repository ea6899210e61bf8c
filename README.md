# InfluxDB log writer: point building

This project models how the InfluxDB adapter of go-logger turns a log call
into a time-series point (`influx.go`). Each of the writer's four entry
points (`Print`, `Prints`, `Printf`, `Printv`) builds a point of the fixed
measurement `"logs"`. The tag map holds exactly `app` (the writer's
application name), `scope` and `level` (the facade's text for the level). The
field map is assembled step by step:

- `message` is always set.
- `caller` is set only when the caller string is non-empty.
- `stack` is set only when there are frames, joined by CRLF.

`Printv` then merges an alternating key/value sequence into that map. Keys
are rendered with `%v`. Later pairs overwrite earlier ones, and a dangling
final key gets the value `"!VALUE"`. The whole merged map is then stored
JSON-encoded as the single field `values`.

Layout:

- `point.dfy` (module `LogPoint`): the `Point` and `FieldValue` datatypes, the
  constants, `strings.Join`, the tag predicate `Tagged` and the specification
  `BaseFields` of the message/caller/stack field map.
- `keyvalues.dfy` (module `KeyValues`): `Merge`, the specification of the
  key/value merge, and its lemmas (which keys change, which are kept, last
  write wins, the dangling key).
- `influx.dfy` (module `Influx`): the class `Influx` with its builders and
  `AddKeyValues`. `Library` stands for the library calls whose bodies are not
  modelled: `fmt.Sprint`, `fmt.Sprintf`, `%v` rendering, `logger.LevelText`
  and `json.Marshal`. These are passed to each builder as function values.

Each builder returns the point instead of handing it to the asynchronous
write API. The timestamp is taken as a parameter `now` instead of being read
from the clock.

Two behaviours of the code worth noting:

- `addKeyValues` stores each value as it is (`Raw(v)` here), so an error
  value is not turned into its message text (influx.go:157).
- `Printv` does not add the key/value pairs as separate fields; it stores the
  whole merged map JSON-encoded as the single field `values`
  (influx.go:97-111).

## Model

| member | source | states |
|---|---|---|
| `LogPoint.BaseFields` | influx.go:118-128 | the assembled field map has exactly the keys message, caller (iff the caller is non-empty) and stack (iff there is a frame); message is the given message, caller the caller, stack the frames joined by CRLF |
| `Influx.Influx.constructor` | influx.go:24-31 | the writer keeps the application name it is created with |
| `Influx.Influx.Print` | influx.go:58-83 | the point has measurement "logs", exactly the tags app/scope/level bound to the writer's app, the scope and the level text, the field map of BaseFields with message Sprint of the parts, and the given time |
| `Influx.Influx.Printv` | influx.go:85-116 | same measurement and tags; the field map has exactly one key, values, holding the JSON encoding of the message/caller/stack map merged with the key/values, or a nil slice when encoding fails |
| `Influx.Influx.Prints` | influx.go:118-143 | same measurement and tags; the field map is BaseFields of the given message, caller and stack, with no other keys |
| `Influx.Influx.Printf` | influx.go:145-147 | the point is the one Prints builds for the message Sprintf(format, args) |
| `Influx.Influx.AddKeyValues` | influx.go:149-162 | the loop stepping by two computes Merge of the map and the sequence; an empty sequence leaves the map unchanged |
| `KeyValues.MergeEmpty` | influx.go:150-153 | merging an empty sequence leaves the map unchanged |
| `KeyValues.MergeKeys` | influx.go:155-161 | merging adds exactly the keys rendered from the even positions and removes no key |
| `KeyValues.MergePreserves` | influx.go:155-161 | an existing entry whose key no even position renders to keeps its value (message, caller and stack included) |
| `KeyValues.MergeLastWins` | influx.go:155-160 | a rendered key is bound to the value of the last pair whose key renders to it: the next element, or "!VALUE" when that key is the final element |
| `KeyValues.MergeDanglingKey` | influx.go:158-160 | for an odd-length sequence the final key is bound to "!VALUE" |
| `KeyValues.MergedLogFields` | influx.go:86-97 | the map Printv encodes has the message/caller/stack keys plus the rendered keys, and message, caller and stack keep their values unless a key renders to their name |

## Left out

- `Connect` and `Close` (influx.go:37-47): client set-up, flush and shutdown of the InfluxDB client are network I/O.
- The `WritePoint` calls (influx.go:82, influx.go:115, influx.go:142): the asynchronous write is I/O; the builders return the point instead.
- `InfluxWriter` (influx.go:23-35): registration with the logging facade; only its struct literal is modelled, as the constructor.
- `time.Now()`: the wall clock is a parameter `now` of each builder.
- The bodies of `fmt.Sprint`, `fmt.Sprintf`, `%v` rendering, `logger.LevelText` and `json.Marshal` are library code. They are the fields of `Library` and are not interpreted, so no property of JSON encoding is proved.
- `influxdb.NewPoint`'s own conversion of field values to line-protocol types is client code; a `Point` here holds the tags and fields as the writer passes them.
- `Influx.Influx.AddKeyValues`: Go passes the map by reference and the loop updates it in place. The model returns the new map and the caller reassigns it. `Printv` holds the only reference, so no behaviour is lost.
- The commented-out buffer pool (influx.go:17, influx.go:25-29, influx.go:49-56) is dead code.
- `config.go` holds a configuration struct with no logic.
