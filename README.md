# pymaplibregl call-log builder, in Dafny

pymaplibregl lets a Python web app describe a map that a browser-side
rendering library draws. The Python side never draws anything. A `Map`
holds the initial map options and an append-only log of call records
`{name, data}`. Each public mutator (`add_source`, `add_layer`,
`add_control`, `add_marker`, `add_popup`, and `set_filter`,
`set_paint_property`, `set_layout_property` through `add_call`) appends
exactly one record. `to_dict` packages the options and the log for the
browser, which replays the records in order. A `MapContext` is a `Map`
bound to a map widget that is already on the page. It starts empty and is
used as an async context manager. When the context is left, it sends the
log to the browser as one custom message on the widget's channel.

Files:

- `json.dfy` (module `Json`): the JSON values that are recorded and sent,
  and `Option`.
- `map.dfy` (module `Maps`), for `pymaplibregl/map.py`:
  - the call records and the record each mutator builds;
  - `Positions`/`Project`, the `sources`/`layers` projections, specified by
    the indices of the matching records;
  - the serialised log and its decoder;
  - control positions, the style validator and the options merge;
  - the class `Map`, whose fields `options` and `calls` the mutators update
    in place.
- `mapcontext.dfy` (module `MapContexts`), for `pymaplibregl/mapcontext.py`:
  - the session, reduced to the list of custom messages sent through it;
  - channel names;
  - the class `MapContext`.

`MapContext` subclasses `Map` in the source. A Dafny class cannot extend a
class, so `MapContext` holds its `Map` part as `base`. The context's log is
`base.calls`, and its mutators are `Map`'s own methods called on `base`.
So every append and projection property of `Map` holds for a context
unchanged. The source's constructor assigns `_map_options = {}` and
`_calls = []` directly. The model builds `base` with `Map(map[], map[])`,
which gives the same state.

## Model

| member | source | states |
|---|---|---|
| `Maps.Merge` | pymaplibregl/map.py:58-59 | the merged options have exactly the keys of either side; a key in the keyword overrides takes the override's value, any other key keeps the options' value |
| `Maps.Map.constructor` | pymaplibregl/map.py:58-60 | a new map's options are the options' dict overlaid with the keyword overrides, and its call log is empty |
| `Maps.EncodeLog` | pymaplibregl/map.py:62-63 | the serialised log has one entry per record; the i-th entry is an object with exactly the keys "name" and "data", and it reads back as the i-th record |
| `Maps.DecodeEncodeLog` | pymaplibregl/map.py:62-63 | reading back the serialised log gives the same records in the same order |
| `Maps.Map.ToDict` | pymaplibregl/map.py:62-63 | the result is an object with exactly the keys "mapOptions" and "calls", and it decodes to the current options and the current log |
| `Maps.Positions` | pymaplibregl/map.py:65-71 | the indices of the records with a given name: all of them, only them, strictly increasing |
| `Maps.Project` | pymaplibregl/map.py:65-71 | `sources` and `layers`: the k-th entry is the payload of the k-th record with that name, and there is one entry per such record, so the result holds exactly those payloads in log order |
| `Maps.Map.Sources` | pymaplibregl/map.py:65-67 | `sources`: one entry per `addSource` record, and the k-th entry is the payload of the k-th such record, in log order |
| `Maps.Map.Layers` | pymaplibregl/map.py:69-71 | `layers`: one entry per `addLayer` record, and the k-th entry is the payload of the k-th such record, in log order |
| `Maps.ProjectSnoc` | pymaplibregl/map.py:65-71 | appending one record grows a projection by its payload when its name matches and leaves it unchanged otherwise |
| `Maps.ProjectAppend` | pymaplibregl/map.py:65-71 | the projection of two logs joined together is the two projections joined together |
| `Maps.ProjectIgnoresOtherNames` | pymaplibregl/map.py:65-71 | appending any records with other names leaves a projection unchanged |
| `Maps.ProjectPrefix` | pymaplibregl/map.py:65-71 | the projection of an earlier log is a prefix of the projection of the current log: appends never reorder or drop projected entries |
| `Maps.Map.AddCall` | pymaplibregl/map.py:74-77 | appends one `applyFunc` record carrying the function name and the parameters; the earlier records, the options, `sources` and `layers` are unchanged |
| `Maps.ResolvePosition` | pymaplibregl/map.py:82-87 | an enum member stands for itself; a string resolves to the member with exactly that value; any other string is an error |
| `Maps.PositionValueRoundTrip` | pymaplibregl/map.py:87 | the value string of every position resolves back to that position |
| `Maps.Map.AddControl` | pymaplibregl/map.py:79-89 | appends one `addControl` record with the control's type, its options and the resolved position, which defaults to top-right; a string that names no position records nothing; the options, `sources` and `layers` are unchanged |
| `Maps.Map.AddSource` | pymaplibregl/map.py:91-95 | appends one `addSource` record `{id, source}`, using the object's dict for a library object; `sources` grows by exactly that entry at the end, and `layers` and the options are unchanged |
| `Maps.Map.AddLayer` | pymaplibregl/map.py:97-101 | appends one `addLayer` record with the layer's dict; `layers` grows by exactly that entry at the end, and `sources` and the options are unchanged |
| `Maps.Map.AddMarker` | pymaplibregl/map.py:103-104 | appends one `addMarker` record with the marker's dict; the options, `sources` and `layers` are unchanged |
| `Maps.Map.AddPopup` | pymaplibregl/map.py:106-109 | appends one `addPopup` record `{layerId, property}`; the options, `sources` and `layers` are unchanged |
| `Maps.Map.SetFilter` | pymaplibregl/map.py:111-112 | appends one `applyFunc` record for `setFilter` whose parameters are the layer id and the filter as given (a list, or None), in that order |
| `Maps.Map.SetPaintProperty` | pymaplibregl/map.py:114-115 | appends one `applyFunc` record for `setPaintProperty` whose parameters are the layer id, the property and the value, in that order |
| `Maps.Map.SetLayoutProperty` | pymaplibregl/map.py:117-118 | appends one `applyFunc` record for `setLayoutProperty` whose parameters are the layer id, the property and the value, in that order |
| `Maps.ValidateStyle` | pymaplibregl/map.py:47-52 | a string style is returned unchanged, and a Carto basemap is replaced by its URL |
| `Maps.ValidateStyleIdempotent` | pymaplibregl/map.py:47-52 | validating an already validated style changes nothing |
| `Maps.CollisionsMap` | examples/motor_vehicle_collisions/app.py:67-75 | the demo map's log is its layer followed by the popup on it; `layers` is that one layer and `sources` is empty |
| `MapContexts.Session.SendCustomMessage` | pymaplibregl/mapcontext.py:20-22 | a sent message is added after all earlier ones |
| `MapContexts.Channel` | pymaplibregl/mapcontext.py:21 | the channel name starts with "pymaplibregl-", and the widget id can be read back from it |
| `MapContexts.ChannelInjective` | pymaplibregl/mapcontext.py:21 | widgets with different ids never share a channel |
| `MapContexts.MapContext.constructor` | pymaplibregl/mapcontext.py:6-11 | a new context stores the given id and session, and its map part is fresh, with no options and an empty log |
| `MapContexts.MapContext.Envelope` | pymaplibregl/mapcontext.py:21 | the message goes on the widget's channel; its payload has exactly the keys "id" and "calls", so the options are not sent, and it decodes to the id and the log in recorded order |
| `MapContexts.MapContext.Enter` | pymaplibregl/mapcontext.py:13-14 | entering the context yields the context itself |
| `MapContexts.MapContext.Render` | pymaplibregl/mapcontext.py:19-22 | exactly one message, the envelope of the current log, is added after the messages already sent; the log and the options are unchanged |
| `MapContexts.MapContext.Exit` | pymaplibregl/mapcontext.py:16-17 | leaving the context always renders, whether or not the body raised: exactly one envelope of the current log is sent |
| `MapContexts.UpdateRadius` | examples/motor_vehicle_collisions/app.py:77-83 | the reactive-update snippet that the demo keeps disabled inside a string literal would send exactly one message, on the "maplibre" channel, whose log is the single `setPaintProperty` call |

## Left out

- `Map.to_html` is left out. It renders Jinja templates with `json.dumps` and writes a file, which is templating and file I/O.
- The `MapOptions` model is left out: its field validation, serialisation aliases, defaults and `to_dict` belong to the validation library and the package's utilities. The `Map` constructor takes the dict that `map_options.to_dict()` returns, so the default `MapOptions()` is not modelled. The keyword overrides are merged unvalidated, as in the source.
- `MapOptions.validate_style` is modelled as a function on its own. How the validation library runs it on construction and on assignment is left out.
- The `to_dict()` of sources, layers, controls and markers, and the Carto basemap URL constructor, are not part of this model. Their results are JSON values, and the URL constructor is a function parameter of `ValidateStyle`.
- The `ControlPosition` enum's module is not part of this model. It is modelled with the four corners the rendering library accepts ("top-left", "top-right", "bottom-left", "bottom-right"). The `ValueError` raised for an unknown string is modelled as `AddControl` returning `false` and recording nothing.
- `require_active_session` is left out, because finding the active session belongs to the web framework. `MapContext` is given its session directly.
- `send_custom_message` is modelled only as adding the message to the session's list of sent messages. Async execution, awaiting and delivery to the browser are left out.
- JSON objects are maps, so the key order of Python dicts in the serialised text is not modelled. Floating-point numbers are not modelled either: numbers are integers.
- Python aliasing is not modelled. `to_dict` returns the live `_calls` list, and `add_call` stores the caller's `params` list. The model passes values, so later changes through those references are not captured.
- The browser-side replay (`srcjs/pymaplibregl.js`, `srcjs/index.js`) is left out. It calls the external rendering library and the DOM. The decoders `DecodeLog`, `DecodeSpec` and `DecodeEnvelope` only read back the `{name, data}` records that the replay dispatches on.
- The unused class constant `Map.MESSAGE` is not modelled.
