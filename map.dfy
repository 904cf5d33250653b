/**
 The map builder of pymaplibregl/map.py.

 A `Map` holds the initial map options and an append-only log of call
 records `{name, data}`; every public mutator appends exactly one record,
 which the browser later replays, in order, against the rendering library.
 The module also holds the projections of the log (`sources`, `layers`),
 the serialised form `to_dict` produces together with its decoder, the
 control positions `add_control` accepts and the style validator of the
 options object.
 */
module Maps {
  import opened Json

  // The record names the browser-side replayer dispatches on.
  const AddSourceName: string := "addSource"
  const AddLayerName: string := "addLayer"
  const AddControlName: string := "addControl"
  const AddMarkerName: string := "addMarker"
  const AddPopupName: string := "addPopup"
  const ApplyFuncName: string := "applyFunc"

  /** One recorded call: the name of the replay handler and its payload. */
  datatype Call = Call(name: string, data: Json)

  /** A control object: its `type` attribute and what its `to_dict()` returns. */
  datatype Control = Control(kind: string, options: Json)

  /** An argument that may be a library object (replaced by its `to_dict()`) or a plain dict. */
  datatype Payload = LibraryObject(toDict: Json) | Plain(value: Json)
  {
    function AsJson(): Json {
      match this
      case LibraryObject(d) => d
      case Plain(v) => v
    }
  }

  // ---------------------------------------------------------------------
  // Control positions

  /** The corners a control can be placed in, with the strings the rendering library expects. */
  datatype ControlPosition = TopLeft | TopRight | BottomLeft | BottomRight
  {
    function Value(): string {
      match this
      case TopLeft => "top-left"
      case TopRight => "top-right"
      case BottomLeft => "bottom-left"
      case BottomRight => "bottom-right"
    }
  }

  /** A position as `add_control` receives it: an enum member or its string value. */
  datatype PositionArg = Member(position: ControlPosition) | ByValue(value: string)

  /**
   `ControlPosition(position)`: a member is itself; a string is looked up
   among the members' values, and an unknown string is an error (None).
   */
  function ResolvePosition(arg: PositionArg): (r: Option<ControlPosition>)
    ensures arg.Member? ==> r == Some(arg.position)
    ensures arg.ByValue? ==> forall p: ControlPosition :: r == Some(p) <==> p.Value() == arg.value
  {
    match arg
    case Member(p) => Some(p)
    case ByValue(v) =>
      if v == TopLeft.Value() then Some(TopLeft)
      else if v == TopRight.Value() then Some(TopRight)
      else if v == BottomLeft.Value() then Some(BottomLeft)
      else if v == BottomRight.Value() then Some(BottomRight)
      else None
  }

  /** Resolving the string value of a member gives that member back. */
  lemma PositionValueRoundTrip(p: ControlPosition)
    ensures ResolvePosition(ByValue(p.Value())) == Some(p)
  {
  }

  // ---------------------------------------------------------------------
  // The style option

  /** A style as the options object accepts it: a style URL or a Carto basemap. */
  datatype Style<Basemap> = StyleUrl(url: string) | CartoBasemap(basemap: Basemap)

  /**
   `MapOptions.validate_style`: a string is kept as it is and a Carto
   basemap is replaced by its URL; `basemapUrl` stands for the basemap
   module's URL constructor, which the model leaves uninterpreted.
   */
  function ValidateStyle<B>(v: Style<B>, basemapUrl: B -> string): (r: string)
    ensures v.StyleUrl? ==> r == v.url
    ensures v.CartoBasemap? ==> r == basemapUrl(v.basemap)
  {
    match v
    case StyleUrl(url) => url
    case CartoBasemap(b) => basemapUrl(b)
  }

  /** The validated style is a plain URL, which validation leaves alone. */
  lemma ValidateStyleIdempotent<B>(v: Style<B>, basemapUrl: B -> string)
    ensures ValidateStyle(StyleUrl(ValidateStyle(v, basemapUrl)), basemapUrl) == ValidateStyle(v, basemapUrl)
  {
  }

  // ---------------------------------------------------------------------
  // Options

  /**
   Python's `base | overrides` on dicts: every key of either side, with
   the value of `overrides` where both have the key.
   */
  function Merge(base: map<string, Json>, overrides: map<string, Json>): (r: map<string, Json>)
    ensures forall k :: k in r <==> k in base || k in overrides
    ensures forall k :: k in r ==> r[k] == if k in overrides then overrides[k] else base[k]
  {
    base + overrides
  }

  // ---------------------------------------------------------------------
  // The records each mutator appends

  function SourceCall(id: string, source: Json): Call {
    Call(AddSourceName, JObject(map["id" := JString(id), "source" := source]))
  }

  function LayerCall(layer: Json): Call {
    Call(AddLayerName, layer)
  }

  function ControlCall(control: Control, position: ControlPosition): Call {
    Call(AddControlName, JObject(map["type" := JString(control.kind),
                                     "options" := control.options,
                                     "position" := JString(position.Value())]))
  }

  function MarkerCall(marker: Json): Call {
    Call(AddMarkerName, marker)
  }

  function PopupCall(layerId: string, prop: string): Call {
    Call(AddPopupName, JObject(map["layerId" := JString(layerId), "property" := JString(prop)]))
  }

  function ApplyFuncCall(funcName: string, params: seq<Json>): Call {
    Call(ApplyFuncName, JObject(map["funcName" := JString(funcName), "params" := JArray(params)]))
  }

  // ---------------------------------------------------------------------
  // Projections of the log

  /**
   The indices of the records called `name`, in increasing order: the
   reference against which the projections are specified.
   */
  function Positions(calls: seq<Call>, name: string): (ps: seq<nat>)
    ensures forall k :: 0 <= k < |ps| ==> ps[k] < |calls| && calls[ps[k]].name == name
    ensures forall j, k :: 0 <= j < k < |ps| ==> ps[j] < ps[k]
    ensures forall i :: 0 <= i < |calls| && calls[i].name == name ==> i in ps
  {
    if calls == [] then []
    else
      var n := |calls| - 1;
      Positions(calls[..n], name) + (if calls[n].name == name then [n] else [])
  }

  /**
   `[item["data"] for item in calls if item["name"] == name]`: the payloads
   of exactly the records called `name`, in log order.
   */
  function Project(calls: seq<Call>, name: string): (r: seq<Json>)
    ensures |r| == |Positions(calls, name)|
    ensures forall k :: 0 <= k < |r| ==> r[k] == calls[Positions(calls, name)[k]].data
  {
    if calls == [] then []
    else
      var n := |calls| - 1;
      Project(calls[..n], name) + (if calls[n].name == name then [calls[n].data] else [])
  }

  /** Appending one record extends a projection by its payload exactly when its name matches. */
  lemma ProjectSnoc(calls: seq<Call>, c: Call, name: string)
    ensures Project(calls + [c], name) == Project(calls, name) + (if c.name == name then [c.data] else [])
  {
  }

  /** Projection commutes with concatenation of logs. */
  lemma {:induction false} ProjectAppend(a: seq<Call>, b: seq<Call>, name: string)
    ensures Project(a + b, name) == Project(a, name) + Project(b, name)
  {
    if b == [] {
      assert a + b == a;
    } else {
      var n := |b| - 1;
      assert b == b[..n] + [b[n]];
      assert a + b == (a + b[..n]) + [b[n]];
      ProjectAppend(a, b[..n], name);
      ProjectSnoc(a + b[..n], b[n], name);
      ProjectSnoc(b[..n], b[n], name);
    }
  }

  /** Records with any other name leave a projection unchanged. */
  lemma {:induction false} ProjectIgnoresOtherNames(calls: seq<Call>, more: seq<Call>, name: string)
    requires forall c :: c in more ==> c.name != name
    ensures Project(calls + more, name) == Project(calls, name)
  {
    if more == [] {
      assert calls + more == calls;
    } else {
      var n := |more| - 1;
      assert more == more[..n] + [more[n]];
      assert calls + more == (calls + more[..n]) + [more[n]];
      ProjectIgnoresOtherNames(calls, more[..n], name);
      ProjectSnoc(calls + more[..n], more[n], name);
    }
  }

  /** Later appends never reorder or drop what a projection of an earlier log held. */
  lemma ProjectPrefix(calls: seq<Call>, k: nat, name: string)
    requires k <= |calls|
    ensures Project(calls[..k], name) <= Project(calls, name)
  {
    assert calls == calls[..k] + calls[k..];
    ProjectAppend(calls[..k], calls[k..], name);
  }

  // ---------------------------------------------------------------------
  // The serialised log and its decoder

  function CallToJson(c: Call): Json {
    JObject(map["name" := JString(c.name), "data" := c.data])
  }

  /** Reads a record back the way the replayer does: the `name` and `data` entries of an object. */
  function CallFromJson(j: Json): Option<Call>
  {
    if j.JObject? && "name" in j.fields && "data" in j.fields && j.fields["name"].JString?
    then Some(Call(j.fields["name"].s, j.fields["data"]))
    else None
  }

  function EncodeLog(calls: seq<Call>): (js: seq<Json>)
    ensures |js| == |calls|
    ensures forall i :: 0 <= i < |js| ==>
              js[i].JObject? && js[i].fields.Keys == {"name", "data"} && CallFromJson(js[i]) == Some(calls[i])
  {
    if calls == [] then [] else [CallToJson(calls[0])] + EncodeLog(calls[1..])
  }

  function DecodeLog(js: seq<Json>): Option<seq<Call>> {
    if js == [] then Some([])
    else
      match (CallFromJson(js[0]), DecodeLog(js[1..]))
      case (Some(c), Some(rest)) => Some([c] + rest)
      case _ => None
  }

  /** Decoding a serialised log gives back the same records in the same order. */
  lemma {:induction false} DecodeEncodeLog(calls: seq<Call>)
    ensures DecodeLog(EncodeLog(calls)) == Some(calls)
  {
    if calls != [] {
      DecodeEncodeLog(calls[1..]);
      assert [calls[0]] + calls[1..] == calls;
    }
  }

  /** The two things `to_dict` packages. */
  datatype MapSpec = MapSpec(options: map<string, Json>, calls: seq<Call>)

  /** Reads back the object `to_dict` produces. */
  function DecodeSpec(d: Json): Option<MapSpec> {
    if d.JObject? && "mapOptions" in d.fields && "calls" in d.fields
       && d.fields["mapOptions"].JObject? && d.fields["calls"].JArray?
    then
      match DecodeLog(d.fields["calls"].items)
      case Some(log) => Some(MapSpec(d.fields["mapOptions"].fields, log))
      case None => None
    else None
  }

  // ---------------------------------------------------------------------
  // The builder

  class Map {
    var options: map<string, Json>
    var calls: seq<Call>

    /** `Map(map_options, **kwargs)`: the options' dict overlaid with the keyword overrides. */
    constructor (mapOptions: map<string, Json>, kwargs: map<string, Json> := map[])
      ensures options == Merge(mapOptions, kwargs)
      ensures calls == []
    {
      options := mapOptions + kwargs;
      calls := [];
    }

    /** `to_dict`: the options under "mapOptions" and the log under "calls", and nothing else. */
    function ToDict(): (d: Json)
      reads this
      ensures d.JObject? && d.fields.Keys == {"mapOptions", "calls"}
      ensures DecodeSpec(d) == Some(MapSpec(options, calls))
    {
      DecodeEncodeLog(calls);
      JObject(map["mapOptions" := JObject(options), "calls" := JArray(EncodeLog(calls))])
    }

    /** The `sources` property: the payloads of exactly the `addSource` records, in log order. */
    function Sources(): (r: seq<Json>)
      reads this
      ensures |r| == |Positions(calls, AddSourceName)|
      ensures forall k :: 0 <= k < |r| ==> r[k] == calls[Positions(calls, AddSourceName)[k]].data
    {
      Project(calls, AddSourceName)
    }

    /** The `layers` property: the payloads of exactly the `addLayer` records, in log order. */
    function Layers(): (r: seq<Json>)
      reads this
      ensures |r| == |Positions(calls, AddLayerName)|
      ensures forall k :: 0 <= k < |r| ==> r[k] == calls[Positions(calls, AddLayerName)[k]].data
    {
      Project(calls, AddLayerName)
    }

    /** `add_call`: records a call of an arbitrary map method with its parameters. */
    method AddCall(funcName: string, params: seq<Json>)
      modifies this
      ensures calls == old(calls) + [ApplyFuncCall(funcName, params)]
      ensures options == old(options)
      ensures Sources() == old(Sources()) && Layers() == old(Layers())
    {
      ProjectSnoc(calls, ApplyFuncCall(funcName, params), AddSourceName);
      ProjectSnoc(calls, ApplyFuncCall(funcName, params), AddLayerName);
      calls := calls + [ApplyFuncCall(funcName, params)];
    }

    /**
     `add_control`: records the control's type, its options and the
     position; the position defaults to the top-right corner, and a string
     that names no position is an error that records nothing.
     */
    method AddControl(control: Control, position: PositionArg := Member(TopRight)) returns (ok: bool)
      modifies this
      ensures ok <==> ResolvePosition(position).Some?
      ensures ok ==> calls == old(calls) + [ControlCall(control, ResolvePosition(position).value)]
      ensures !ok ==> calls == old(calls)
      ensures options == old(options)
      ensures Sources() == old(Sources()) && Layers() == old(Layers())
    {
      var resolved := ResolvePosition(position);
      if resolved.None? {
        return false;
      }
      var c := ControlCall(control, resolved.value);
      ProjectSnoc(calls, c, AddSourceName);
      ProjectSnoc(calls, c, AddLayerName);
      calls := calls + [c];
      ok := true;
    }

    /** `add_source`: records the source under its id; `sources` grows by that entry. */
    method AddSource(id: string, source: Payload)
      modifies this
      ensures calls == old(calls) + [SourceCall(id, source.AsJson())]
      ensures options == old(options)
      ensures Sources() == old(Sources()) + [JObject(map["id" := JString(id), "source" := source.AsJson()])]
      ensures Layers() == old(Layers())
    {
      var c := SourceCall(id, source.AsJson());
      ProjectSnoc(calls, c, AddSourceName);
      ProjectSnoc(calls, c, AddLayerName);
      calls := calls + [c];
    }

    /** `add_layer`: records the layer; `layers` grows by it. */
    method AddLayer(layer: Payload)
      modifies this
      ensures calls == old(calls) + [LayerCall(layer.AsJson())]
      ensures options == old(options)
      ensures Layers() == old(Layers()) + [layer.AsJson()]
      ensures Sources() == old(Sources())
    {
      var c := LayerCall(layer.AsJson());
      ProjectSnoc(calls, c, AddSourceName);
      ProjectSnoc(calls, c, AddLayerName);
      calls := calls + [c];
    }

    /** `add_marker`: records the marker's dict. */
    method AddMarker(marker: Json)
      modifies this
      ensures calls == old(calls) + [MarkerCall(marker)]
      ensures options == old(options)
      ensures Sources() == old(Sources()) && Layers() == old(Layers())
    {
      var c := MarkerCall(marker);
      ProjectSnoc(calls, c, AddSourceName);
      ProjectSnoc(calls, c, AddLayerName);
      calls := calls + [c];
    }

    /** `add_popup`: records which layer shows which feature property in a popup. */
    method AddPopup(layerId: string, prop: string)
      modifies this
      ensures calls == old(calls) + [PopupCall(layerId, prop)]
      ensures options == old(options)
      ensures Sources() == old(Sources()) && Layers() == old(Layers())
    {
      var c := PopupCall(layerId, prop);
      ProjectSnoc(calls, c, AddSourceName);
      ProjectSnoc(calls, c, AddLayerName);
      calls := calls + [c];
    }

    /**
     `set_filter`: a `setFilter` call with the layer id and the filter
     expression, passed on as given (a list, or None to clear the filter).
     */
    method SetFilter(layerId: string, filter: Json)
      modifies this
      ensures calls == old(calls) + [ApplyFuncCall("setFilter", [JString(layerId), filter])]
      ensures options == old(options)
      ensures Sources() == old(Sources()) && Layers() == old(Layers())
    {
      AddCall("setFilter", [JString(layerId), filter]);
    }

    /** `set_paint_property`: a `setPaintProperty` call with layer id, property and value. */
    method SetPaintProperty(layerId: string, prop: string, value: Json)
      modifies this
      ensures calls == old(calls) + [ApplyFuncCall("setPaintProperty", [JString(layerId), JString(prop), value])]
      ensures options == old(options)
      ensures Sources() == old(Sources()) && Layers() == old(Layers())
    {
      AddCall("setPaintProperty", [JString(layerId), JString(prop), value]);
    }

    /** `set_layout_property`: a `setLayoutProperty` call with layer id, property and value. */
    method SetLayoutProperty(layerId: string, prop: string, value: Json)
      modifies this
      ensures calls == old(calls) + [ApplyFuncCall("setLayoutProperty", [JString(layerId), JString(prop), value])]
      ensures options == old(options)
      ensures Sources() == old(Sources()) && Layers() == old(Layers())
    {
      AddCall("setLayoutProperty", [JString(layerId), JString(prop), value]);
    }
  }

  /**
   The map of the demo app: built from keyword options over the default
   options, then one layer and a popup showing a property of its features.
   */
  method CollisionsMap(defaults: map<string, Json>, kwargs: map<string, Json>, layer: Payload, layerId: string)
    returns (m: Map)
    ensures fresh(m)
    ensures m.options == Merge(defaults, kwargs)
    ensures m.calls == [LayerCall(layer.AsJson()), PopupCall(layerId, "injured")]
    ensures m.Layers() == [layer.AsJson()] && m.Sources() == []
  {
    m := new Map(defaults, kwargs);
    m.AddLayer(layer);
    m.AddPopup(layerId, "injured");
  }
}
