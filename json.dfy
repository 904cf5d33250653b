/**
 The JSON values that the map builder records and hands to the browser.

 Python dicts, lists, strings, numbers, booleans and None become the
 constructors below; the payloads produced by the rendering library's
 option objects (sources, layers, controls, markers) are values of this
 type whose inner structure the model does not look at.
 */
module Json {

  datatype Option<+T> = None | Some(value: T)

  datatype Json =
    | JNull
    | JBool(b: bool)
    | JNumber(n: int)
    | JString(s: string)
    | JArray(items: seq<Json>)
    | JObject(fields: map<string, Json>)

}
