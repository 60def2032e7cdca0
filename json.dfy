/** The JSON values the handlers put in their responses and that the logic layer
    returns as Python dicts. */
module Json {
  import opened Wrappers

  datatype Value =
    | Null
    | Str(s: string)
    | Strings(items: seq<string>)
    | Object(fields: map<string, Value>)

  /** A Python `str` or `None`, as `jsonify` writes it. */
  function OfOption(o: Option<string>): (v: Value)
    ensures o.None? <==> v == Null
    ensures o.Some? ==> v == Str(o.value)
  {
    match o
    case None => Null
    case Some(s) => Str(s)
  }

  /** The `{"status": "error", "message": m}` dict shared by the session- and
      engine-backed adapters. */
  function ErrorDict(message: string): (d: map<string, Value>)
    ensures d.Keys == {"status", "message"}
    ensures d["status"] == Str("error") && d["message"] == Str(message)
  {
    map["status" := Str("error"), "message" := Str(message)]
  }

  /** The `{"status": "completed", key: v}` dict of a successful adapter call. */
  function CompletedDict(key: string, v: Value): (d: map<string, Value>)
    requires key != "status"
    ensures d.Keys == {"status", key}
    ensures d["status"] == Str("completed") && d[key] == v
  {
    map["status" := Str("completed"), key := v]
  }

  /** Whether a dict's `status` entry is `'completed'`. */
  function IsCompleted(d: map<string, Value>): (b: bool)
    ensures b <==> "status" in d && d["status"].Str? && d["status"].s == "completed"
  {
    "status" in d && d["status"] == Str("completed")
  }
}
