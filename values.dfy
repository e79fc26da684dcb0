/** The values that flow between the request handler and the document
    manager: query-filter values, JSON-like documents, database identifiers,
    HTTP outcomes, and the mutable filter dictionary itself. */
module Values {
  import opened Wrappers

  /** A database-native identifier. Only its textual form (`str(oid)`) is
      used by the model; how it is parsed from text is an oracle. */
  datatype ObjectId = ObjectId(hex: string)

  /** A query-filter value: what a query-string value parses to, or the
      native identifier the `_id` entry is converted to. */
  datatype FilterValue =
    | Int(i: int)
    | Str(s: string)
    | IntList(ints: seq<int>)
    | StrList(strs: seq<string>)
    | Oid(oid: ObjectId)

  /** Python truthiness of a filter value (`if value:`). An ObjectId has no
      `__bool__`, so it is always truthy. */
  predicate Truthy(v: FilterValue) {
    match v
    case Int(i) => i != 0
    case Str(s) => s != ""
    case IntList(xs) => xs != []
    case StrList(ss) => ss != []
    case Oid(_) => true
  }

  /** Truthiness of an attribute that may be `None`. */
  predicate OptTruthy(v: Option<FilterValue>) {
    v.Some? && Truthy(v.value)
  }

  /** A JSON-compatible document or value, as produced by the model layer and
      by the database after normalisation. */
  datatype Json =
    | JNull
    | JBool(b: bool)
    | JInt(n: int)
    | JStr(str: string)
    | JList(items: seq<Json>)
    | JObject(fields: map<string, Json>)

  /** A response that ends the request pipeline: `json_response(data, status)`
      writes the body, sets the status and raises `Finish`. */
  datatype Outcome = Outcome(status: nat, body: Json)

  /** The `{'error': [message]}` body used by the handler's own 4xx responses. */
  function ErrorBody(message: string): (body: Json)
    ensures body.JObject? && body.fields.Keys == {"error"}
    ensures body.fields["error"] == JList([JStr(message)])
  {
    JObject(map["error" := JList([JStr(message)])])
  }

  /** A Python dict used as a query filter. It is an object because the
      source mutates it in place and hands the same dict between the handler
      and the manager. */
  class QueryFilter {
    var entries: map<string, FilterValue>

    constructor (entries: map<string, FilterValue>)
      ensures this.entries == entries
    {
      this.entries := entries;
    }

    /** `dict.pop(key, default)`: removes the key and returns its value, or
        returns the default when the key is absent. */
    method Pop(key: string, default: FilterValue) returns (v: FilterValue)
      modifies this
      ensures v == if key in old(entries) then old(entries)[key] else default
      ensures entries == old(entries) - {key}
      ensures key !in entries
    {
      if key in entries {
        v := entries[key];
      } else {
        v := default;
      }
      entries := entries - {key};
    }

    /** `dict[key] = value`. */
    method Set(key: string, value: FilterValue)
      modifies this
      ensures entries == old(entries)[key := value]
    {
      entries := entries[key := value];
    }
  }
}
