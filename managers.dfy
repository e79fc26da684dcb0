/** `base/managers.py`: the result container and the document manager that
    wraps one collection. The database itself is an oracle (`Collection`);
    what the model keeps is how the manager turns its arguments and its own
    `skip`/`limit` fields into the calls it issues. */
module Managers {
  import opened Wrappers
  import opened Values
  import QueryArgs

  // ---------------------------------------------------------------------
  // Queryset
  // ---------------------------------------------------------------------

  /** `len(value)`; `None` stands for the `TypeError` Python raises on a
      value without a length. */
  function Len(v: Json): Option<nat>
  {
    match v
    case JList(items) => Some(|items|)
    case JObject(fields) => Some(|fields|)
    case JStr(s) => Some(|s|)
    case _ => None
  }

  /** The result container: a document or list of documents and the number
      of documents matching the filter, which defaults to 0. */
  datatype Queryset = Queryset(value: Json, total: int := 0)
  {
    /** `asdict`: the stored value, unchanged. */
    function AsDict(): (v: Json)
      ensures v == value
    {
      value
    }

    /** The first number `__repr__` shows: the length of the value when the
        total exceeds one, the total otherwise. */
    function ReprCount(): (r: Option<int>)
      ensures total <= 1 ==> r == Some(total)
      ensures total > 1 ==> r == Len(value)
    {
      if total > 1 then Len(value) else Some(total)
    }

    /** `__repr__`: `<Queryset (n of total)>`, or `None` for the
        `TypeError` of taking the length of a value that has none. */
    function Repr(): (r: Option<string>)
      ensures r.Some? <==> ReprCount().Some?
      ensures r.Some? ==> r.value == "<Queryset (" + QueryArgs.IntToString(ReprCount().value)
                                     + " of " + QueryArgs.IntToString(total) + ")>"
    {
      match ReprCount()
      case None => None
      case Some(n) =>
        Some("<Queryset (" + QueryArgs.IntToString(n) + " of " + QueryArgs.IntToString(total) + ")>")
    }
  }

  /** Both numbers `__repr__` shows can be read back from its text: the
      count sits right after the 11-character prefix `<Queryset (`, is
      followed by ` of `, and the total runs from there to the closing
      `)>`. */
  lemma ReprCountReadsBack(q: Queryset, n: int)
    requires q.ReprCount() == Some(n)
    ensures q.Repr().Some?
    ensures var t := q.Repr().value;
      var e := 11 + |QueryArgs.IntToString(n)|;
      && e + 4 <= |t| - 2
      && t[..11] == "<Queryset ("
      && QueryArgs.ParseInt(t[11..e]) == Some(n)
      && t[e..e + 4] == " of "
      && QueryArgs.ParseInt(t[e + 4..|t| - 2]) == Some(q.total)
      && t[|t| - 2..] == ")>"
  {
    var cs := QueryArgs.IntToString(n);
    var ts := QueryArgs.IntToString(q.total);
    var t := q.Repr().value;
    var e := 11 + |cs|;
    assert t == "<Queryset (" + cs + " of " + ts + ")>";
    assert t[11..e] == cs;
    assert t[e + 4..|t| - 2] == ts;
    QueryArgs.ParseIntOfIntToString(n);
    QueryArgs.ParseIntOfIntToString(q.total);
  }

  // ---------------------------------------------------------------------
  // Query plans: what the manager asks the database to do
  // ---------------------------------------------------------------------

  datatype Direction = Ascending | Descending

  /** One `(field, direction)` sort key, as `cursor.sort([sort])` takes it. */
  datatype SortKey = SortKey(field: string, direction: Direction)

  /** The default sort of `find`: `('_id', DESCENDING)`. */
  const DEFAULT_SORT := SortKey("_id", Descending)

  /** A configured read: a cursor over many documents with the options set
      on it, or a single `find_one`. */
  datatype QueryPlan =
    | CursorPlan(filter: map<string, FilterValue>, projection: Option<map<string, int>>,
                 skip: Option<FilterValue>, limit: Option<FilterValue>, sort: Option<SortKey>)
    | FindOnePlan(filter: map<string, FilterValue>, projection: Option<map<string, int>>)

  /** A write the manager issues. */
  datatype WriteCall =
    | UpdateOne(filter: map<string, FilterValue>, update: map<string, Json>)
    | UpdateMany(filter: map<string, FilterValue>, update: map<string, Json>)
    | DeleteOne(filter: map<string, FilterValue>)

  /** The collection, as the oracles for the driver calls the manager makes:
      `count_documents`, the execution of a read plan (`to_list` of a cursor,
      or `find_one`, followed by the JSON normalisation), and the id
      `insert_one` generates for a document. */
  datatype Collection = Collection(
    countDocuments: map<string, FilterValue> -> nat,
    run: QueryPlan -> Json,
    insertOne: map<string, Json> -> ObjectId)

  /** A failure the manager lets escape to its caller. */
  datatype ManagerError = InvalidId(value: FilterValue)

  /** The oracle for `ObjectId(value)`: `None` stands for the exception the
      constructor raises on a value that is not an identifier. */
  type ObjectIdParser = FilterValue -> Option<ObjectId>

  // ---------------------------------------------------------------------
  // Filter and projection translation
  // ---------------------------------------------------------------------

  /** `_parse_remove_fields`: no projection for a missing or empty list,
      otherwise every listed field mapped to 0 (excluded). */
  function ParseRemoveFields(fields: Option<seq<string>>): (r: Option<map<string, int>>)
    ensures r.None? <==> fields.None? || fields.value == []
    ensures r.Some? ==> forall f :: f in r.value <==> f in fields.value
    ensures r.Some? ==> forall f :: f in r.value ==> r.value[f] == 0
  {
    if fields.None? || |fields.value| == 0 then None
    else Some(map f | f in fields.value :: 0)
  }

  /** The filter `_convert_id_field` leaves behind: a present and truthy
      `_id` is replaced by the parsed identifier; a failed parse is an
      error; every other entry is untouched. */
  function ConvertedId(entries: map<string, FilterValue>, toObjectId: ObjectIdParser)
    : (r: Result<map<string, FilterValue>, ManagerError>)
    ensures r.Failure? <==> "_id" in entries && Truthy(entries["_id"]) && toObjectId(entries["_id"]).None?
    ensures r.Success? ==> r.value.Keys == entries.Keys
    ensures r.Success? ==> forall k :: k in entries && k != "_id" ==> r.value[k] == entries[k]
    ensures (r.Success? && "_id" in entries && Truthy(entries["_id"])) ==>
              r.value["_id"] == Oid(toObjectId(entries["_id"]).value)
    ensures !("_id" in entries && Truthy(entries["_id"])) ==> r == Success(entries)
  {
    if "_id" in entries && Truthy(entries["_id"]) then
      match toObjectId(entries["_id"])
      case None => Failure(InvalidId(entries["_id"]))
      case Some(oid) => Success(entries["_id" := Oid(oid)])
    else Success(entries)
  }

  /** Converting twice is converting once, as long as the parser accepts
      an identifier it produced: a filter that went through the handler
      once is not changed by the manager's second pass. */
  lemma ConvertedIdIdempotent(entries: map<string, FilterValue>, toObjectId: ObjectIdParser)
    requires forall o: ObjectId :: toObjectId(Oid(o)) == Some(o)
    requires ConvertedId(entries, toObjectId).Success?
    ensures ConvertedId(ConvertedId(entries, toObjectId).value, toObjectId)
            == ConvertedId(entries, toObjectId)
  {
    var once := ConvertedId(entries, toObjectId).value;
    if "_id" in entries && Truthy(entries["_id"]) {
      assert once["_id"] == Oid(toObjectId(entries["_id"]).value);
      assert once["_id" := Oid(toObjectId(once["_id"]).value)] == once;
    }
  }

  /** The read `find` configures, stated declaratively: a cursor applies
      the manager's skip only when it is truthy; a truthy manager limit wins
      over the call's limit, which applies only when it is truthy itself;
      the sort applies when given. A single read carries only filter and
      projection. */
  function PlanFor(filter: map<string, FilterValue>, projection: Option<map<string, int>>,
                   many: bool, managerSkip: Option<FilterValue>, limit: Option<FilterValue>,
                   managerLimit: Option<FilterValue>, sort: Option<SortKey>): (plan: QueryPlan)
    ensures plan.filter == filter && plan.projection == projection
    ensures plan.CursorPlan? <==> many
  {
    if !many then FindOnePlan(filter, projection)
    else
      CursorPlan(filter, projection,
                 if OptTruthy(managerSkip) then managerSkip else None,
                 if OptTruthy(managerLimit) then managerLimit
                 else if OptTruthy(limit) then limit
                 else None,
                 sort)
  }

  /** The cursor skips by the manager's own value when that is truthy and
      not at all otherwise; the manager's limit overrides the call's limit
      whenever it is set to something truthy, and the call's limit is used
      only otherwise. */
  lemma ManagerLimitWins(filter: map<string, FilterValue>, projection: Option<map<string, int>>,
                         managerSkip: Option<FilterValue>, limit: Option<FilterValue>,
                         managerLimit: Option<FilterValue>, sort: Option<SortKey>)
    ensures var plan := PlanFor(filter, projection, true, managerSkip, limit, managerLimit, sort);
      && (OptTruthy(managerLimit) ==> plan.limit == managerLimit)
      && (!OptTruthy(managerLimit) ==> plan.limit == (if OptTruthy(limit) then limit else None))
      && plan.skip == (if OptTruthy(managerSkip) then managerSkip else None)
      && plan.sort == sort
  {
  }

  /** `{"$set": data}`: the update document has exactly one key. */
  function SetDocument(data: Json): (doc: map<string, Json>)
    ensures doc.Keys == {"$set"} && |doc| == 1 && doc["$set"] == data
  {
    var doc := map["$set" := data];
    assert doc.Keys == {"$set"};
    doc
  }

  // ---------------------------------------------------------------------
  // MotorModelManager
  // ---------------------------------------------------------------------

  class MotorModelManager {
    /** Per-request pagination the handler stores before calling `find`;
        `None` until a handler sets them. */
    var skip: Option<FilterValue>
    var limit: Option<FilterValue>
    const collection: Collection

    constructor (collection: Collection)
      ensures this.collection == collection
      ensures skip == None && limit == None
    {
      this.collection := collection;
      skip := None;
      limit := None;
    }

    /** `_convert_id_field` (and `_parse_query_filter`, which only calls
        it): converts the `_id` entry of the given dict in place and returns
        that same dict. */
    method ConvertIdField(filter: QueryFilter, toObjectId: ObjectIdParser)
      returns (r: Result<QueryFilter, ManagerError>)
      modifies filter
      ensures var c := ConvertedId(old(filter.entries), toObjectId);
        && (r.Success? <==> c.Success?)
        && (r.Success? ==> r.value == filter && filter.entries == c.value)
        && (r.Failure? ==> r.error == c.error && filter.entries == old(filter.entries))
    {
      if "_id" in filter.entries && Truthy(filter.entries["_id"]) {
        var id := filter.entries["_id"];
        var oid := toObjectId(id);
        if oid.None? {
          return Failure(InvalidId(id));
        }
        filter.Set("_id", Oid(oid.value));
      }
      return Success(filter);
    }

    /** `find`: converts the filter in place, counts the documents matching
        it, configures the read step by step and runs it. The total depends
        on the converted filter alone, never on `many`, skip, limit or
        sort. */
    method Find(filter: QueryFilter, toObjectId: ObjectIdParser, many: bool := true,
                sort: Option<SortKey> := Some(DEFAULT_SORT),
                removeFields: Option<seq<string>> := Some([]),
                limit: Option<FilterValue> := None)
      returns (r: Result<Queryset, ManagerError>)
      modifies filter
      ensures var c := ConvertedId(old(filter.entries), toObjectId);
        && (r.Failure? <==> c.Failure?)
        && (r.Failure? ==> r.error == c.error && filter.entries == old(filter.entries))
        && (r.Success? ==> filter.entries == c.value)
        && (r.Success? ==> r.value.total == collection.countDocuments(c.value))
        && (r.Success? ==>
              r.value.value == collection.run(PlanFor(c.value, ParseRemoveFields(removeFields), many,
                                                      skip, limit, this.limit, sort)))
    {
      var converted := ConvertIdField(filter, toObjectId);
      if converted.Failure? {
        return Failure(converted.error);
      }
      var query := converted.value.entries;
      var fieldsToRemove := ParseRemoveFields(removeFields);
      var count := collection.countDocuments(query);
      var plan: QueryPlan;
      if many {
        plan := CursorPlan(query, fieldsToRemove, None, None, None);
        if OptTruthy(skip) {
          plan := plan.(skip := skip);
        }
        if OptTruthy(limit) {
          plan := plan.(limit := limit);
        }
        if OptTruthy(this.limit) {
          plan := plan.(limit := this.limit);
        }
        if sort.Some? {
          plan := plan.(sort := sort);
        }
      } else {
        plan := FindOnePlan(query, fieldsToRemove);
      }
      var results := collection.run(plan);
      return Success(Queryset(results, count));
    }

    /** `create`: drops any client `_id`, inserts the rest, and returns the
        same mapping with `_id` set to the text of the generated id. */
    method Create(primitive: map<string, Json>) returns (data: map<string, Json>)
      ensures "_id" in data && data["_id"] == JStr(collection.insertOne(primitive - {"_id"}).hex)
      ensures data.Keys == primitive.Keys + {"_id"}
      ensures forall k :: k in primitive && k != "_id" ==> data[k] == primitive[k]
    {
      data := primitive;
      data := data - {"_id"};
      var insertedId := collection.insertOne(data);
      data := data["_id" := JStr(insertedId.hex)];
    }

    /** `update`: converts the filter, wraps the payload in `$set`, and
        issues `update_one`; since the wrapped payload has one key, the
        `update_many` branch is never taken. */
    method Update(filter: QueryFilter, data: Json, toObjectId: ObjectIdParser)
      returns (r: Result<WriteCall, ManagerError>)
      modifies filter
      ensures var c := ConvertedId(old(filter.entries), toObjectId);
        && (r.Failure? <==> c.Failure?)
        && (r.Failure? ==> r.error == c.error && filter.entries == old(filter.entries))
        && (r.Success? ==> filter.entries == c.value && r.value == UpdateOne(c.value, SetDocument(data)))
    {
      var converted := ConvertIdField(filter, toObjectId);
      if converted.Failure? {
        return Failure(converted.error);
      }
      var query := converted.value.entries;
      var update := SetDocument(data);
      var call := UpdateOne(query, update);
      if |update| > 1 {
        call := UpdateMany(query, update);
      }
      return Success(call);
    }

    /** `delete`: converts the filter and issues `delete_one` with it. */
    method Delete(filter: QueryFilter, toObjectId: ObjectIdParser)
      returns (r: Result<WriteCall, ManagerError>)
      modifies filter
      ensures var c := ConvertedId(old(filter.entries), toObjectId);
        && (r.Failure? <==> c.Failure?)
        && (r.Failure? ==> r.error == c.error && filter.entries == old(filter.entries))
        && (r.Success? ==> filter.entries == c.value && r.value == DeleteOne(c.value))
    {
      var converted := ConvertIdField(filter, toObjectId);
      if converted.Failure? {
        return Failure(converted.error);
      }
      return Success(DeleteOne(converted.value.entries));
    }
  }

  /** The id `create` returns, used as the `_id` of a later filter, converts
      back to the generated identifier, provided `ObjectId(str(oid))` is
      `oid` as for any identifier the driver generates. */
  lemma CreatedIdRoundTrips(m: MotorModelManager, primitive: map<string, Json>,
                            data: map<string, Json>, toObjectId: ObjectIdParser)
    requires "_id" in data && data["_id"] == JStr(m.collection.insertOne(primitive - {"_id"}).hex)
    requires var oid := m.collection.insertOne(primitive - {"_id"});
      oid.hex != "" && toObjectId(Str(oid.hex)) == Some(oid)
    ensures ConvertedId(map["_id" := Str(data["_id"].str)], toObjectId)
            == Success(map["_id" := Oid(m.collection.insertOne(primitive - {"_id"}))])
  {
    var oid := m.collection.insertOne(primitive - {"_id"});
    var entries := map["_id" := Str(data["_id"].str)];
    assert entries["_id"] == Str(oid.hex);
    assert entries["_id" := Oid(oid)] == map["_id" := Oid(oid)];
  }
}
