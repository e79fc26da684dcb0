# tornado_helpers core, modelled in Dafny

This project models the deterministic core of a small CRUD REST scaffolding
built on Tornado and the Motor MongoDB driver. The model covers two files.

- `contrib/base/handlers.py`, the `MongoAPIMixin` request handler:
  - the query-string translation of `extract_query_args`;
  - `prepare`, which moves `page` and `page_size` out of the filter, stores
    them on the manager and runs the ordered permission and authentication
    checks;
  - the field check of `validate_body_data`, the projection policy of
    `get_queryset`, and the count/results fallback of `paginate_response`.
- `base/managers.py`, the `Queryset` result container and `MotorModelManager`:
  - projection building and in-place `_id` conversion;
  - the read plan `find` configures (skip, limit, sort precedence) and the
    total it reports;
  - the `_id` strip-and-restamp of `create`, the `$set` wrapping of `update`,
    and the filter of `delete`.

One request is modelled sequentially. Five modules:

- `Wrappers` holds `Option` and `Result`.
- `Values` holds the filter-value variant (`Int`, `Str`, `IntList`, `StrList`,
  plus `Oid` for a converted `_id`), a JSON value type, Python truthiness, the
  `Outcome` (status and body) that replaces `json_response` + `Finish`, and
  `QueryFilter`, the mutable dict shared between handler and manager.
- `QueryArgs` holds the pure string work and the specification function
  `Extracted` of the translation loop.
- `Managers` and `Handlers` hold the two source files, with classes whose
  fields are updated in place:
  - `Handler.Prepare` writes `Handler.queryFilter/page/pageSize` and the
    manager's `MotorModelManager.skip/limit`; no method of the manager
    writes those two fields itself.
  - `Handler.ExtractQueryArgs` pops the last value off each entry of
    `Request.queryArguments`.
  - `MotorModelManager.ConvertIdField`, which `Find`, `Update` and `Delete`
    call, rewrites the `_id` entry of the `QueryFilter` it is given.

The database, the `ObjectId` constructor, the paginator and the permission
and authentication classes are oracles passed in as parameters:

- `Collection` holds the counting, reading and inserting oracles.
- `ObjectIdParser` stands for `ObjectId(value)`.
- `Paginator` stands for `Paginator(...).page(n)`.
- `PermissionClass` and `AuthenticationClass` carry the verdicts those
  classes give.

Behaviour of the code that the model keeps as written:

- The manager's `skip` is the page number itself, not `page * page_size`.
- The `update_many` branch of `update` can never run.
- Python's `str.replace('__', '.')` scans left to right, so `a___b` becomes
  `a._b`.

Two orderings in `prepare` matter to callers:

- The permission checks run before authentication
  (contrib/base/handlers.py:77-78), so a request failing both gets 403,
  not 401.
- The page number itself becomes the manager's skip
  (contrib/base/handlers.py:75), so page n skips n documents, not n pages;
  page 0 skips nothing.

Python's `int()` is modelled as an optional `+`/`-` followed by one or more
ASCII digits.

## Model

| member | source | states |
|---|---|---|
| `QueryArgs.Split` | contrib/base/handlers.py:91 | `str.split(',')` never returns an empty list |
| `QueryArgs.SplitLength` | contrib/base/handlers.py:91 | there is one more piece than there are commas |
| `QueryArgs.SplitPiecesHaveNoComma` | contrib/base/handlers.py:91 | no piece contains a comma |
| `QueryArgs.JoinSplit` | contrib/base/handlers.py:91 | joining the pieces with commas gives the raw value back |
| `QueryArgs.SplitJoin` | contrib/base/handlers.py:91 | splitting comma-free pieces joined by commas gives the pieces back |
| `QueryArgs.ParseInt` | contrib/base/handlers.py:97 | `int(piece)` succeeds exactly on an optional sign followed by digits; the sign decides the sign of the result |
| `QueryArgs.IntToString` | base/managers.py:18 | `str(n)` as the repr's f-string writes it: never contains a comma; `ParseIntOfIntToString` proves it parses back to `n` |
| `QueryArgs.ParseIntOfIntToString` | contrib/base/handlers.py:97 | every integer's decimal text parses back to that integer |
| `QueryArgs.DigitsValueOfNatToString` | contrib/base/handlers.py:97 | the digits of a natural number evaluate back to it |
| `QueryArgs.ParseValueCases` | contrib/base/handlers.py:91-105 | the value is an int or int list exactly when every piece is an integer literal, and a scalar exactly when there is no comma; a string scalar is the raw value; a list has commas+1 elements in order, and a string list joins back to the raw value |
| `QueryArgs.ParseValueOfRenderedInts` | contrib/base/handlers.py:96-100 | the comma-joined text of n ≥ 1 integers parses to the int (n = 1) or to the list of ints in order |
| `QueryArgs.ParseValue` | contrib/base/handlers.py:91-105 | the value rule of one raw query value; `ParseValueCases` characterises all four branches and `ParseValueOfRenderedInts` gives its inverse on integer text |
| `QueryArgs.ExampleIntList` | contrib/base/handlers.py:96-100 | `1,2,3` gives `[1, 2, 3]` |
| `QueryArgs.ExampleInt` | contrib/base/handlers.py:97-99 | `5` gives the int `5` |
| `QueryArgs.ExampleStrList` | contrib/base/handlers.py:102-105 | `a,b` gives `["a", "b"]` |
| `QueryArgs.ReplaceDunder` | contrib/base/handlers.py:94 | the translated key is no longer than the key, and starts with `.` when the key starts with `__` |
| `QueryArgs.ReplaceDunderSegment` | contrib/base/handlers.py:94 | every `__` becomes `.`: the text before the first `__` is kept, the pair becomes one `.`, and the rest of the key is translated the same way |
| `QueryArgs.ReplaceDunderLeavesNoDunder` | contrib/base/handlers.py:94 | a translated key never contains `__` |
| `QueryArgs.ReplaceDunderKeepsPlainKey` | contrib/base/handlers.py:94 | a key without `__` is unchanged |
| `QueryArgs.ReplaceDunderIdempotent` | contrib/base/handlers.py:94 | translating twice equals translating once |
| `QueryArgs.ExampleNestedKey` | contrib/base/handlers.py:94 | `user__id` becomes `user.id` |
| `QueryArgs.PopLast` | contrib/base/handlers.py:89 | `list_data.pop()` keeps the key and removes exactly the last value |
| `QueryArgs.PopAll` | contrib/base/handlers.py:88-89 | the request arguments after the loop: as many as before, each with exactly its last value popped (`PopAllStep` ties it to one iteration) |
| `QueryArgs.ExtractedEmpty` | contrib/base/handlers.py:84-85 | no query arguments give an empty filter |
| `QueryArgs.Extracted` | contrib/base/handlers.py:87-105 | the filter the loop builds; `ExtractedKeys` and `ExtractedAt` characterise its keys and entries, `ExtractedStep` one iteration |
| `QueryArgs.ExtractedKeys` | contrib/base/handlers.py:87-105 | the filter's keys are exactly the translated request keys |
| `QueryArgs.ExtractedAt` | contrib/base/handlers.py:87-105 | a key's entry is the parse of the last value of the last argument translating to that key; later colliding keys overwrite earlier ones |
| `QueryArgs.ExtractedKeysHaveNoDunder` | contrib/base/handlers.py:94 | no filter key contains `__` |
| `QueryArgs.ExtractedUsesOnlyLastValues` | contrib/base/handlers.py:88-90 | requests with the same keys and the same last values give the same filter |
| `QueryArgs.ExtractedStep` | contrib/base/handlers.py:87-105 | one loop iteration stores the next argument's entry into the filter built so far |
| `QueryArgs.PopAllStep` | contrib/base/handlers.py:88-89 | one loop iteration pops exactly the next argument's last value |
| `QueryArgs.ExtractedThree` | contrib/base/handlers.py:87-105 | a three-argument request's filter, entry by entry in order |
| `QueryArgs.ExampleRequestFilter` | contrib/base/handlers.py:80-107 | `?status=1,2,3&user__id=5&tag=a,b` gives `{status: [1,2,3], "user.id": 5, tag: ["a","b"]}` |
| `Handlers.Handler.ExtractQueryArgs` | contrib/base/handlers.py:80-107 | returns a new dict equal to `Extracted` of the request's arguments, and leaves every argument with its last value popped |
| `Handlers.Handler.Prepare` | contrib/base/handlers.py:71-78 | the filter is the extracted one without `page`/`page_size`; page defaults to 0 and page size to the handler's (20); the manager's skip is the page itself and its limit the page size; the outcome is `Gate` (permissions, then authentication) |
| `Handlers.Handler.constructor` | contrib/base/handlers.py:12-24 | a new handler has a fresh manager with no skip/limit and the class page size 20 |
| `Handlers.FirstDenied` | contrib/base/handlers.py:34-39 | finds the first denying class: every class before it grants, and none at all is found exactly when all grant |
| `Handlers.Denial` | contrib/base/handlers.py:34-46 | no response exactly when all classes grant; otherwise 403 with the message of the first class that denies |
| `Handlers.Handler.CheckPermissions` | contrib/base/handlers.py:34-39 | the loop with early exit returns `Denial` over the `has_permission` verdicts |
| `Handlers.Handler.CheckObjectPermissions` | contrib/base/handlers.py:41-46 | the loop with early exit returns `Denial` over the `has_object_permission` verdicts for the object |
| `Handlers.Handler.CheckAuthentication` | contrib/base/handlers.py:48-52 | 401 with `unauthorized_message` exactly when authentication fails |
| `Handlers.Gate` | contrib/base/handlers.py:77-78 | the request passes exactly when every permission grants and authentication succeeds; any denial gives 403; authentication failure alone gives 401 |
| `Handlers.PermissionsBeforeAuthentication` | contrib/base/handlers.py:77-78 | a request that fails both checks gets 403 |
| `Handlers.ValidateBodyData` | contrib/base/handlers.py:162-179 | accepts exactly when body keys ⊆ model fields and are disjoint from protected fields; an unknown field gives the "Campo(s) não existente(s)" 400, otherwise a protected field gives the protected-field 400 |
| `Handlers.UnknownFieldCheckedFirst` | contrib/base/handlers.py:170-175 | a body with both an unknown and a protected field gets the unknown-field 400 |
| `Values.ErrorBody` | contrib/base/handlers.py:174 | the handler's error body is `{'error': [message]}` with the single key `error` |
| `Handlers.AsList` | contrib/base/handlers.py:128-129 | a non-list value reaches the paginator as a one-element list, a list as itself |
| `Handlers.Handler.EffectivePageSize` | contrib/base/handlers.py:116 | the argument page size when truthy, the handler's otherwise |
| `Handlers.Handler.PaginateResponse` | contrib/base/handlers.py:112-160 | `count` is always the queryset's total; `results` is the paginator's page of the list-wrapped value, or `[]` when it raises `EmptyPage`/`ValueError`; page 1 is the default |
| `Handlers.Handler.GetQueryset` | contrib/base/handlers.py:181-186 | reads with the handler's converted filter, the public role's fields removed, the default sort, and the manager's skip and limit; an invalid `_id` is an error and leaves the filter as it was |
| `Values.QueryFilter.Pop` | contrib/base/handlers.py:73-74 | `dict.pop(key, default)` returns the entry or the default and removes the key |
| `Values.QueryFilter.Set` | contrib/base/handlers.py:100 | `dict[key] = value` stores exactly that entry |
| `Managers.Queryset.AsDict` | base/managers.py:13-14 | `asdict` returns the stored value unchanged |
| `Managers.Len` | base/managers.py:17 | `len()` of the stored value: the size of a list, dict or string, and `None` for the `TypeError` on any other value; read back by `ReprCountReadsBack` |
| `Managers.Queryset.ReprCount` | base/managers.py:16-17 | the repr's count is `len(value)` when total > 1, otherwise total |
| `Managers.Queryset.Repr` | base/managers.py:16-18 | the repr is `<Queryset (count of total)>`, and fails exactly when `len` does |
| `Managers.ReprCountReadsBack` | base/managers.py:16-18 | the repr text is `<Queryset (`, then the count, then ` of `, then the total, then `)>`, and both numbers parse back from their slices of the text |
| `Managers.ParseRemoveFields` | base/managers.py:100-103 | None exactly for a missing or empty list; otherwise the keys are exactly the listed fields, each mapped to 0 |
| `Managers.ConvertedId` | base/managers.py:90-94 | only a present, truthy `_id` is converted; a failed parse is an error; keys and all other entries are unchanged |
| `Managers.ConvertedIdIdempotent` | base/managers.py:90-94 | converting an already converted filter changes nothing when the parser accepts its own identifiers |
| `Managers.MotorModelManager.ConvertIdField` | base/managers.py:90-98 | mutates the given dict to `ConvertedId` and returns that same object; on failure the dict is unchanged |
| `Managers.MotorModelManager.constructor` | base/managers.py:20-25 | a new manager has no skip and no limit |
| `Managers.PlanFor` | base/managers.py:34-47 | a cursor exactly when `many`; filter and projection carried unchanged |
| `Values.Truthy` | base/managers.py:36-42 | Python truthiness of a filter value as the `if self.skip:`, `if limit:` and `if self.limit:` tests read it: zero, `""` and empty lists are false; `ManagerLimitWins` states the plan those tests give |
| `Values.OptTruthy` | base/managers.py:92 | truthiness of a value that may be `None`, as the `if has_id_field:` test reads `query_filter.get('_id')`; `ConvertedId` and `ConvertedIdIdempotent` state what it decides |
| `Managers.ManagerLimitWins` | base/managers.py:36-43 | the cursor skips by exactly the manager's skip when it is truthy and not at all otherwise; a truthy manager limit overrides the call's limit; the sort is carried as given |
| `Managers.MotorModelManager.Find` | base/managers.py:27-52 | converts the filter in place; total is the count of the converted filter alone; the value is the run of `PlanFor`; an invalid id is an error that leaves the filter untouched |
| `Managers.MotorModelManager.Create` | base/managers.py:54-60 | the inserted document has no `_id`; the result has the input's keys plus `_id`, whose value is the generated id as text; all other fields are unchanged |
| `Managers.CreatedIdRoundTrips` | base/managers.py:54-60 | the returned `_id` text, used as a filter, converts back to the generated identifier |
| `Managers.SetDocument` | base/managers.py:64-66 | the update document is `{"$set": data}` with exactly one key |
| `Managers.MotorModelManager.Update` | base/managers.py:62-74 | converts the filter in place and always issues `update_one` with `{"$set": data}`; never `update_many` |
| `Managers.MotorModelManager.Delete` | base/managers.py:76-79 | converts the filter in place and issues `delete_one` with it |

## Left out

- UTF-8 decoding of query values (`encoded_arg.decode('utf8')`): values arrive as strings, so a decoding error is not modelled.
- `Handlers.Handler.ExtractQueryArgs` and `Handlers.Handler.Prepare` require every query key to carry at least one value. Tornado's query parsing guarantees this; the `IndexError` of popping an empty list is not modelled.
- Python `int()` edge cases: surrounding whitespace, `_` digit separators and non-ASCII digits are not accepted by `QueryArgs.ParseInt`.
- The database calls (`count_documents`, `find`/`to_list`, `find_one`, `insert_one`, `update_one`, `update_many`, `delete_one`, `create_index`): they are oracles, or the model returns the call it would issue. The result objects they return, and their truthiness in `patch` and `delete`, are not modelled.
- The driver's type and range checks on `skip`/`limit` values: a non-integer page, or a negative one such as `?page=-1`, is carried into the plan as it is. The total `run` oracle cannot express the driver rejecting it.
- `_parse_json` (BSON to JSON normalisation) is folded into the `run` oracle. `get_collection` and `create_index` are pure delegation and are not modelled.
- `ObjectId(...)` parsing is an oracle (`ObjectIdParser`); its failure is the `InvalidId` error.
- Tornado plumbing: `write`, `set_status`, `Finish`, the `db_client`/`db` settings lookups, and `get_body_data`'s `json.loads`. `validate_body_data` takes the body's key set directly.
- The model classes (`MongoModel`, `validate`, `is_valid`, `to_primitive`, roles, `get_protected_fields`): field sets, the public role's fields and the primitive mapping are parameters.
- `Handlers.Handler.PaginateResponse`: the `next`/`previous` URL rebuilding (`urlparse`, `parse_qs`, `urlencode`) is not modelled. `Paginator`/`EmptyPage` are an oracle, because `contrib/base/pagination.py` is not part of this model.
- The views (`ModelAPIView.get/list/retrieve/post/patch/delete`, `CreateAPIView`, `RetrieveAPIView`) are dispatch glue and are not modelled beyond `get_queryset`. Their decisions rest on oracle results and their truthiness.
- Async/await, and the cross-request race on the manager shared through the model class: one request is modelled sequentially.
- `Managers.MotorModelManager.Find`: the default argument `query_filter={}` is not modelled; the filter is always passed.
