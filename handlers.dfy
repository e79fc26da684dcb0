/** `contrib/base/handlers.py`: the request-handler mixin. One request is
    modelled sequentially: query-string translation, `prepare` (pagination
    state and the ordered permission and authentication checks), the body
    field validation, the projection of `get_queryset`, and the count and
    results of `paginate_response`. A response that ends the request is
    returned as an `Outcome` instead of being raised as `Finish`. */
module Handlers {
  import opened Wrappers
  import opened Values
  import opened QueryArgs
  import opened Managers

  /** The class attribute `page_size`. */
  const DEFAULT_PAGE_SIZE: int := 20

  const UNKNOWN_FIELDS_MESSAGE: string := "Campo(s) não existente(s) no modelo."
  const PROTECTED_FIELDS_MESSAGE: string := "Não são permitidas alterações de campos protegidos."

  /** The part of the HTTP request the handler reads: the query arguments,
      each key with its list of values, in the order they arrived. */
  class Request {
    var queryArguments: seq<QueryArg>

    constructor (queryArguments: seq<QueryArg>)
      ensures this.queryArguments == queryArguments
    {
      this.queryArguments := queryArguments;
    }
  }

  /** A permission class: its denial message and the verdicts its
      `has_permission` and `has_object_permission` give for this request. */
  datatype PermissionClass = PermissionClass(
    message: Json,
    hasPermission: bool,
    hasObjectPermission: Json -> bool)

  /** The authentication class: its `unauthorized_message` and the verdict
      its `authenticate` gives for this request. */
  datatype AuthenticationClass = AuthenticationClass(unauthorizedMessage: Json, authenticates: bool)

  function RequestVerdicts(perms: seq<PermissionClass>): (verdicts: seq<bool>)
    ensures |verdicts| == |perms|
    ensures forall i :: 0 <= i < |perms| ==> verdicts[i] == perms[i].hasPermission
  {
    seq(|perms|, i requires 0 <= i < |perms| => perms[i].hasPermission)
  }

  function ObjectVerdicts(perms: seq<PermissionClass>, obj: Json): (verdicts: seq<bool>)
    ensures |verdicts| == |perms|
    ensures forall i :: 0 <= i < |perms| ==> verdicts[i] == perms[i].hasObjectPermission(obj)
  {
    seq(|perms|, i requires 0 <= i < |perms| => perms[i].hasObjectPermission(obj))
  }

  /** The index of the first permission class that denies, if any. */
  function FirstDenied(verdicts: seq<bool>): (r: Option<nat>)
    ensures r.None? <==> forall i :: 0 <= i < |verdicts| ==> verdicts[i]
    ensures r.Some? ==> r.value < |verdicts| && !verdicts[r.value]
    ensures r.Some? ==> forall j :: 0 <= j < r.value ==> verdicts[j]
    decreases |verdicts|
  {
    if verdicts == [] then None
    else if !verdicts[0] then Some(0)
    else match FirstDenied(verdicts[1..])
      case None => None
      case Some(i) => Some(i + 1)
  }

  /** The response of a permission check: 403 with the message of the first
      class that denies, or nothing when every class grants. */
  function Denial(perms: seq<PermissionClass>, verdicts: seq<bool>): (o: Option<Outcome>)
    requires |verdicts| == |perms|
    ensures o.None? <==> forall i :: 0 <= i < |verdicts| ==> verdicts[i]
    ensures o.Some? ==> exists i :: 0 <= i < |perms| && !verdicts[i]
                                    && (forall j :: 0 <= j < i ==> verdicts[j])
                                    && o.value == Outcome(403, perms[i].message)
  {
    match FirstDenied(verdicts)
    case None => None
    case Some(i) => Some(Outcome(403, perms[i].message))
  }

  /** The decision `prepare` reaches after its pagination work: permissions
      first, then authentication. */
  function Gate(perms: seq<PermissionClass>, auth: AuthenticationClass): (o: Option<Outcome>)
    ensures o.None? <==> (forall i :: 0 <= i < |perms| ==> perms[i].hasPermission) && auth.authenticates
    ensures (exists i :: 0 <= i < |perms| && !perms[i].hasPermission) ==> o.Some? && o.value.status == 403
    ensures ((forall i :: 0 <= i < |perms| ==> perms[i].hasPermission) && !auth.authenticates) ==>
              o == Some(Outcome(401, auth.unauthorizedMessage))
  {
    var denial := Denial(perms, RequestVerdicts(perms));
    if denial.Some? then denial
    else if !auth.authenticates then Some(Outcome(401, auth.unauthorizedMessage))
    else None
  }

  /** `validate_body_data`: the unknown-field check comes first, then the
      protected-field check; each failure is a 400 with its own message. */
  function ValidateBodyData(bodyKeys: set<string>, modelFields: set<string>, protectedFields: set<string>)
    : (r: Option<Outcome>)
    ensures r.None? <==> bodyKeys <= modelFields && bodyKeys !! protectedFields
    ensures !(bodyKeys <= modelFields) ==> r == Some(Outcome(400, ErrorBody(UNKNOWN_FIELDS_MESSAGE)))
    ensures (bodyKeys <= modelFields && !(bodyKeys !! protectedFields)) ==>
              r == Some(Outcome(400, ErrorBody(PROTECTED_FIELDS_MESSAGE)))
  {
    var hasRightFields := forall field :: field in bodyKeys ==> field in modelFields;
    var hasProtectedFields := exists field :: field in bodyKeys && field in protectedFields;
    if !hasRightFields then Some(Outcome(400, ErrorBody(UNKNOWN_FIELDS_MESSAGE)))
    else if hasProtectedFields then Some(Outcome(400, ErrorBody(PROTECTED_FIELDS_MESSAGE)))
    else None
  }

  /** What `paginate_response` hands the paginator: a list as it is, any
      other value wrapped in a one-element list. */
  function AsList(v: Json): (items: seq<Json>)
    ensures v.JList? ==> items == v.items
    ensures !v.JList? ==> |items| == 1 && items[0] == v
  {
    if v.JList? then v.items else [v]
  }

  /** The paginator, as an oracle: given the data, the page size, the total
      count and the page number, the page's object list, or `None` when it
      raises `EmptyPage` or `ValueError`. */
  type Paginator = (seq<Json>, FilterValue, int, int) -> Option<seq<Json>>

  /** The count and results of `paginate_response`'s dictionary. */
  datatype PageResponse = PageResponse(count: int, results: seq<Json>)

  class Handler {
    const request: Request
    const manager: MotorModelManager
    const permissions: seq<PermissionClass>
    const authentication: AuthenticationClass
    var queryFilter: QueryFilter
    var page: FilterValue
    var pageSize: FilterValue

    /** `__init__`: attaches a new manager over the model's collection. */
    constructor (request: Request, collection: Collection,
                 permissions: seq<PermissionClass>, authentication: AuthenticationClass)
      ensures this.request == request && this.permissions == permissions
      ensures this.authentication == authentication
      ensures fresh(manager) && manager.collection == collection
      ensures manager.skip == None && manager.limit == None
      ensures pageSize == Int(DEFAULT_PAGE_SIZE)
      ensures fresh(queryFilter) && queryFilter.entries == map[]
    {
      this.request := request;
      this.permissions := permissions;
      this.authentication := authentication;
      manager := new MotorModelManager(collection);
      queryFilter := new QueryFilter(map[]);
      page := Int(0);
      pageSize := Int(DEFAULT_PAGE_SIZE);
    }

    /** `extract_query_args`: visits the request's keys in order, pops the
        last value of each, and stores its parse under the translated key. */
    method ExtractQueryArgs() returns (filter: QueryFilter)
      requires HasValues(request.queryArguments)
      modifies request
      ensures fresh(filter)
      ensures filter.entries == Extracted(old(request.queryArguments))
      ensures request.queryArguments == PopAll(old(request.queryArguments))
    {
      filter := new QueryFilter(map[]);
      var args := request.queryArguments;
      if |args| == 0 {
        assert args[..0] == args;
        return;
      }
      var i := 0;
      while i < |args|
        invariant 0 <= i <= |args|
        invariant filter.entries == Extracted(args[..i])
        invariant request.queryArguments == PopAll(args[..i]) + args[i..]
      {
        ExtractedStep(args, i);
        PopAllStep(args, i);
        var listData := args[i].values;
        var encodedArg := listData[|listData| - 1];
        request.queryArguments := request.queryArguments[i := QueryArg(args[i].name, listData[..|listData| - 1])];
        var key := ReplaceDunder(args[i].name);
        filter.Set(key, ParseValue(encodedArg));
        i := i + 1;
      }
      assert args[..i] == args;
    }

    /** `check_permissions`: the permission classes in list order; the first
        that denies ends the request with 403 and its message. */
    method CheckPermissions() returns (o: Option<Outcome>)
      ensures o == Denial(permissions, RequestVerdicts(permissions))
    {
      var i := 0;
      while i < |permissions|
        invariant 0 <= i <= |permissions|
        invariant forall j :: 0 <= j < i ==> permissions[j].hasPermission
      {
        if !permissions[i].hasPermission {
          return Some(Outcome(403, permissions[i].message));
        }
        i := i + 1;
      }
      return None;
    }

    /** `check_object_permissions`: the same fold over the verdicts for one
        object. */
    method CheckObjectPermissions(obj: Json) returns (o: Option<Outcome>)
      ensures o == Denial(permissions, ObjectVerdicts(permissions, obj))
    {
      var i := 0;
      while i < |permissions|
        invariant 0 <= i <= |permissions|
        invariant forall j :: 0 <= j < i ==> permissions[j].hasObjectPermission(obj)
      {
        if !permissions[i].hasObjectPermission(obj) {
          return Some(Outcome(403, permissions[i].message));
        }
        i := i + 1;
      }
      return None;
    }

    /** `check_authentication`: 401 with the class's message when the
        request is not authenticated. */
    method CheckAuthentication() returns (o: Option<Outcome>)
      ensures o.None? <==> authentication.authenticates
      ensures o.Some? ==> o.value == Outcome(401, authentication.unauthorizedMessage)
    {
      if !authentication.authenticates {
        return Some(Outcome(401, authentication.unauthorizedMessage));
      }
      return None;
    }

    /** `prepare`: builds the filter, moves `page` (default 0) and
        `page_size` (default the handler's page size) out of it, stores them
        as the manager's skip and limit, then runs the permission checks and
        the authentication check, in that order. */
    method Prepare() returns (o: Option<Outcome>)
      requires HasValues(request.queryArguments)
      modifies this, request, manager
      ensures fresh(queryFilter)
      ensures var extracted := Extracted(old(request.queryArguments));
        && queryFilter.entries == extracted - {"page", "page_size"}
        && page == (if "page" in extracted then extracted["page"] else Int(0))
        && pageSize == (if "page_size" in extracted then extracted["page_size"] else old(pageSize))
      ensures request.queryArguments == PopAll(old(request.queryArguments))
      ensures manager.skip == Some(page) && manager.limit == Some(pageSize)
      ensures o == Gate(permissions, authentication)
    {
      ghost var extracted := Extracted(request.queryArguments);
      queryFilter := ExtractQueryArgs();
      assert queryFilter.entries == extracted;
      page := queryFilter.Pop("page", Int(0));
      pageSize := queryFilter.Pop("page_size", pageSize);
      manager.skip := Some(page);
      manager.limit := Some(pageSize);
      o := CheckPermissions();
      if o.Some? {
        return;
      }
      o := CheckAuthentication();
    }

    /** `get_queryset`: reads with the handler's filter, always removing the
        fields of the model's public role. */
    method GetQueryset(publicFields: seq<string>, toObjectId: ObjectIdParser, many: bool := true)
      returns (r: Result<Queryset, ManagerError>)
      modifies queryFilter
      ensures var c := ConvertedId(old(queryFilter.entries), toObjectId);
        && (r.Failure? <==> c.Failure?)
        && (r.Success? ==> queryFilter.entries == c.value)
        && (r.Failure? ==> r.error == c.error && queryFilter.entries == old(queryFilter.entries))
        && (r.Success? ==>
              r.value == Queryset(
                manager.collection.run(PlanFor(c.value, ParseRemoveFields(Some(publicFields)), many,
                                               manager.skip, None, manager.limit, Some(DEFAULT_SORT))),
                manager.collection.countDocuments(c.value)))
    {
      r := manager.Find(queryFilter, toObjectId, many := many, removeFields := Some(publicFields));
    }

    /** The page size `paginate_response` uses: the argument when it is
        truthy, the handler's own otherwise. */
    function EffectivePageSize(pageSizeArg: Option<FilterValue>): (size: FilterValue)
      reads this
      ensures OptTruthy(pageSizeArg) ==> size == pageSizeArg.value
      ensures !OptTruthy(pageSizeArg) ==> size == pageSize
    {
      if OptTruthy(pageSizeArg) then pageSizeArg.value else pageSize
    }

    /** `paginate_response`: the count is always the queryset's total; the
        results are the paginator's page of the (list-wrapped) value, or
        empty when the paginator raises. `list` calls it with the default
        page 1. */
    function PaginateResponse(qs: Queryset, paginator: Paginator,
                              currentPage: int := 1, pageSizeArg: Option<FilterValue> := None)
      : (r: PageResponse)
      reads this
      ensures r.count == qs.total
      ensures var p := paginator(AsList(qs.value), EffectivePageSize(pageSizeArg), qs.total, currentPage);
        r.results == if p.Some? then p.value else []
    {
      var data := AsList(qs.value);
      var size := EffectivePageSize(pageSizeArg);
      match paginator(data, size, qs.total, currentPage)
      case None => PageResponse(qs.total, [])
      case Some(objectList) => PageResponse(qs.total, objectList)
    }
  }

  /** A request that fails both a permission check and authentication is
      answered 403, never 401. */
  lemma PermissionsBeforeAuthentication(perms: seq<PermissionClass>, auth: AuthenticationClass, i: nat)
    requires i < |perms| && !perms[i].hasPermission && !auth.authenticates
    ensures Gate(perms, auth).Some? && Gate(perms, auth).value.status == 403
  {
  }

  /** A body that names an unknown field and a protected one gets the
      unknown-field message. */
  lemma UnknownFieldCheckedFirst(bodyKeys: set<string>, modelFields: set<string>,
                                 protectedFields: set<string>, unknown: string, prot: string)
    requires unknown in bodyKeys && unknown !in modelFields
    requires prot in bodyKeys && prot in protectedFields
    ensures ValidateBodyData(bodyKeys, modelFields, protectedFields)
            == Some(Outcome(400, ErrorBody(UNKNOWN_FIELDS_MESSAGE)))
  {
  }
}
