/** The REST wrapper around the backend's todo collection: building each
    request, and turning what `fetch` yields into a value or an exception.
    `fetch` itself is not modelled; every call takes its outcome as input. */
module Api {
  import opened Wrappers
  import opened JsValues

  const BaseUrl: string := "http://localhost:4001/todos"

  const FetchFailed: string := "Failed to fetch todos"
  const FetchUpcomingFailed: string := "Failed to fetch upcoming todos"
  const AddFailed: string := "Failed to add todo"
  const UpdateFailed: string := "Failed to update todo"
  const DeleteFailed: string := "Failed to delete todo"

  datatype Verb = GET | POST | PATCH | DELETE

  /** A request as handed to `fetch`: method, URL, whether the
      `Content-Type: application/json` header is set, and the body object
      before `JSON.stringify`. */
  datatype Request = Request(verb: Verb, url: string, jsonHeader: bool, body: Option<Value>)

  /** What `response.json()` yields: the parsed value, or a rejection. */
  datatype Body = Parsed(value: Value) | Unparseable(cause: string)

  /** What `fetch` yields: a rejection, or a response. */
  datatype Outcome =
    | TransportFailure(cause: string)
    | Response(status: int, ok: bool, body: Body)

  // ---------------------------------------------------------------------
  // Query string of the list read

  /** A query parameter: name and value, before percent-encoding. */
  type Param = (string, string)

  /** The filter keys in the order they are appended. */
  const QueryKeys: seq<string> := ["status", "priority", "search", "sortBy"]

  /** The parameters appended for `keys`, one per key whose filter value is truthy. */
  function Included(keys: seq<string>, filters: Value): (r: seq<Param>)
    ensures |r| <= |keys|
  {
    if keys == [] then []
    else
      var v := Field(filters, keys[0]);
      (if Truthy(v) then [(keys[0], ToJsString(v))] else []) + Included(keys[1..], filters)
  }

  /** The parameter list, or the TypeError that reading `filters.status` of null raises. */
  function QueryParams(filters: Value): (r: Result<seq<Param>, Thrown>)
    ensures r.Failure? <==> IsNullish(filters)
    ensures r.Success? ==> |r.value| <= 4 && r.value == Included(QueryKeys, filters)
  {
    if IsNullish(filters) then Failure(PropertyOfNullish("status"))
    else Success(Included(QueryKeys, filters))
  }

  /** The four conditional appends of the source, step by step. Only the
      first read can throw: once it succeeded, `filters` is not nullish. */
  method BuildQueryParams(filters: Value) returns (r: Result<seq<Param>, Thrown>)
    ensures r == QueryParams(filters)
  {
    var params: seq<Param> := [];
    var status :- Get(filters, "status");
    if Truthy(status) { params := params + [("status", ToJsString(status))]; }
    assert Field(filters, "status") == status;
    assert params == Appended(filters, "status");
    var priority := Field(filters, "priority");
    if Truthy(priority) { params := params + [("priority", ToJsString(priority))]; }
    assert params == Appended(filters, "status") + Appended(filters, "priority");
    var search := Field(filters, "search");
    if Truthy(search) { params := params + [("search", ToJsString(search))]; }
    assert params == Appended(filters, "status") + Appended(filters, "priority") + Appended(filters, "search");
    var sortBy := Field(filters, "sortBy");
    if Truthy(sortBy) { params := params + [("sortBy", ToJsString(sortBy))]; }
    IncludedQueryKeys(filters);
    assert !IsNullish(filters);
    assert params == Included(QueryKeys, filters);
    assert QueryParams(filters) == Success(params);
    return Success(params);
  }

  function Appended(filters: Value, key: string): seq<Param> {
    var v := Field(filters, key);
    if Truthy(v) then [(key, ToJsString(v))] else []
  }

  /** One step of `Included`: the first key's parameter, then the rest. */
  lemma IncludedStep(keys: seq<string>, filters: Value)
    requires keys != []
    ensures Included(keys, filters) == Appended(filters, keys[0]) + Included(keys[1..], filters)
  {
  }

  /** The list for the four fixed keys, written out. */
  lemma IncludedQueryKeys(filters: Value)
    ensures Included(QueryKeys, filters) ==
      Appended(filters, "status") + Appended(filters, "priority")
      + Appended(filters, "search") + Appended(filters, "sortBy")
  {
    var k := QueryKeys;
    assert k[1..] == ["priority", "search", "sortBy"];
    assert k[1..][1..] == ["search", "sortBy"];
    assert k[1..][1..][1..] == ["sortBy"];
    assert k[1..][1..][1..][1..] == [];
    IncludedStep(k[1..][1..][1..], filters);
    IncludedStep(k[1..][1..], filters);
    IncludedStep(k[1..], filters);
    IncludedStep(k, filters);
  }

  function Names(params: seq<Param>): (r: seq<string>)
    ensures |r| == |params|
    ensures forall i :: 0 <= i < |params| ==> r[i] == params[i].0
  {
    if params == [] then [] else [params[0].0] + Names(params[1..])
  }

  /** `a` is `b` with some elements left out, the rest kept in order. */
  predicate IsSubsequence(a: seq<string>, b: seq<string>) {
    if a == [] then true
    else if b == [] then false
    else if a[0] == b[0] then IsSubsequence(a[1..], b[1..])
    else IsSubsequence(a, b[1..])
  }

  /** A parameter is present exactly for a key whose filter value is truthy,
      and carries that value's string form. */
  lemma {:induction false} IncludedMembers(keys: seq<string>, filters: Value, p: Param)
    ensures p in Included(keys, filters) <==>
      p.0 in keys && Truthy(Field(filters, p.0)) && p.1 == ToJsString(Field(filters, p.0))
  {
    if keys != [] {
      IncludedMembers(keys[1..], filters, p);
      assert keys == [keys[0]] + keys[1..];
    }
  }

  /** The parameters keep the keys' order. */
  lemma {:induction false} IncludedOrdered(keys: seq<string>, filters: Value)
    ensures IsSubsequence(Names(Included(keys, filters)), keys)
  {
    if keys != [] {
      IncludedOrdered(keys[1..], filters);
      var rest := Included(keys[1..], filters);
      var v := Field(filters, keys[0]);
      if Truthy(v) {
        var r := Included(keys, filters);
        assert r == [(keys[0], ToJsString(v))] + rest;
        assert Names(r) == [keys[0]] + Names(rest);
        assert Names(r)[1..] == Names(rest);
      } else {
        assert Included(keys, filters) == rest;
        SubsequenceDropHead(Names(rest), keys);
      }
    }
  }

  /** Dropping the first element of the longer sequence keeps a subsequence one. */
  lemma {:induction false} SubsequenceDropHead(a: seq<string>, b: seq<string>)
    requires b != [] && IsSubsequence(a, b[1..])
    ensures IsSubsequence(a, b)
    decreases |b|, 0
  {
    if a != [] && a[0] == b[0] {
      SubsequenceTail(a, b[1..]);
    }
  }

  lemma {:induction false} SubsequenceTail(a: seq<string>, c: seq<string>)
    requires a != [] && IsSubsequence(a, c)
    ensures IsSubsequence(a[1..], c)
    decreases |c|, 1
  {
    if a[0] == c[0] {
      SubsequenceDropHead(a[1..], c);
    } else {
      SubsequenceTail(a, c[1..]);
      SubsequenceDropHead(a[1..], c);
    }
  }

  /** No parameter at all exactly when every filter value is falsy. */
  lemma {:induction false} IncludedEmpty(keys: seq<string>, filters: Value)
    ensures Included(keys, filters) == [] <==> forall k :: k in keys ==> !Truthy(Field(filters, k))
  {
    if keys != [] {
      IncludedEmpty(keys[1..], filters);
      assert forall k :: k in keys <==> k == keys[0] || k in keys[1..];
    }
  }

  /** `URLSearchParams.toString()`: `name=value` pairs joined by "&",
      names and values passed through the form-urlencoded byte serializer
      `encode`. */
  function Serialize(params: seq<Param>, encode: string -> string): (s: string)
    ensures params != [] ==>
      |s| > |encode(params[0].0)| && s[..|encode(params[0].0)| + 1] == encode(params[0].0) + "="
  {
    Join(seq(|params|, i requires 0 <= i < |params| => encode(params[i].0) + "=" + encode(params[i].1)), "&")
  }

  lemma SerializeEmpty(params: seq<Param>, encode: string -> string)
    ensures Serialize(params, encode) == "" <==> params == []
  {
  }

  /** The list URL: the base, and "?" with the serialised parameters when there are any. */
  function ListUrl(params: seq<Param>, encode: string -> string): (url: string)
    ensures url == BaseUrl <==> params == []
    ensures params != [] ==> url == BaseUrl + "?" + Serialize(params, encode)
  {
    var query := Serialize(params, encode);
    SerializeEmpty(params, encode);
    BaseUrl + (if query != "" then "?" + query else "")
  }

  // ---------------------------------------------------------------------
  // The two list reads

  /** The body of a list read's `try` block after `fetch`: 404 is empty, any
      other failure status raises `message`, and an ok body is kept only
      when it is an array. */
  function ListBody(outcome: Outcome, message: string): (r: Result<seq<Value>, Thrown>)
    ensures r.Success? && r.value != [] ==>
      outcome.Response? && outcome.ok && outcome.body == Parsed(Arr(r.value))
    ensures outcome.Response? && !outcome.ok ==>
      r == if outcome.status == 404 then Success([]) else Failure(Error(message))
    ensures outcome.TransportFailure? ==> r == Failure(NetworkFailure(outcome.cause))
    ensures outcome.Response? && outcome.ok ==>
      r == match outcome.body
           case Unparseable(c) => Failure(InvalidJson(c))
           case Parsed(d) => Success(if d.Arr? then d.items else [])
  {
    match outcome
    case TransportFailure(cause) => Failure(NetworkFailure(cause))
    case Response(status, ok, body) =>
      if !ok then
        if status == 404 then Success([]) else Failure(Error(message))
      else
        match body
        case Unparseable(cause) => Failure(InvalidJson(cause))
        case Parsed(data) => Success(if data.Arr? then data.items else [])
  }

  /** `filters = {}`: an omitted argument is an empty object. */
  function WithDefault(filters: Value): Value {
    if filters.Undefined? then Obj(map[]) else filters
  }

  /** The request `getAllTodos(filters)` sends, or the exception raised before it. */
  function GetAllTodosRequest(filters: Value, encode: string -> string): (r: Result<Request, Thrown>)
    ensures r.Success? <==> !filters.Null?
    ensures r.Success? ==>
      (r.value.verb == GET && r.value.body == None && !r.value.jsonHeader
       && r.value.url == ListUrl(Included(QueryKeys, WithDefault(filters)), encode))
  {
    var params :- QueryParams(WithDefault(filters));
    Success(Request(GET, ListUrl(params, encode), false, None))
  }

  /** `getAllTodos(filters)`: what it resolves to when `fetch` yields
      `outcome`. Every exception is caught and gives the empty list. */
  function GetAllTodos(filters: Value, outcome: Outcome): (todos: seq<Value>)
    ensures todos != [] ==> outcome.Response? && outcome.ok && outcome.body == Parsed(Arr(todos))
    ensures (!filters.Null? && outcome.Response? && outcome.ok && outcome.body.Parsed?
             && outcome.body.value.Arr?) ==> todos == outcome.body.value.items
    ensures outcome.TransportFailure? || !outcome.ok || outcome.body.Unparseable? ==> todos == []
    ensures filters.Null? ==> todos == []
  {
    var attempt := (var _ :- QueryParams(WithDefault(filters)); ListBody(outcome, FetchFailed));
    attempt.GetOr([])
  }

  /** The request `getUpcomingTodos()` sends: a GET of the `upcoming` sub-resource. */
  function GetUpcomingTodosRequest(): (r: Request)
    ensures r.verb == GET && r.body == None && !r.jsonHeader
    ensures |r.url| == |BaseUrl| + 9 && r.url[..|BaseUrl|] == BaseUrl && r.url[|BaseUrl|..] == "/upcoming"
  {
    Request(GET, BaseUrl + "/upcoming", false, None)
  }

  /** `getUpcomingTodos()` when `fetch` yields `outcome`. */
  function GetUpcomingTodos(outcome: Outcome): (todos: seq<Value>)
    ensures todos != [] ==> outcome.Response? && outcome.ok && outcome.body == Parsed(Arr(todos))
    ensures outcome.Response? && outcome.ok && outcome.body.Parsed? && outcome.body.value.Arr? ==>
      todos == outcome.body.value.items
  {
    ListBody(outcome, FetchUpcomingFailed).GetOr([])
  }

  /** The upcoming read resolves exactly like an unfiltered list read. */
  lemma UpcomingLikeList(outcome: Outcome, filters: Value)
    requires !filters.Null?
    ensures GetUpcomingTodos(outcome) == GetAllTodos(filters, outcome)
  {
  }

  // ---------------------------------------------------------------------
  // The three mutating calls

  /** What a mutating call resolves to: the parsed body when ok; otherwise
      an Error with the body's truthy `error` field or `fallback`. A null
      error body, a body that does not parse and a transport failure each
      propagate their own exception. */
  function MutationResult(outcome: Outcome, fallback: string): (r: Result<Value, Thrown>)
    ensures r.Success? <==> outcome.Response? && outcome.ok && outcome.body.Parsed?
    ensures r.Success? ==> r.value == outcome.body.value
    ensures outcome.TransportFailure? ==> r == Failure(NetworkFailure(outcome.cause))
    ensures outcome.Response? && outcome.body.Unparseable? ==> r == Failure(InvalidJson(outcome.body.cause))
    ensures outcome.Response? && !outcome.ok && outcome.body == Parsed(Null) ==>
      r == Failure(PropertyOfNullish("error"))
    ensures outcome.Response? && !outcome.ok && outcome.body.Parsed? && !IsNullish(outcome.body.value) ==>
      var e := Field(outcome.body.value, "error");
      r == Failure(Error(if Truthy(e) then ToJsString(e) else fallback))
  {
    match outcome
    case TransportFailure(cause) => Failure(NetworkFailure(cause))
    case Response(_, ok, body) =>
      match body
      case Unparseable(cause) => Failure(InvalidJson(cause))
      case Parsed(data) =>
        if !ok then
          var e :- Get(data, "error");
          Failure(Error(if Truthy(e) then ToJsString(e) else fallback))
        else Success(data)
  }

  /** A backend `error` string that is not empty becomes the message unchanged. */
  lemma BackendMessageWins(status: int, message: string, fallback: string)
    requires message != ""
    ensures MutationResult(Response(status, false, Parsed(Obj(map["error" := Str(message)]))), fallback)
      == Failure(Error(message))
  {
  }

  /** The object `addTodo` posts: title, description and dueDate read from
      `todo`, `Status` fixed to "pending", and `priority` defaulting to
      "medium" when falsy. */
  function CreateBody(todo: Value): (r: Result<Value, Thrown>)
    ensures r.Failure? <==> IsNullish(todo)
    ensures r.Success? ==>
      (r.value.Obj?
      && r.value.fields.Keys == {"title", "description", "Status", "priority", "dueDate"}
      && r.value.fields["Status"] == Str("pending")
      && r.value.fields["title"] == Field(todo, "title")
      && r.value.fields["description"] == Field(todo, "description")
      && r.value.fields["dueDate"] == Field(todo, "dueDate")
      && r.value.fields["priority"] ==
           (if Truthy(Field(todo, "priority")) then Field(todo, "priority") else Str("medium")))
  {
    // only the first read, `todo.title`, can throw
    var title :- Get(todo, "title");
    var description := Field(todo, "description");
    var priority := Field(todo, "priority");
    var dueDate := Field(todo, "dueDate");
    Success(Obj(map[
      "title" := title,
      "description" := description,
      "Status" := Str("pending"),
      "priority" := if Truthy(priority) then priority else Str("medium"),
      "dueDate" := dueDate]))
  }

  /** The posted body does not depend on the input's own `Status` or on
      any field other than the four it reads. */
  lemma CreateBodyReadsFourFields(a: Value, b: Value)
    requires a.Obj? && b.Obj?
    requires forall k :: k in ["title", "description", "priority", "dueDate"] ==> Field(a, k) == Field(b, k)
    ensures CreateBody(a) == CreateBody(b)
  {
  }

  function AddTodoRequest(todo: Value): (r: Result<Request, Thrown>)
    ensures r.Success? <==> !IsNullish(todo)
    ensures r.Success? ==>
      (r.value.verb == POST && r.value.url == BaseUrl && r.value.jsonHeader
       && r.value.body.Some? && CreateBody(todo) == Success(r.value.body.value))
  {
    var body :- CreateBody(todo);
    Success(Request(POST, BaseUrl, true, Some(body)))
  }

  /** The `error` field of a failure body, when there is one to read. */
  function ErrorField(outcome: Outcome): Value {
    if outcome.Response? && outcome.body.Parsed? then Field(outcome.body.value, "error") else Undefined
  }

  /** The message a mutating call raises: the truthy `error` field, or `fallback`. */
  function RaisedMessage(outcome: Outcome, fallback: string): string {
    var e := ErrorField(outcome);
    if Truthy(e) then ToJsString(e) else fallback
  }

  /** `addTodo(todo)` when `fetch` yields `outcome`. */
  function AddTodo(todo: Value, outcome: Outcome): (r: Result<Value, Thrown>)
    ensures IsNullish(todo) ==> r == Failure(PropertyOfNullish("title"))
    ensures r.Success? <==> !IsNullish(todo) && outcome.Response? && outcome.ok && outcome.body.Parsed?
    ensures r.Success? ==> r.value == outcome.body.value
    ensures r.Failure? && r.error.Error? ==> r.error.message == RaisedMessage(outcome, AddFailed)
    ensures !IsNullish(todo) && outcome.Response? && !outcome.ok && outcome.body.Parsed? && !IsNullish(outcome.body.value) ==>
      r == Failure(Error(RaisedMessage(outcome, AddFailed)))
    ensures !IsNullish(todo) && outcome.Response? && !outcome.ok && outcome.body == Parsed(Null) ==>
      r == Failure(PropertyOfNullish("error"))
    ensures !IsNullish(todo) && outcome.Response? && outcome.body.Unparseable? ==> r == Failure(InvalidJson(outcome.body.cause))
    ensures !IsNullish(todo) && outcome.TransportFailure? ==> r == Failure(NetworkFailure(outcome.cause))
  {
    var _ :- CreateBody(todo);
    MutationResult(outcome, AddFailed)
  }

  /** `${API_BASE_URL}/${id}`. */
  function ItemUrl(id: Value): (url: string)
    ensures |url| > |BaseUrl| && url[..|BaseUrl|] == BaseUrl && url[|BaseUrl|] == '/'
    ensures url[|BaseUrl| + 1..] == ToJsString(id)
  {
    BaseUrl + "/" + ToJsString(id)
  }

  function UpdateTodoRequest(id: Value, updates: Value): (r: Request)
    ensures r.verb == PATCH && r.url == ItemUrl(id) && r.jsonHeader && r.body == Some(updates)
  {
    Request(PATCH, ItemUrl(id), true, Some(updates))
  }

  /** `updateTodo(id, updates)` when `fetch` yields `outcome`. */
  function UpdateTodo(outcome: Outcome): (r: Result<Value, Thrown>)
    ensures r.Success? <==> outcome.Response? && outcome.ok && outcome.body.Parsed?
    ensures r.Success? ==> r.value == outcome.body.value
    ensures r.Failure? && r.error.Error? ==> r.error.message == RaisedMessage(outcome, UpdateFailed)
    ensures outcome.Response? && !outcome.ok && outcome.body.Parsed? && !IsNullish(outcome.body.value) ==>
      r == Failure(Error(RaisedMessage(outcome, UpdateFailed)))
    ensures outcome.Response? && !outcome.ok && outcome.body == Parsed(Null) ==>
      r == Failure(PropertyOfNullish("error"))
    ensures outcome.Response? && outcome.body.Unparseable? ==> r == Failure(InvalidJson(outcome.body.cause))
    ensures outcome.TransportFailure? ==> r == Failure(NetworkFailure(outcome.cause))
  {
    MutationResult(outcome, UpdateFailed)
  }

  function DeleteTodoRequest(id: Value): (r: Request)
    ensures r.verb == DELETE && r.url == ItemUrl(id) && r.jsonHeader && r.body == None
  {
    Request(DELETE, ItemUrl(id), true, None)
  }

  /** `deleteTodo(id)` when `fetch` yields `outcome`. */
  function DeleteTodo(outcome: Outcome): (r: Result<Value, Thrown>)
    ensures r.Success? <==> outcome.Response? && outcome.ok && outcome.body.Parsed?
    ensures r.Success? ==> r.value == outcome.body.value
    ensures r.Failure? && r.error.Error? ==> r.error.message == RaisedMessage(outcome, DeleteFailed)
    ensures outcome.Response? && !outcome.ok && outcome.body.Parsed? && !IsNullish(outcome.body.value) ==>
      r == Failure(Error(RaisedMessage(outcome, DeleteFailed)))
    ensures outcome.Response? && !outcome.ok && outcome.body == Parsed(Null) ==>
      r == Failure(PropertyOfNullish("error"))
    ensures outcome.Response? && outcome.body.Unparseable? ==> r == Failure(InvalidJson(outcome.body.cause))
    ensures outcome.TransportFailure? ==> r == Failure(NetworkFailure(outcome.cause))
  {
    MutationResult(outcome, DeleteFailed)
  }
}
