/**
 * Values shared by every part of the authentication core: cookie-session
 * bags, URL search parameters, responses and the outcome of a guard that may
 * "throw" a response to short-circuit a route handler.
 */
module Http {

  datatype Option<+T> = None | Some(value: T) {
    function GetOr(default: T): T {
      match this
      case Some(v) => v
      case None => default
    }
  }

  /** A value stored under a key of a cookie-session bag. */
  datatype Value = Str(s: string) | Flag(b: bool) | Millis(ms: int)

  /** JavaScript truthiness of a stored value. */
  predicate Truthy(v: Value) {
    match v
    case Str(s) => s != ""
    case Flag(b) => b
    case Millis(ms) => ms != 0
  }

  /** The decoded content of one signed cookie. */
  type Bag = map<string, Value>

  /** The id stored under `key`, when the bag holds a non-empty string there. */
  function IdAt(bag: Bag, key: string): (r: Option<string>)
    ensures r.Some? ==> key in bag && bag[key] == Str(r.value) && r.value != ""
    ensures r.None? <==> key !in bag || !bag[key].Str? || bag[key].s == ""
  {
    if key in bag && bag[key].Str? && bag[key].s != "" then Some(bag[key].s) else None
  }

  // ---------------------------------------------------------------------
  // URL search parameters (an ordered list of name/value pairs)

  type Param = (string, string)

  /** `searchParams.get(name)`: the value of the first pair with that name. */
  function Lookup(ps: seq<Param>, name: string): Option<string> {
    if ps == [] then None
    else if ps[0].0 == name then Some(ps[0].1)
    else Lookup(ps[1..], name)
  }

  /** The pairs whose name is not `name`, in order. */
  function Others(ps: seq<Param>, name: string): seq<Param> {
    if ps == [] then []
    else if ps[0].0 == name then Others(ps[1..], name)
    else [ps[0]] + Others(ps[1..], name)
  }

  /** Number of pairs called `name`. */
  function Count(ps: seq<Param>, name: string): nat {
    if ps == [] then 0
    else (if ps[0].0 == name then 1 else 0) + Count(ps[1..], name)
  }

  lemma {:induction false} OthersDropsName(ps: seq<Param>, name: string)
    ensures Count(Others(ps, name), name) == 0
    ensures Lookup(Others(ps, name), name) == None
    ensures forall n :: n != name ==> Lookup(Others(ps, name), n) == Lookup(ps, n)
  {
    if ps != [] {
      OthersDropsName(ps[1..], name);
      if ps[0].0 != name {
        assert ([ps[0]] + Others(ps[1..], name))[1..] == Others(ps[1..], name);
      }
    }
  }

  /** A name is found exactly when some pair carries it. */
  lemma {:induction false} LookupFindsCounted(ps: seq<Param>, name: string)
    ensures Lookup(ps, name).Some? <==> Count(ps, name) > 0
  {
    if ps != [] {
      LookupFindsCounted(ps[1..], name);
    }
  }

  lemma {:induction false} OthersIdempotent(ps: seq<Param>, name: string)
    ensures Others(Others(ps, name), name) == Others(ps, name)
  {
    if ps != [] {
      OthersIdempotent(ps[1..], name);
      if ps[0].0 != name {
        assert ([ps[0]] + Others(ps[1..], name))[1..] == Others(ps[1..], name);
      }
    }
  }

  /**
   * `searchParams.set(name, value)` of the URL standard: the first pair called
   * `name` gets the new value and every later pair of that name is removed; if
   * there is none, the pair is appended.
   */
  function SetParam(ps: seq<Param>, name: string, value: string): (r: seq<Param>)
    ensures Lookup(r, name) == Some(value)
    ensures Count(r, name) == 1
    ensures Others(r, name) == Others(ps, name)
    ensures forall n :: n != name ==> Lookup(r, n) == Lookup(ps, n)
  {
    if ps == [] then [(name, value)]
    else if ps[0].0 == name then
      OthersDropsName(ps[1..], name);
      OthersIdempotent(ps[1..], name);
      [(name, value)] + Others(ps[1..], name)
    else
      var rest := SetParam(ps[1..], name, value);
      assert ([ps[0]] + rest)[1..] == rest;
      [ps[0]] + rest
  }

  /** Setting a name the list does not hold yet appends one pair at the end. */
  lemma {:induction false} SetParamAppends(ps: seq<Param>, name: string, value: string)
    requires Lookup(ps, name) == None
    ensures SetParam(ps, name, value) == ps + [(name, value)]
  {
    if ps != [] {
      SetParamAppends(ps[1..], name, value);
      assert ps + [(name, value)] == [ps[0]] + (ps[1..] + [(name, value)]);
    }
  }

  /** A URL built by the server: origin ("" for a relative URL), path, query. */
  datatype Url = Url(origin: string, path: string, params: seq<Param>)

  /** Where a redirect points: a path string passed verbatim, or a built URL. */
  datatype Location = Path(s: string) | Link(url: Url)

  // ---------------------------------------------------------------------
  // Requests and responses

  /**
   * The request URL: the domain `getDomainUrl` derives from the request, the
   * pathname, and the query string without its leading '?'
   * (`url.searchParams.toString()`).
   */
  datatype RequestUrl = RequestUrl(domain: string, pathname: string, query: string)

  /** `url.search`: the query with its '?', or "" when there is no query. */
  function Search(u: RequestUrl): (s: string)
    ensures u.query == "" ==> s == ""
    ensures u.query != "" ==> |s| > 0 && s[0] == '?' && s[1..] == u.query
  {
    if u.query == "" then "" else "?" + u.query
  }

  /** A request: its URL and the signed cookies it carries, decoded by name. */
  datatype Request = Request(url: RequestUrl, cookies: map<string, Bag>)

  /** `storage.getSession(request.headers.get('cookie'))` for the cookie `name`. */
  function CookieBag(request: Request, name: string): Bag {
    if name in request.cookies then request.cookies[name] else map[]
  }

  /** A `set-cookie` header: a committed bag (with its expiry) or a destroyed cookie. */
  datatype SetCookie =
    | Commit(name: string, data: Bag, expires: Option<int>, maxAge: Option<int>)
    | Destroy(name: string)

  /** What a browser's cookie jar holds after it applies the `set-cookie` headers. */
  function ApplyCookies(jar: map<string, Bag>, headers: seq<SetCookie>): (r: map<string, Bag>)
    ensures forall n :: n in jar ==> n in r
    decreases |headers|
  {
    if headers == [] then jar
    else
      var next := match headers[0]
        case Commit(name, data, _, _) => jar[name := data]
        case Destroy(name) => jar[name := map[]];
      ApplyCookies(next, headers[1..])
  }

  datatype ToastType = Message | Success | Failure
  datatype Toast = Toast(kind: ToastType, title: string, description: string)

  /** A form field as the form parser sees it: an empty value reads as missing. */
  function FormField(body: map<string, string>, name: string): (r: Option<string>)
    ensures r.Some? <==> name in body && body[name] != ""
    ensures r.Some? ==> r.value == body[name]
  {
    if name in body && body[name] != "" then Some(body[name]) else None
  }

  /** A message attached to a form field: a zod built-in one, or one the route wrote. */
  datatype FieldError = SchemaViolation | Custom(message: string)

  datatype SubmissionStatus = Idle | Error

  /** The outcome of a form's field schemas: the parsed value, or the errors per field. */
  datatype FieldCheck<T> = FieldsOk(value: T) | FieldsRejected(errors: map<string, seq<FieldError>>)


  datatype Body =
    | Empty
    | Submission(status: SubmissionStatus, payload: map<string, string>, errors: map<string, seq<FieldError>>)
    | TwoFAStatus(isTwoFAEnabled: bool)
    | ResetUsername(resetPasswordUsername: string)

  datatype Response =
    | Redirect(location: Location, cookies: seq<SetCookie>, toast: Option<Toast>)
    | Json(status: int, body: Body)
    | Text(status: int, text: string)
    /** The response of a handler in a route file that is not part of this model. */
    | Delegated(handler: string)

  /** An unhandled database error (a 500 for the client). */
  datatype Fault = RecordNotFound | UniqueViolation

  /** A handler step: it goes on with a value, throws a response, or fails. */
  datatype Outcome<+T> = Continue(value: T) | Thrown(response: Response) | Failed(fault: Fault)

  /** The request a browser sends after storing the cookies of `r`. */
  function After(request: Request, r: Response): Request
    requires r.Redirect?
  {
    Request(request.url, ApplyCookies(request.cookies, r.cookies))
  }

  lemma {:induction false} ApplyOne(jar: map<string, Bag>, h: SetCookie)
    ensures ApplyCookies(jar, [h]) == (match h case Commit(n, d, _, _) => jar[n := d] case Destroy(n) => jar[n := map[]])
  {
    assert [h][1..] == [];
  }

  lemma {:induction false} ApplyTwo(jar: map<string, Bag>, h: SetCookie, n: string)
    requires h.Commit?
    ensures ApplyCookies(jar, [h, Destroy(n)]) == jar[h.name := h.data][n := map[]]
  {
    assert [h, Destroy(n)][1..] == [Destroy(n)];
    ApplyOne(jar[h.name := h.data], Destroy(n));
  }
}
