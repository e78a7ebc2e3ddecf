/** Outgoing requests, the raw outcome the server answers, and what a subscriber finally
    receives once the request went through the interceptor. */
module Http {
  import opened Wrappers
  import opened Models

  datatype Verb = Get | Post | Delete

  /** The JSON bodies the application sends. */
  datatype Body =
    | NoBody
    | LoginBody(login: LoginRequest)
    | RegisterBody(register: RegisterRequest)
    | ProfileBody(profile: CreateProfileRequest)
    | FavoriteBody(movieId: string)

  type Headers = seq<(string, string)>

  /** A request; `url` is relative to the API's base address, `params` is the query string in order. */
  datatype Request = Request(verb: Verb, url: string, params: seq<(string, string)>, body: Body, headers: Headers)

  /** A request as the services build it, before the interceptor touches it. */
  function NewRequest(verb: Verb, url: string, params: seq<(string, string)>, body: Body): Request {
    Request(verb, url, params, body, [])
  }

  predicate HasHeader(hs: Headers, name: string) {
    exists i :: 0 <= i < |hs| && hs[i].0 == name
  }

  /** The value of the first header called `name`. */
  function HeaderValue(hs: Headers, name: string): (r: Option<string>)
    ensures r.None? <==> !HasHeader(hs, name)
    decreases |hs|
  {
    if hs == [] then None
    else if hs[0].0 == name then Some(hs[0].1)
    else
      HasHeaderCons(hs, name);
      HeaderValue(hs[1..], name)
  }

  lemma HasHeaderCons(hs: Headers, name: string)
    requires hs != []
    ensures HasHeader(hs, name) <==> hs[0].0 == name || HasHeader(hs[1..], name)
  {
    if HasHeader(hs, name) && hs[0].0 != name {
      var i :| 0 <= i < |hs| && hs[i].0 == name;
      assert hs[1..][i - 1].0 == name;
    }
    if HasHeader(hs[1..], name) {
      var i :| 0 <= i < |hs[1..]| && hs[1..][i].0 == name;
      assert hs[i + 1].0 == name;
    }
  }

  function ReplaceHeader(hs: Headers, name: string, value: string): (r: Headers)
    ensures |r| == |hs|
    ensures forall i :: 0 <= i < |hs| ==> r[i].0 == hs[i].0
    decreases |hs|
  {
    if hs == [] then []
    else [if hs[0].0 == name then (name, value) else hs[0]] + ReplaceHeader(hs[1..], name, value)
  }

  lemma {:induction false} ReplaceHeaderValue(hs: Headers, name: string, value: string, other: string)
    requires HasHeader(hs, name)
    ensures HeaderValue(ReplaceHeader(hs, name, value), name) == Some(value)
    ensures other != name ==> HeaderValue(ReplaceHeader(hs, name, value), other) == HeaderValue(hs, other)
    decreases |hs|
  {
    var r := ReplaceHeader(hs, name, value);
    assert r[1..] == ReplaceHeader(hs[1..], name, value);
    HasHeaderCons(hs, name);
    if hs[0].0 != name {
      ReplaceHeaderValue(hs[1..], name, value, other);
    } else if other != name && hs[0].0 != other {
      if HasHeader(hs[1..], name) {
        ReplaceHeaderValue(hs[1..], name, value, other);
      } else {
        ReplaceHeaderAbsent(hs[1..], name, value, other);
      }
    }
  }

  lemma {:induction false} ReplaceHeaderAbsent(hs: Headers, name: string, value: string, other: string)
    requires !HasHeader(hs, name)
    ensures HeaderValue(ReplaceHeader(hs, name, value), other) == HeaderValue(hs, other)
    decreases |hs|
  {
    if hs != [] {
      assert hs[0].0 != name;
      HasHeaderCons(hs, name);
      ReplaceHeaderAbsent(hs[1..], name, value, other);
      assert ReplaceHeader(hs, name, value)[1..] == ReplaceHeader(hs[1..], name, value);
    }
  }

  lemma {:induction false} AppendHeaderValue(hs: Headers, name: string, value: string, other: string)
    requires !HasHeader(hs, name)
    ensures HeaderValue(hs + [(name, value)], name) == Some(value)
    ensures other != name ==> HeaderValue(hs + [(name, value)], other) == HeaderValue(hs, other)
    decreases |hs|
  {
    if hs != [] {
      assert (hs + [(name, value)])[1..] == hs[1..] + [(name, value)];
      HasHeaderCons(hs, name);
      AppendHeaderValue(hs[1..], name, value, other);
    }
  }

  /** `HttpHeaders.set`: afterwards `name` has the value `value` and every other header is as before. */
  function SetHeader(hs: Headers, name: string, value: string): (r: Headers)
    ensures HeaderValue(r, name) == Some(value)
    ensures forall other :: other != name ==> HeaderValue(r, other) == HeaderValue(hs, other)
  {
    if HasHeader(hs, name) then
      var r := ReplaceHeader(hs, name, value);
      assert forall other :: (HeaderValue(r, name) == Some(value) &&
        (other != name ==> HeaderValue(r, other) == HeaderValue(hs, other))) by {
        forall other { ReplaceHeaderValue(hs, name, value, other); }
      }
      r
    else
      var r := hs + [(name, value)];
      assert forall other :: (HeaderValue(r, name) == Some(value) &&
        (other != name ==> HeaderValue(r, other) == HeaderValue(hs, other))) by {
        forall other { AppendHeaderValue(hs, name, value, other); }
      }
      r
  }

  /** What the server answers: a success carrying the decoded JSON body, or an error status with
      its body (`None` when the body is absent or not a JSON object). */
  datatype Response<T> = Ok(value: T) | Fail(status: int, error: Option<ErrorBody>)

  predicate IsUnauthorized<T>(raw: Response<T>) {
    raw.Fail? && raw.status == 401
  }

  /** The error value a subscriber's `error` callback receives: the `HttpErrorResponse`
      (with a `status`), a plain string thrown by an operator, or a runtime `TypeError`. */
  datatype CallerError =
    | HttpError(status: int, error: Option<ErrorBody>)
    | Thrown(message: string)
    | TypeError

  /** `err.status`: only an `HttpErrorResponse` has one. */
  function StatusOf(e: CallerError): Option<int> {
    if e.HttpError? then Some(e.status) else None
  }

  /** The single terminal notification of an observable: a value or an error. */
  datatype Delivered<T> = Next(value: T) | Error(err: CallerError)

  /** `map(response => response.data)`: the envelope's payload, errors passed on. */
  function Unwrap<T>(d: Delivered<ApiResponse<T>>): (r: Delivered<T>)
    ensures r.Next? <==> d.Next?
    ensures r.Next? ==> r.value == d.value.data
    ensures r.Error? ==> r.err == d.err
  {
    match d
    case Next(response) => Next(response.data)
    case Error(e) => Error(e)
  }
}
