/**
 * The browser as the pages see it: `localStorage` as a map, router and
 * `window.location` navigations as a recorded history, and every `fetch` as a
 * recorded request whose outcome is an input to the handler that made it.
 */
module Web {
  import opened Wrappers

  /** The `localStorage` key under which every page keeps the session token. */
  const TokenKey := "escalaProntaToken"

  /** A JSON value as `JSON.stringify` writes it and `JSON.parse` reads it (numbers are integers here). */
  datatype Json =
    | JNull
    | JBool(b: bool)
    | JNumber(n: int)
    | JString(s: string)
    | JArray(items: seq<Json>)
    | JObject(members: seq<(string, Json)>)

  /** ECMAScript ToBoolean on a JSON value: null, false, 0 and "" are falsy, everything else truthy. */
  predicate Truthy(j: Json) {
    match j
    case JNull => false
    case JBool(b) => b
    case JNumber(n) => n != 0
    case JString(s) => s != ""
    case _ => true
  }

  /** `j.key` on a parsed value; None is `undefined`. Of two members with one name the later wins, as in `JSON.parse`. */
  function Member(j: Json, key: string): Option<Json> {
    match j
    case JObject(ms) => Lookup(ms, key)
    case _ => None
  }

  function Lookup(ms: seq<(string, Json)>, key: string): Option<Json> {
    if ms == [] then None
    else if ms[|ms| - 1].0 == key then Some(ms[|ms| - 1].1)
    else Lookup(ms[..|ms| - 1], key)
  }

  /** A member appended last is found first. */
  lemma LookupSnoc(ms: seq<(string, Json)>, m: (string, Json), key: string)
    ensures Lookup(ms + [m], key) == if m.0 == key then Some(m.1) else Lookup(ms, key)
  {
    assert (ms + [m])[..|ms|] == ms;
  }

  /** In an object whose names are all different, each member is found under its own name. */
  lemma {:induction false} LookupDistinct(ms: seq<(string, Json)>, i: int)
    requires 0 <= i < |ms|
    requires forall a, b :: 0 <= a < b < |ms| ==> ms[a].0 != ms[b].0
    ensures Lookup(ms, ms[i].0) == Some(ms[i].1)
    decreases |ms|
  {
    if i < |ms| - 1 {
      var init := ms[..|ms| - 1];
      assert init[i] == ms[i];
      LookupDistinct(init, i);
    }
  }

  /** A name that no member has is not found. */
  lemma {:induction false} LookupAbsent(ms: seq<(string, Json)>, key: string)
    requires forall i :: 0 <= i < |ms| ==> ms[i].0 != key
    ensures Lookup(ms, key) == None
    decreases |ms|
  {
    if ms != [] {
      var init := ms[..|ms| - 1];
      assert forall i :: 0 <= i < |init| ==> init[i] == ms[i];
      LookupAbsent(init, key);
    }
  }

  /** `s || fallback` for a string field that may be missing: a missing or empty value gives `fallback`. */
  function OrElse(s: Option<string>, fallback: string): (r: string)
    ensures r == fallback || (s.Some? && r == s.value && r != "")
    ensures s.Some? && s.value != "" ==> r == s.value
  {
    if s.Some? && s.value != "" then s.value else fallback
  }

  /** `String(v)` for a value that may be `undefined`: what `setItem` stores and what `location.href = v` opens. */
  function AsString(v: Option<string>): string {
    v.GetOr("undefined")
  }

  /** A navigation: `router.push`, `router.replace`, or an assignment to `window.location.href`. */
  datatype Navigation = Push(path: string) | Replace(path: string) | Assign(href: string)

  datatype Method = GET | POST | PUT | PATCH | DELETE

  /** Where a request goes: a path under the configured scheduling API, or an absolute URL. */
  datatype Target = Api(path: string) | External(url: string)

  /** A request as sent: HTTP method, target, the `Authorization` header if any, and the JSON body if any. */
  datatype Request = Request(verb: Method, target: Target, authorization: Option<string>, body: Option<Json>)

  /** What `await res.json()` gave: the decoded body, or the reason it threw. */
  datatype Body<B> = Parsed(data: B) | Malformed(reason: string)

  /** What `await fetch(...)` gave: a rejection with its reason, or a response with its status and body. */
  datatype Fetched<B> = Rejected(reason: string) | Responded(status: int, body: Body<B>) {

    predicate HasStatus(code: int) {
      Responded? && status == code
    }

    /** `res.ok`: the status is in the range 200 to 299. */
    predicate IsOk() {
      Responded? && 200 <= status <= 299
    }
  }

  /** The body of a failed request that may carry the server's message in `error`. */
  datatype ErrorBody = ErrorBody(error: Option<string>)

  /**
   * The message of the error a handler throws when a request fails, as its
   * `catch` reads back `err.message`: the rejection's own message when
   * `fetch` rejects, the parse error's when the body is not JSON, and
   * otherwise `data.error || fallback`.
   */
  function FailureMessage(reply: Fetched<ErrorBody>, fallback: string): (m: string)
    requires !reply.IsOk()
    ensures m == fallback || (reply.Rejected? && m == reply.reason)
      || (reply.Responded? && reply.body.Malformed? && m == reply.body.reason)
      || (reply.Responded? && reply.body.Parsed? && reply.body.data.error == Some(m) && m != "")
  {
    match reply
    case Rejected(reason) => reason
    case Responded(_, Malformed(reason)) => reason
    case Responded(_, Parsed(b)) => OrElse(b.error, fallback)
  }

  /** The body the login and sign-up endpoints answer with: a session token on success, a message on failure. */
  datatype AuthBody = AuthBody(token: Option<string>, error: Option<string>)

  /** What a login or sign-up attempt comes to: a session token to store, or the message to show. */
  datatype Session = Granted(token: string) | Refused(message: string)

  /**
   * The login and sign-up handlers read the body before they look at the
   * status: a body that is not JSON fails with the parser's message whatever
   * the status, a failed status fails with `data.error || fallback`, and a
   * success stores `String(data.token)`.
   */
  function AuthOutcome(reply: Fetched<AuthBody>, fallback: string): (r: Session)
    ensures r.Granted? <==> reply.IsOk() && reply.body.Parsed?
    ensures r.Granted? ==> r.token == AsString(reply.body.data.token)
    ensures r.Refused? && reply.Rejected? ==> r.message == reply.reason
    ensures r.Refused? && reply.Responded? && reply.body.Malformed? ==> r.message == reply.body.reason
    ensures r.Refused? && reply.Responded? && reply.body.Parsed? ==>
      r.message == OrElse(reply.body.data.error, fallback)
  {
    match reply
    case Rejected(reason) => Refused(reason)
    case Responded(_, Malformed(reason)) => Refused(reason)
    case Responded(_, Parsed(b)) =>
      if reply.IsOk() then Granted(AsString(b.token)) else Refused(OrElse(b.error, fallback))
  }

  /** A success without a `token` member still stores something: the text "undefined", which later counts as a session. */
  lemma MissingTokenStored(status: int, fallback: string)
    requires 200 <= status <= 299
    ensures AuthOutcome(Responded(status, Parsed(AuthBody(None, None))), fallback) == Granted("undefined")
  {
  }

  /** The part of the browser the pages touch. */
  /** The item stored under `key`; None is `null`. */
  function Item(storage: map<string, string>, key: string): Option<string> {
    if key in storage then Some(storage[key]) else None
  }

  class Browser {
    var storage: map<string, string>
    var history: seq<Navigation>
    var requests: seq<Request>

    constructor (initial: map<string, string>)
      ensures storage == initial && history == [] && requests == []
    {
      storage := initial;
      history := [];
      requests := [];
    }

    /** `localStorage.getItem(key)`; None is `null`. */
    function GetItem(key: string): Option<string>
      reads this`storage
    {
      Item(storage, key)
    }

    /** `!!localStorage.getItem("escalaProntaToken")`: a token is stored and it is not empty. */
    predicate HasToken()
      reads this`storage
    {
      GetItem(TokenKey).Some? && GetItem(TokenKey).value != ""
    }

    /** The `Authorization` header every authenticated page builds: `Bearer ${token}`, where a missing token prints as "null". */
    function Authorization(): string
      reads this`storage
    {
      "Bearer " + GetItem(TokenKey).GetOr("null")
    }

    method SetItem(key: string, value: string)
      modifies this
      ensures storage == old(storage)[key := value]
      ensures history == old(history) && requests == old(requests)
    {
      storage := storage[key := value];
    }

    method RemoveItem(key: string)
      modifies this
      ensures storage == old(storage) - {key}
      ensures history == old(history) && requests == old(requests)
    {
      storage := storage - {key};
    }

    method Navigate(to: Navigation)
      modifies this
      ensures history == old(history) + [to]
      ensures storage == old(storage) && requests == old(requests)
    {
      history := history + [to];
    }

    method Send(r: Request)
      modifies this
      ensures requests == old(requests) + [r]
      ensures storage == old(storage) && history == old(history)
    {
      requests := requests + [r];
    }
  }
}
