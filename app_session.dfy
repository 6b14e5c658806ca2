/** The Flask server's per-browser session: the password gate that runs before every
    request (with its one-hour inactivity expiry) and the allocation of session ids,
    one per browser tab. */
module AppSession {
  import opened Wrappers
  import opened Text
  import opened PyValues

  const AuthKey := "authenticated"
  const LoginTimeKey := "login_time"
  const BrowserSessionKey := "session_id"
  const TabSessionPrefix := "tab_session_"

  /** `timedelta(hours=1)` in microseconds, the resolution of Python's `datetime`. */
  const OneHour: int := 3_600_000_000

  predicate Authenticated(data: map<string, Value>)
  {
    Truthy(Get(data, AuthKey))
  }

  /** The outcome of the gate: let the request through, or answer 401 with
      `{"error": "Authentication required"}`. */
  datatype GateDecision = Pass | Unauthorized

  const ExemptEndpoints: seq<string> := ["login", "logout", "static"]

  const ProtectedEndpoints: seq<string> := [
    "generate_cad", "new_design", "save_design", "rollback", "submit_feedback",
    "submit_waitlist", "get_trajectory", "get_trajectory_html", "get_app_config",
    "get_session_stats", "execute_build123d", "stop_yacv_server"]

  /** `request.endpoint in list`; an unmatched URL has endpoint `None`, which is in no list. */
  predicate EndpointIn(endpoint: Option<string>, names: seq<string>)
  {
    endpoint.Some? && endpoint.value in names
  }

  predicate IsExempt(endpoint: Option<string>)
  {
    EndpointIn(endpoint, ExemptEndpoints)
  }

  /** An API-style endpoint: its name starts with `api/` or `get_`. */
  predicate ApiLike(endpoint: Option<string>)
  {
    endpoint.Some? && (StartsWith(endpoint.value, "api/") || StartsWith(endpoint.value, "get_"))
  }

  /** Whether a stored login time has run out at `now`. `parseIso` is
      `datetime.fromisoformat` (microseconds, `None` for the `ValueError` and for a
      timestamp that cannot be subtracted from a naive one); a value that is not a string
      raises `TypeError` and counts as run out too. */
  predicate LoginExpired(v: Value, now: int, parseIso: string -> Option<int>)
  {
    match v
    case Str(s) => parseIso(s).None? || now - parseIso(s).value > OneHour
    case _ => true
  }

  /** The inactivity check on an authenticated session: an expired or unreadable login
      time removes both the flag and the time; a missing one is set to now. */
  function RefreshSession(data: map<string, Value>, now: int, nowIso: string,
                          parseIso: string -> Option<int>): (d: map<string, Value>)
    requires nowIso != []
    ensures forall k :: k != AuthKey && k != LoginTimeKey ==>
      (k in d <==> k in data) && (k in d ==> d[k] == data[k])
    ensures !Authenticated(data) ==> d == data
    ensures Authenticated(d) ==> Authenticated(data) && d[AuthKey] == data[AuthKey]
    ensures Authenticated(data) ==>
      (Authenticated(d) <==> !(Truthy(Get(data, LoginTimeKey)) && LoginExpired(data[LoginTimeKey], now, parseIso)))
    ensures Authenticated(data) && !Authenticated(d) ==> AuthKey !in d && LoginTimeKey !in d
    ensures Authenticated(d) ==> Truthy(Get(d, LoginTimeKey))
    ensures Authenticated(data) && !Truthy(Get(data, LoginTimeKey)) ==> d == data[LoginTimeKey := Str(nowIso)]
    ensures Authenticated(data) && Truthy(Get(data, LoginTimeKey)) ==>
      d == if LoginExpired(data[LoginTimeKey], now, parseIso) then data - {AuthKey, LoginTimeKey} else data
  {
    if Authenticated(data) then
      var loginTime := Get(data, LoginTimeKey);
      if Truthy(loginTime) then
        if LoginExpired(loginTime.value, now, parseIso) then data - {AuthKey, LoginTimeKey} else data
      else data[LoginTimeKey := Str(nowIso)]
    else data
  }

  /** The blocking rules, in the order the gate applies them. */
  function Decide(endpoint: Option<string>, httpMethod: string, authenticated: bool): (g: GateDecision)
    ensures IsExempt(endpoint) ==> g == Pass
    ensures authenticated ==> g == Pass
    ensures !IsExempt(endpoint) && !authenticated ==>
      (g == Unauthorized <==> ApiLike(endpoint) || httpMethod == "POST" || EndpointIn(endpoint, ProtectedEndpoints))
  {
    if IsExempt(endpoint) then Pass
    else if authenticated then Pass
    else if endpoint.Some? && endpoint.value != [] && ApiLike(endpoint) then Unauthorized
    else if httpMethod == "POST" && !EndpointIn(endpoint, ["login"]) then Unauthorized
    else if EndpointIn(endpoint, ProtectedEndpoints) then Unauthorized
    else Pass
  }

  /** The session key under which a tab's id is kept: `tab_session_<id>` for a non-empty
      `X-Tab-ID` header, `session_id` otherwise. */
  function SessionKey(tabId: Option<string>): (k: string)
    ensures StartsWith(k, TabSessionPrefix) <==> tabId.Some? && tabId.value != []
  {
    if tabId.Some? && tabId.value != [] then TabSessionPrefix + tabId.value
    else BrowserSessionKey
  }

  /** `get_session_id` on the session's contents: the stored id when the key is there,
      otherwise `freshId` (a new `uuid4`), stored under the key. */
  function AllocateSessionId(data: map<string, Value>, tabId: Option<string>, freshId: string):
    (result: (map<string, Value>, Value))
    ensures SessionKey(tabId) in result.0 && result.1 == result.0[SessionKey(tabId)]
    ensures forall k :: k in data ==> k in result.0 && result.0[k] == data[k]
    ensures result.0.Keys == data.Keys + {SessionKey(tabId)}
    ensures SessionKey(tabId) !in data ==> result.1 == Str(freshId)
  {
    var key := SessionKey(tabId);
    if key in data then (data, data[key]) else (data[key := Str(freshId)], Str(freshId))
  }

  /** The session a request's handler sees. */
  class Session {
    var data: map<string, Value>

    constructor (initial: map<string, Value>)
      ensures data == initial
    {
      data := initial;
    }

    /** `check_password_protection`, the hook Flask runs before every request. */
    method CheckPasswordProtection(endpoint: Option<string>, httpMethod: string, now: int, nowIso: string,
                                   parseIso: string -> Option<int>) returns (g: GateDecision)
      requires nowIso != []
      modifies this
      ensures data == if IsExempt(endpoint) then old(data) else RefreshSession(old(data), now, nowIso, parseIso)
      ensures g == Decide(endpoint, httpMethod, Authenticated(data))
    {
      if IsExempt(endpoint) {
        return Pass;
      }
      if Truthy(Get(data, AuthKey)) {
        var loginTime := Get(data, LoginTimeKey);
        if Truthy(loginTime) {
          if LoginExpired(loginTime.value, now, parseIso) {
            data := data - {AuthKey};
            data := data - {LoginTimeKey};
          }
        } else {
          data := data[LoginTimeKey := Str(nowIso)];
        }
      }
      assert data == RefreshSession(old(data), now, nowIso, parseIso);
      g := Pass;
      if !Truthy(Get(data, AuthKey)) {
        if endpoint.Some? && endpoint.value != [] && ApiLike(endpoint) {
          g := Unauthorized;
        } else if httpMethod == "POST" && !EndpointIn(endpoint, ["login"]) {
          g := Unauthorized;
        } else if EndpointIn(endpoint, ProtectedEndpoints) {
          g := Unauthorized;
        }
      }
    }

    /** `get_session_id`: the id of the requesting tab, created on first use. */
    method GetSessionId(tabId: Option<string>, freshId: string) returns (id: Value)
      modifies this
      ensures (data, id) == AllocateSessionId(old(data), tabId, freshId)
    {
      var key := SessionKey(tabId);
      if key !in data {
        data := data[key := Str(freshId)];
      }
      id := data[key];
    }
  }

  // ---------------------------------------------------------------- lemmas

  /** The login, logout and static endpoints pass whatever the session holds. */
  lemma ExemptAlwaysPass(endpoint: Option<string>, httpMethod: string, data: map<string, Value>,
                         now: int, nowIso: string, parseIso: string -> Option<int>)
    requires nowIso != [] && IsExempt(endpoint)
    ensures Decide(endpoint, httpMethod, Authenticated(RefreshSession(data, now, nowIso, parseIso))) == Pass
  {
  }

  /** A session whose login is more than an hour old is logged out by the gate and the
      request is refused when it reaches an API, a POST or a protected endpoint. */
  lemma ExpiredLoginBlocked(endpoint: Option<string>, httpMethod: string, data: map<string, Value>,
                            now: int, nowIso: string, parseIso: string -> Option<int>, login: string)
    requires nowIso != [] && !IsExempt(endpoint)
    requires Authenticated(data) && Get(data, LoginTimeKey) == Some(Str(login)) && login != []
    requires parseIso(login).Some? && now - parseIso(login).value > OneHour
    requires ApiLike(endpoint) || httpMethod == "POST" || EndpointIn(endpoint, ProtectedEndpoints)
    ensures var d := RefreshSession(data, now, nowIso, parseIso);
      AuthKey !in d && LoginTimeKey !in d && Decide(endpoint, httpMethod, Authenticated(d)) == Unauthorized
  {
  }

  /** A session whose login is at most an hour old stays logged in and unchanged, and
      every request passes. */
  lemma RecentLoginPasses(endpoint: Option<string>, httpMethod: string, data: map<string, Value>,
                          now: int, nowIso: string, parseIso: string -> Option<int>, login: string)
    requires nowIso != []
    requires Authenticated(data) && Get(data, LoginTimeKey) == Some(Str(login)) && login != []
    requires parseIso(login).Some? && now - parseIso(login).value <= OneHour
    ensures RefreshSession(data, now, nowIso, parseIso) == data
    ensures Decide(endpoint, httpMethod, Authenticated(data)) == Pass
  {
  }

  /** Distinct tab ids never share a session key, and no tab key is the browser-wide
      key or one of the gate's keys. */
  lemma {:induction false} SessionKeysDistinct(a: Option<string>, b: Option<string>)
    requires a.Some? && a.value != [] && b.Some? && b.value != []
    ensures SessionKey(a) == SessionKey(b) ==> a == b
    ensures SessionKey(a) != BrowserSessionKey && SessionKey(a) != AuthKey && SessionKey(a) != LoginTimeKey
  {
    var ka, kb := SessionKey(a), SessionKey(b);
    if ka == kb {
      assert a.value == ka[|TabSessionPrefix|..];
      assert b.value == kb[|TabSessionPrefix|..];
    }
    assert |ka| > |TabSessionPrefix|;
    assert ka[..4] == "tab_";
    assert ka[0] == 't' && LoginTimeKey[0] == 'l' && AuthKey[0] == 'a';
  }

  /** A second `get_session_id` for the same tab returns the same id and changes nothing,
      whatever fresh value it is offered. */
  lemma AllocateIdempotent(data: map<string, Value>, tabId: Option<string>, fresh1: string, fresh2: string)
    ensures var (d1, id1) := AllocateSessionId(data, tabId, fresh1);
      AllocateSessionId(d1, tabId, fresh2) == (d1, id1)
  {
  }

  /** Allocating an id leaves the gate's view of the session unchanged. */
  lemma AllocateKeepsLogin(data: map<string, Value>, tabId: Option<string>, freshId: string)
    ensures var d := AllocateSessionId(data, tabId, freshId).0;
      Get(d, AuthKey) == Get(data, AuthKey) && Get(d, LoginTimeKey) == Get(data, LoginTimeKey)
  {
    if tabId.Some? && tabId.value != [] {
      SessionKeysDistinct(tabId, tabId);
    }
  }
}
