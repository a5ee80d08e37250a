/** One proxy's session: the `ProxyManager` class of noda.py as an immutable
    record and pure transition functions. The network call is replaced by a
    `Reply` value supplied from outside; the sleeps between heartbeats and
    the clock are left out (the timestamp is an input). */
module ProxyManager {
  import opened Wrappers
  import opened Json

  /** `RETRIES`: the consecutive-failure ceiling. */
  const Retries: nat := 60

  /** `CONNECTION_STATES`; the source encodes them as 1, 2 and 3. */
  datatype ConnState = Connected | Disconnected | NoneConnection

  datatype Agent = Agent(
    token: Option<string>,              // `token_info`; `None` after logout
    proxy: string,
    browserId: string,                  // `browser_id`, a UUID drawn once
    accountInfo: map<string, Value>,    // `account_info`
    status: ConnState,                  // `status_connect`
    retries: nat)                       // consecutive failed heartbeats

  /** What the HTTP call produced: it raised (client error, timeout, a body
      that is not JSON), or it decoded a JSON body. */
  datatype Reply = Raised | Decoded(body: Value)

  /** The body of one heartbeat request. */
  datatype PingRequest = PingRequest(id: Value, browserId: string, timestamp: int)

  /** How a heartbeat reply is meant to be read: code 0 is success, 403 a
      forced logout, anything else (or no usable body) a failure. */
  datatype Outcome = Ok | Forbidden | Failed

  /** The proxy and the device identity: what no transition may change. */
  predicate SameIdentity(a: Agent, b: Agent) {
    a.proxy == b.proxy && a.browserId == b.browserId
  }

  /** The state `handle_logout` leaves behind. */
  predicate LoggedOut(a: Agent) {
    a.token == None && a.accountInfo == map[] && a.status == NoneConnection
  }

  /** The relations among the fields that every reachable agent keeps. */
  predicate Coherent(a: Agent) {
    && (a.status == Connected ==> a.retries == 0)
    && (a.status == Disconnected ==> a.retries > 0)
    && (a.token == None ==> a.accountInfo == map[])
  }

  /** A status code `valid_resp` lets through: a number that is not negative,
      or a boolean (Python compares `False` and `True` as 0 and 1). */
  predicate AcceptableCode(c: Value) {
    (c.Num? && c.n >= 0) || c.Bool?
  }

  /** Reference reading of a heartbeat reply, stated on the shape of the body
      alone. JSON `false` reads as code 0 because Python has `False == 0`. */
  function Classify(reply: Reply): Outcome {
    match reply
    case Raised => Failed
    case Decoded(body) =>
      if !body.Obj? || "code" !in body.fields then Failed
      else match body.fields["code"]
        case Num(n) => if n == 0 then Ok else if n == 403 then Forbidden else Failed
        case Bool(b) => if b then Failed else Ok
        case _ => Failed
  }

  /** `ProxyManager.__init__`; the UUID is supplied by the caller. */
  function NewAgent(token: string, proxy: string, browserId: string): (a: Agent)
    ensures a.status == NoneConnection && a.retries == 0 && a.accountInfo == map[]
    ensures a.token == Some(token) && a.proxy == proxy && a.browserId == browserId
    ensures Coherent(a)
  {
    Agent(Some(token), proxy, browserId, map[], NoneConnection, 0)
  }

  /** `valid_resp`: `not resp`, then `"code" not in resp`, then
      `resp["code"] < 0`, evaluated left to right with Python's operators.
      It accepts exactly a dict carrying an acceptable code, and returns it
      untouched. */
  function ValidResp(resp: Value): (r: Result<map<string, Value>, PyError>)
    ensures r.Success? <==> resp.Obj? && "code" in resp.fields && AcceptableCode(resp.fields["code"])
    ensures r.Success? ==> resp == Obj(r.value)
    ensures r.Failure? ==> r.error == InvalidResponse || r.error == TypeErr
  {
    if !Truthy(resp) then Failure(InvalidResponse)
    else match Contains(resp, "code")
      case Failure(e) => Failure(e)
      case Success(has) =>
        if !has then Failure(InvalidResponse)
        else match Subscript(resp, "code")
          case Failure(e) => Failure(e)
          case Success(code) =>
            match LessThan(code, 0)
            case Failure(e) => Failure(e)
            case Success(negative) =>
              if negative then Failure(InvalidResponse) else Success(resp.fields)
  }

  /** `call_api`: a raised transport error, or the validated body. */
  function CallApi(reply: Reply): (r: Result<map<string, Value>, PyError>)
    ensures r.Success? <==> reply.Decoded? && ValidResp(reply.body).Success?
    ensures r.Success? ==> "code" in r.value && AcceptableCode(r.value["code"])
    ensures r.Success? ==> reply.Decoded? && reply.body == Obj(r.value)
  {
    match reply
    case Raised => Failure(CallFailed)
    case Decoded(body) => ValidResp(body)
  }

  /** `handle_logout`: drop the token and the account, whatever else holds. */
  function HandleLogout(a: Agent): (r: Agent)
    ensures LoggedOut(r) && SameIdentity(a, r) && r.retries == a.retries
  {
    a.(token := None, status := NoneConnection, accountInfo := map[])
  }

  /** `handle_ping_fail`: count the failure first, then log out on a 403 and
      mark the session disconnected otherwise. Both sides of the `RETRIES`
      test set the same state. */
  function HandlePingFail(a: Agent, response: Option<map<string, Value>>): (r: Agent)
    ensures r.retries == a.retries + 1 && SameIdentity(a, r)
    ensures response.Some? && EqualsInt(Get(response.value, "code"), 403) ==> LoggedOut(r)
    ensures !(response.Some? && EqualsInt(Get(response.value, "code"), 403)) ==>
              r.status == Disconnected && r.token == a.token && r.accountInfo == a.accountInfo
  {
    var counted := a.(retries := a.retries + 1);
    if response.Some? && Truthy(Obj(response.value)) && EqualsInt(Get(response.value, "code"), 403) then
      HandleLogout(counted)
    else if counted.retries < Retries then
      counted.(status := Disconnected)
    else
      counted.(status := Disconnected)
  }

  /** The body `ping` sends: the account's `uid` (or `None`), the device id
      and the caller's clock reading. */
  function PingPayload(a: Agent, now: int): (req: PingRequest)
    ensures req.browserId == a.browserId && req.timestamp == now
    ensures "uid" in a.accountInfo ==> req.id == a.accountInfo["uid"]
    ensures "uid" !in a.accountInfo ==> req.id == Null
  {
    PingRequest(Get(a.accountInfo, "uid"), a.browserId, now)
  }

  /** `ping`: one heartbeat and its effect on the session. */
  function Ping(a: Agent, reply: Reply): (r: Agent)
    ensures SameIdentity(a, r)
    ensures Classify(reply) == Ok ==>
              r == a.(retries := 0, status := Connected)
    ensures Classify(reply) == Forbidden ==>
              LoggedOut(r) && r.retries == a.retries + 1
    ensures Classify(reply) == Failed ==>
              r.status == Disconnected && r.retries == a.retries + 1
              && r.token == a.token && r.accountInfo == a.accountInfo
    ensures Coherent(a) ==> Coherent(r)
  {
    match CallApi(reply)
    case Failure(_) => HandlePingFail(a, None)
    case Success(resp) =>
      if EqualsInt(resp["code"], 0) then a.(retries := 0, status := Connected)
      else HandlePingFail(a, Some(resp))
  }

  /** The connection state a heartbeat with reading `o` leaves behind. */
  function StatusFor(o: Outcome): ConnState {
    match o
    case Ok => Connected
    case Forbidden => NoneConnection
    case Failed => Disconnected
  }

  /** The session after the heartbeats `rs` of `start_ping`, answered in that
      order. The state reflects the latest reply only. */
  function PingLoop(a: Agent, rs: seq<Reply>): (r: Agent)
    ensures rs == [] ==> r == a
    ensures rs != [] ==> r.status == StatusFor(Classify(rs[|rs| - 1]))
    decreases |rs|
  {
    if rs == [] then a else Ping(PingLoop(a, rs[..|rs| - 1]), rs[|rs| - 1])
  }

  /** What `render_profile_info` decides before the heartbeat loop: start
      heartbeating, log out (the call answered but named no user), or stop
      on an exception. */
  datatype Auth = Proceed(agent: Agent) | Declined(agent: Agent) | Aborted(error: PyError)

  /** The authentication call answered with a dict `data` holding a truthy
      `uid`. */
  predicate GrantsUid(reply: Reply) {
    && CallApi(reply).Success?
    && "data" in CallApi(reply).value
    && CallApi(reply).value["data"].Obj?
    && Truthy(Get(CallApi(reply).value["data"].fields, "uid"))
  }

  /** The authentication call answered with a dict `data`, truthy `uid` or not. */
  predicate AnswersWithData(reply: Reply) {
    CallApi(reply).Success? && "data" in CallApi(reply).value && CallApi(reply).value["data"].Obj?
  }

  /** `render_profile_info` up to the heartbeat loop. `loaded` is what
      `load_session_info` returned; `reply` answers the session call, which
      is made only when nothing was loaded. */
  function Authenticate(a: Agent, loaded: map<string, Value>, reply: Reply): (r: Auth)
    ensures r.Proceed? <==> loaded != map[] || GrantsUid(reply)
    ensures r.Aborted? <==> loaded == map[] && !AnswersWithData(reply)
    ensures r.Proceed? && loaded != map[] ==> r.agent == a.(accountInfo := loaded)
    ensures r.Proceed? && loaded == map[] ==>
              GrantsUid(reply) && r.agent == a.(accountInfo := CallApi(reply).value["data"].fields)
    ensures r.Declined? ==> LoggedOut(r.agent) && SameIdentity(a, r.agent) && r.agent.retries == a.retries
    ensures Coherent(a) && a.token.Some? && !r.Aborted? ==> Coherent(r.agent)
  {
    if loaded != map[] then Proceed(a.(accountInfo := loaded))
    else match CallApi(reply)
      case Failure(e) => Aborted(e)
      case Success(resp) =>
        match Subscript(Obj(resp), "data")
        case Failure(e) => Aborted(e)
        case Success(data) =>
          if !data.Obj? then Aborted(AttributeErr)
          else
            var fetched := a.(accountInfo := data.fields);
            if Truthy(Get(data.fields, "uid")) then Proceed(fetched)
            else Declined(HandleLogout(fetched))
  }

  /** What `main` sees of a run: still in the heartbeat loop, or completed
      with the value its task returned. */
  datatype Run = Running(agent: Agent) | Completed(value: Option<Value>)

  /** `render_profile_info` as its task is observed: after `Proceed` it sits
      in the heartbeat loop, which never returns on its own; after a logout
      it falls off the end, and after an exception it executes
      `return None`. */
  function RenderProfileInfo(a: Agent, loaded: map<string, Value>, reply: Reply): (r: Run)
    ensures r.Completed? <==> loaded == map[] && !GrantsUid(reply)
    ensures r.Completed? ==> r.value == None
    ensures r.Running? ==> Authenticate(a, loaded, reply) == Proceed(r.agent)
  {
    match Authenticate(a, loaded, reply)
    case Proceed(b) => Running(b)
    case Declined(_) => Completed(None)
    case Aborted(_) => Completed(None)
  }

  // ---------------------------------------------------------------------
  // Properties relating several calls

  /** Logging out twice is logging out once. */
  lemma LogoutIdempotent(a: Agent)
    ensures HandleLogout(HandleLogout(a)) == HandleLogout(a)
  {
  }

  /** The `RETRIES` ceiling has no effect: apart from the counter itself, a
      failed heartbeat ends the same whether the counter was below or past
      the ceiling. */
  lemma RetryCeilingIsInert(a: Agent, response: Option<map<string, Value>>, n: nat, m: nat)
    ensures HandlePingFail(a.(retries := n), response).(retries := 0)
         == HandlePingFail(a.(retries := m), response).(retries := 0)
  {
  }

  /** `ping` follows the reference reading of its reply: its whole effect is
      fixed by the `Outcome` alone. */
  lemma PingDependsOnlyOnOutcome(a: Agent, r1: Reply, r2: Reply)
    requires Classify(r1) == Classify(r2)
    ensures Ping(a, r1) == Ping(a, r2)
  {
  }

  /** Heartbeats never change the proxy or the device id. */
  lemma {:induction false} LoopKeepsIdentity(a: Agent, rs: seq<Reply>)
    ensures SameIdentity(a, PingLoop(a, rs))
    decreases |rs|
  {
    if rs != [] {
      LoopKeepsIdentity(a, rs[..|rs| - 1]);
    }
  }

  /** Every heartbeat of a run carries the device id drawn at construction:
      whatever replies came before it, the payload names the same device. */
  lemma {:induction false} PayloadsCarryBrowserId(a: Agent, rs: seq<Reply>, now: int)
    ensures PingPayload(PingLoop(a, rs), now).browserId == a.browserId
  {
    LoopKeepsIdentity(a, rs);
  }

  /** Heartbeats keep the session coherent. */
  lemma {:induction false} LoopKeepsCoherent(a: Agent, rs: seq<Reply>)
    requires Coherent(a)
    ensures Coherent(PingLoop(a, rs))
    decreases |rs|
  {
    if rs != [] {
      LoopKeepsCoherent(a, rs[..|rs| - 1]);
    }
  }

  /** Some heartbeat among `rs` was answered with a forced logout. */
  predicate SawForbidden(rs: seq<Reply>) {
    exists i | 0 <= i < |rs| :: Classify(rs[i]) == Forbidden
  }

  /** The token survives the heartbeats exactly when it was present and no
      reply forced a logout; once cleared it stays cleared while the loop
      keeps running. */
  lemma {:induction false} TokenAfterLoop(a: Agent, rs: seq<Reply>)
    ensures PingLoop(a, rs).token == if a.token == None || SawForbidden(rs) then None else a.token
    decreases |rs|
  {
    if rs != [] {
      var init := rs[..|rs| - 1];
      TokenAfterLoop(a, init);
      if SawForbidden(init) {
        var i :| 0 <= i < |init| && Classify(init[i]) == Forbidden;
        assert rs[i] == init[i];
      }
    }
  }

  /** With no successful heartbeat among `rs`, the counter grows by one per
      heartbeat. */
  lemma {:induction false} FailuresAccumulate(a: Agent, rs: seq<Reply>)
    requires forall i | 0 <= i < |rs| :: Classify(rs[i]) != Ok
    ensures PingLoop(a, rs).retries == a.retries + |rs|
    decreases |rs|
  {
    if rs != [] {
      var init := rs[..|rs| - 1];
      assert forall i | 0 <= i < |init| :: init[i] == rs[i];
      FailuresAccumulate(a, init);
    }
  }

  /** After a successful heartbeat at position `k`, the counter equals the
      number of failures that followed it: it counts consecutive failures. */
  lemma {:induction false} CounterCountsSinceLastSuccess(a: Agent, rs: seq<Reply>, k: nat)
    requires k < |rs| && Classify(rs[k]) == Ok
    requires forall i | k < i < |rs| :: Classify(rs[i]) != Ok
    ensures PingLoop(a, rs).retries == |rs| - 1 - k
    ensures k == |rs| - 1 ==> PingLoop(a, rs).status == Connected
    decreases |rs|
  {
    var init := rs[..|rs| - 1];
    if k < |rs| - 1 {
      assert forall i | k < i < |init| :: init[i] == rs[i];
      assert init[k] == rs[k];
      CounterCountsSinceLastSuccess(a, init, k);
    }
  }

  /** One might expect a connected session to have a user id; it need not:
      after a forced logout the loop keeps running, and a later code 0
      reconnects a session that has neither token nor account. */
  lemma ConnectedWithoutAccount(a: Agent)
    ensures var s := PingLoop(a, [Decoded(Obj(map["code" := Num(403)])), Decoded(Obj(map["code" := Num(0)]))]);
            s.status == Connected && s.token == None && s.accountInfo == map[]
  {
    var rs := [Decoded(Obj(map["code" := Num(403)])), Decoded(Obj(map["code" := Num(0)]))];
    assert rs[..1][..0] == [];
    assert Classify(rs[0]) == Forbidden;
    assert Classify(rs[1]) == Ok;
  }

  /** A fresh agent that authenticates and then heartbeats stays coherent
      and keeps its device id. */
  lemma RunStaysCoherent(token: string, proxy: string, browserId: string,
                         loaded: map<string, Value>, reply: Reply, rs: seq<Reply>)
    requires Authenticate(NewAgent(token, proxy, browserId), loaded, reply).Proceed?
    ensures var s := PingLoop(Authenticate(NewAgent(token, proxy, browserId), loaded, reply).agent, rs);
            Coherent(s) && s.browserId == browserId && s.proxy == proxy
  {
    var b := Authenticate(NewAgent(token, proxy, browserId), loaded, reply).agent;
    LoopKeepsCoherent(b, rs);
    LoopKeepsIdentity(b, rs);
  }
}
