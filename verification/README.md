# Proxy presence sessions: a Dafny model of `noda.py`

`noda.py` keeps many "presence" sessions alive against a remote service. Each
session goes through its own proxy and runs in a `ProxyManager`. A session
authenticates once. It then sends a heartbeat ("ping") every 30 seconds. Each
reply moves the session between three connection states: `CONNECTED`,
`DISCONNECTED` and `NONE_CONNECTION`. `main` launches one session task for each
of the first 100 proxies. It drops every task that completes.

The project models these parts:

- `json.dfy` (module `Json`): a decoded JSON body. It holds the Python
  operators that `valid_resp` and its callers apply to the body: truthiness,
  `in`, `[]`, `<`, `==` and `dict.get`.
- `proxy_manager.dfy` (module `ProxyManager`): the `ProxyManager` session as an
  immutable `Agent` record, with one pure function per method. The network
  call becomes a `Reply` value: it either raised or decoded a body.
  `Classify` is an independent reference reading of a heartbeat reply:
  code 0 is `Ok`, 403 is `Forbidden`, everything else is `Failed`. The lemmas
  relate `Ping` to that reading, and they relate whole heartbeat sequences
  (`PingLoop`) to the failure counter, the token and the device id.
- `fleet.dfy` (module `Fleet`): `main`'s task map and its rounds. A scheduler
  round is the set of tasks `asyncio.wait` reported done, each with the value
  its task returned.
- `wrappers.dfy` (module `Wrappers`): `Option` and `Result`.

The model includes these quirks of the code:

- A 403 reply passes validation.
- A 403 reply still increments `retries` before the logout.
- The `RETRIES` test has the same effect on both of its branches.
- After a logout, the heartbeat loop keeps running with no token.
- Python compares `False == 0` as true, so a body `{"code": false}` passes
  validation and counts as a successful heartbeat.
- Stored session data is adopted without checking for a `uid`.

Some behaviour one might expect of such a session does not hold in the code,
and the model follows the code:

- Authentication does not set `CONNECTED`. The state stays `NONE_CONNECTION`
  until a heartbeat succeeds.
- A connected session need not have a user id. `ConnectedWithoutAccount`
  exhibits a connected session with no token and no account. The invariant
  that does hold is `Coherent`:
  - a connected session has `retries == 0`;
  - a disconnected session has `retries > 0`;
  - a session with a cleared token has an empty `account_info`.
- A forced logout during the heartbeat loop (a 403 reply) does not end the run.

## Model

| member | source | states |
|---|---|---|
| ProxyManager.NewAgent | noda.py:26-32 | A new agent has the given token, proxy and device id. It starts in `NONE_CONNECTION` with `retries = 0` and an empty `account_info`. That state already satisfies the `Coherent` invariant. |
| ProxyManager.ValidResp | noda.py:49-54 | The Python short-circuit test accepts exactly a dict whose `code` is a non-negative number or a boolean. Absent, empty, non-dict, code-less, negative-code and non-numeric-code bodies are all rejected. An accepted body is returned unchanged, so a 403 passes. |
| ProxyManager.CallApi | noda.py:34-47 | The call succeeds exactly when the transport answered and the body validates. A successful result is the decoded body unchanged, and it always carries an acceptable `code`. |
| ProxyManager.HandleLogout | noda.py:98-103 | Logout yields the logged-out state: no token, empty `account_info`, `NONE_CONNECTION`. Proxy, device id and `retries` are kept. |
| ProxyManager.HandlePingFail | noda.py:88-96 | A failure always increments `retries` by exactly 1, and a 403 does so before the logout. A 403 response logs out. Any other failure sets `DISCONNECTED` and keeps the token and `account_info`. |
| ProxyManager.PingPayload | noda.py:70-74 | The heartbeat body carries the account's `uid` (or `None` when it is missing), the agent's device id and the supplied timestamp. |
| ProxyManager.Ping | noda.py:68-86 | `Ping` agrees with the reference reading `Classify`. `Ok` sets `retries = 0` and `CONNECTED` and changes nothing else, whatever the previous count. `Forbidden` logs out with `retries + 1`. `Failed` sets `DISCONNECTED` with `retries + 1` and keeps the token and account. Proxy and device id never change, and the `Coherent` invariant is preserved. |
| ProxyManager.Authenticate | noda.py:105-123 | The run goes on to heartbeats exactly when stored data is non-empty or the session call returned a dict `data` with a truthy `uid`. It aborts with an exception exactly when nothing was stored and the call failed or gave no dict `data`. Otherwise it logs out. On the fetched path `account_info` becomes the reply's `data` dict, and nothing else changes. Adopted stored data likewise replaces only `account_info`. |
| ProxyManager.PingLoop | noda.py:56-62 | The heartbeat loop with no replies leaves the session unchanged. After one or more, the connection state is fixed by the reading of the latest reply alone: `CONNECTED` for success, `NONE_CONNECTION` for a 403, `DISCONNECTED` otherwise. The loop lemmas below give the counter, the token and the identity. |
| ProxyManager.RenderProfileInfo | noda.py:105-123 | A run completes exactly when nothing was loaded and the session call did not grant a truthy `uid`, either by logging out and falling off the end or through `return None` after an exception. A completed run's value is always `None`. A run that does not complete sits in the heartbeat loop with the agent `Authenticate` produced. |
| ProxyManager.LogoutIdempotent | noda.py:98-102 | Logging out twice gives the same state as logging out once. |
| ProxyManager.RetryCeilingIsInert | noda.py:88-96 | A failed heartbeat ends in the same state, apart from the counter, whether `retries` was below `RETRIES` or at or above it. The ceiling has no effect. |
| ProxyManager.PingDependsOnlyOnOutcome | noda.py:76-92 | Two replies with the same reading (`Ok`, `Forbidden`, `Failed`) have the same effect on any session. |
| ProxyManager.LoopKeepsIdentity | noda.py:56-62 | No sequence of heartbeats changes the proxy or the device id, which is assigned only at construction. |
| ProxyManager.PayloadsCarryBrowserId | noda.py:70-74 | The heartbeat sent after any number of replies carries the device id the agent was built with. |
| ProxyManager.LoopKeepsCoherent | noda.py:78-102 | Any sequence of heartbeats preserves the `Coherent` invariant. |
| ProxyManager.TokenAfterLoop | noda.py:60-102 | After a sequence of heartbeats the token is kept exactly when it was present and no reply was a 403. Otherwise it is cleared, and it stays cleared while the loop goes on. |
| ProxyManager.FailuresAccumulate | noda.py:83-90 | Without a successful heartbeat, the counter grows by exactly the number of heartbeats. |
| ProxyManager.CounterCountsSinceLastSuccess | noda.py:78-90 | After the last success, the counter equals the number of failures that followed it. If the last heartbeat succeeded, the state is `CONNECTED`. |
| ProxyManager.ConnectedWithoutAccount | noda.py:78-102 | A 403 followed by a code-0 reply gives `CONNECTED` with no token and an empty `account_info`. |
| ProxyManager.RunStaysCoherent | noda.py:105-120 | A fresh agent that authenticates and then sends any heartbeats stays `Coherent` and keeps its proxy and device id. |
| Fleet.Launch | noda.py:154-158 | One task is launched per proxy among the first 100, and each maps to its own proxy. The map has exactly min(number of proxies, 100) tasks. |
| Fleet.Retire | noda.py:160-165 | A round never adds a task. It removes every reported task whose result is `None`. It keeps every other task, whether unreported or reported with another result, with its proxy unchanged. |
| Fleet.After | noda.py:160-167 | After any sequence of rounds, a task is active exactly when it was launched and no round reported it done with result `None`. |
| Fleet.NeverReAdded | noda.py:160-165 | Across any sequence of rounds the active map only shrinks, so a dropped task is never re-added. |
| Fleet.ValuesKept | noda.py:160-165 | Every task still active maps to the proxy it was launched with. |
| Fleet.ActiveStaysLaunched | noda.py:156-165 | After any rounds, every active task is one that was launched, still with its own proxy. There are never more than 100 active tasks. |
| Fleet.FinishedRunsAreRetired | noda.py:160-165 | When a round reports completed runs, each with the value `render_profile_info` returned, it drops exactly those tasks. |
| Fleet.DroppedInIsExists | noda.py:162-164 | The recursive `DroppedIn` used by `After` agrees with the plain reading: some round reported the task done with result `None`. |
| Fleet.RunFleet | noda.py:149-167 | The loop stops once the map is empty or the rounds run out. Its result is the map after all the rounds (`After`), with at most 100 tasks. |

## Left out

- HTTP and proxy I/O are not modelled: the `aiohttp` session in `call_api` and `fetch_proxies` with its URL. A call is a `Reply` that either raised or decoded a JSON body. The various exceptions a call can raise (client error, timeout, undecodable body) are one `CallFailed`, because every caller catches them alike.
- asyncio scheduling is not modelled: `asyncio.wait`, the sleeps (`PING_INTERVAL`, the 3-second poll), cancellation and `CancelledError` handling in `start_ping`. A round of the fleet is a supplied map from completed tasks to their results. `PingLoop` is the state after any finite number of heartbeats.
- The `except Exception` branch of `start_ping` is not modelled. It cannot be taken here: `ping` catches every exception of the call, and `account_info` is always a dict when heartbeats start.
- `time.time()` and `uuid.uuid4()` come from the environment. They are inputs: `now` for `PingPayload` and `browserId` for `NewAgent`.
- `load_session_info` and `save_session_info` are no-op placeholders. The loaded data is an input map. Saving has no effect and is omitted.
- Logging through loguru is left out. So are the `NP_TOKEN` and `DOMAIN_API` constants, and the numbers 1, 2, 3 behind `CONNECTION_STATES`, which are an enumeration here.
- JSON floating-point numbers are not modelled: a code such as `0.0` cannot be expressed.
- ProxyManager.Authenticate: when it aborts, the model records the exception but not the agent's fields. The run ends and the agent is discarded, so those fields are never observed.
- Fleet.Retire: it ignores a reported task that is not in the map, where Python's `tasks.pop` would raise. `asyncio.wait` only reports tasks it was given, so this case does not arise.
