/** The orchestration in `main`: launch one agent task per proxy for the
    first hundred proxies, then repeatedly drop every completed task whose
    result is `None`. The scheduler is abstracted: each round is the map of
    tasks `asyncio.wait` reported done, to the value each returned. Fetching
    the proxy list, the sleeps and cancellation are left out. */
module Fleet {
  import opened Wrappers
  import opened Json
  import opened ProxyManager

  /** A task is named by the position of its proxy in the launched list. */
  type TaskId = nat

  /** `proxies[:100]`. */
  const MaxActive: nat := 100

  /** One scheduler report: completed tasks and the value each returned. */
  type Round = map<TaskId, Option<Value>>

  function Min(x: nat, y: nat): nat {
    if x < y then x else y
  }

  /** Task ids `0, …, n - 1`. */
  function Below(n: nat): (ids: set<TaskId>)
    ensures forall t: TaskId :: t in ids <==> t < n
  {
    if n == 0 then {} else Below(n - 1) + {n - 1}
  }

  /** `Below(n)` has `n` elements. */
  lemma {:induction false} BelowSize(n: nat)
    ensures |Below(n)| == n
  {
    if n > 0 {
      var smaller := Below(n - 1);
      BelowSize(n - 1);
      assert Below(n) == smaller + {n - 1};
      assert n - 1 !in smaller;
      assert |smaller + {n - 1}| == |smaller| + 1;
    }
  }

  /** The initial task map: one task per proxy among the first `MaxActive`,
      so duplicate addresses still get a task each. */
  function Launch(proxies: seq<string>): (tasks: map<TaskId, string>)
    ensures forall t: TaskId :: t in tasks <==> t < |proxies| && t < MaxActive
    ensures forall t :: t in tasks ==> tasks[t] == proxies[t]
    ensures |tasks| == Min(|proxies|, MaxActive)
  {
    var n := Min(|proxies|, MaxActive);
    var tasks := map t | t in Below(n) :: proxies[t];
    BelowSize(n);
    assert tasks.Keys == Below(n);
    tasks
  }

  /** One pass of the `for task in done` loop: pop each completed task whose
      result is `None`; others stay in the map. */
  function Retire(tasks: map<TaskId, string>, done: Round): (r: map<TaskId, string>)
    ensures r.Keys <= tasks.Keys
    ensures forall t :: t in r ==> r[t] == tasks[t]
    ensures forall t :: t in tasks && !(t in done && done[t] == None) ==> t in r
    ensures forall t :: t in done && done[t] == None ==> t !in r
  {
    map t | t in tasks && !(t in done && done[t] == None) :: tasks[t]
  }

  /** Some round among `rounds` reported task `t` done with result `None`. */
  predicate DroppedIn(t: TaskId, rounds: seq<Round>)
    decreases |rounds|
  {
    && rounds != []
    && (DroppedIn(t, rounds[..|rounds| - 1])
        || (t in rounds[|rounds| - 1] && rounds[|rounds| - 1][t] == None))
  }

  /** `DroppedIn` is the plain existential: some round reported `t` done
      with result `None`. */
  lemma {:induction false} DroppedInIsExists(t: TaskId, rounds: seq<Round>)
    ensures DroppedIn(t, rounds) <==> exists i | 0 <= i < |rounds| :: t in rounds[i] && rounds[i][t] == None
    decreases |rounds|
  {
    if rounds != [] {
      var init := rounds[..|rounds| - 1];
      DroppedInIsExists(t, init);
      if DroppedIn(t, init) {
        var i :| 0 <= i < |init| && t in init[i] && init[i][t] == None;
        assert rounds[i] == init[i];
      }
      if exists i | 0 <= i < |rounds| :: t in rounds[i] && rounds[i][t] == None {
        var i :| 0 <= i < |rounds| && t in rounds[i] && rounds[i][t] == None;
        if i < |init| {
          assert init[i] == rounds[i];
        }
      }
    }
  }

  /** Active tasks after the scheduler rounds `rounds` of the `while tasks`
      loop, in order: exactly the launched tasks no round reported done with
      result `None`. */
  function After(tasks: map<TaskId, string>, rounds: seq<Round>): (r: map<TaskId, string>)
    ensures forall t :: t in r <==> t in tasks && !DroppedIn(t, rounds)
    decreases |rounds|
  {
    if rounds == [] then tasks
    else Retire(After(tasks, rounds[..|rounds| - 1]), rounds[|rounds| - 1])
  }

  /** The active map only shrinks: a task absent after round `i` is absent
      after every later round, so a dropped task is never re-added. */
  lemma {:induction false} NeverReAdded(tasks: map<TaskId, string>, rounds: seq<Round>, i: nat)
    requires i <= |rounds|
    ensures After(tasks, rounds).Keys <= After(tasks, rounds[..i]).Keys
    decreases |rounds|
  {
    if i < |rounds| {
      var init := rounds[..|rounds| - 1];
      assert init[..i] == rounds[..i];
      NeverReAdded(tasks, init, i);
    } else {
      assert rounds[..i] == rounds;
    }
  }

  /** Every active task still maps to the proxy it was launched with, and
      there are never more than `MaxActive` of them. */
  lemma {:induction false} ActiveStaysLaunched(proxies: seq<string>, rounds: seq<Round>)
    ensures var active := After(Launch(proxies), rounds);
            && active.Keys <= Launch(proxies).Keys
            && (forall t :: t in active ==> active[t] == proxies[t])
            && |active| <= MaxActive
  {
    NeverReAdded(Launch(proxies), rounds, 0);
    assert rounds[..0] == [];
    var active := After(Launch(proxies), rounds);
    ValuesKept(Launch(proxies), rounds);
    assert |active.Keys| <= |Launch(proxies).Keys| by {
      SubsetSize(active.Keys, Launch(proxies).Keys);
    }
  }

  lemma SubsetSize<T>(a: set<T>, b: set<T>)
    requires a <= b
    ensures |a| <= |b|
  {
    assert b == a + (b - a);
  }

  /** Rounds never change the proxy a task stands for. */
  lemma {:induction false} ValuesKept(tasks: map<TaskId, string>, rounds: seq<Round>)
    ensures forall t :: t in After(tasks, rounds) ==> t in tasks && After(tasks, rounds)[t] == tasks[t]
    decreases |rounds|
  {
    if rounds != [] {
      ValuesKept(tasks, rounds[..|rounds| - 1]);
    }
  }

  /** The inputs of one agent's run: the agent as launched, what
      `load_session_info` returned and the answer to the session call. */
  datatype RunInputs = RunInputs(agent: Agent, loaded: map<string, Value>, reply: Reply)

  /** The run `inputs` lead to, as `main` observes it. */
  function RunOf(inputs: RunInputs): Run {
    RenderProfileInfo(inputs.agent, inputs.loaded, inputs.reply)
  }

  /** The run `inputs` lead to has completed. */
  predicate Finished(inputs: RunInputs) {
    RunOf(inputs).Completed?
  }

  /** The scheduler report built from the runs that completed: each maps to
      what its `render_profile_info` returned. */
  function Results(finished: map<TaskId, RunInputs>): (done: Round)
    requires forall t :: t in finished ==> Finished(finished[t])
    ensures done.Keys == finished.Keys
  {
    map t | t in finished :: assert Finished(finished[t]); RunOf(finished[t]).value
  }

  /** Completed agent runs always return `None`, so every task reported done
      is dropped, whether it logged out or hit an exception. */
  lemma FinishedRunsAreRetired(tasks: map<TaskId, string>, finished: map<TaskId, RunInputs>)
    requires forall t :: t in finished ==> Finished(finished[t])
    ensures Retire(tasks, Results(finished)).Keys == tasks.Keys - finished.Keys
  {
  }

  /** One more round extends `After` by one `Retire`. */
  lemma AfterOneMore(tasks: map<TaskId, string>, rounds: seq<Round>, i: nat)
    requires i < |rounds|
    ensures After(tasks, rounds[..i + 1]) == Retire(After(tasks, rounds[..i]), rounds[i])
  {
    assert rounds[..i + 1][..i] == rounds[..i];
  }

  /** Stopping at an empty map, or after the last round, gives the map after
      all the rounds. */
  lemma StopIsFinal(tasks: map<TaskId, string>, rounds: seq<Round>, used: nat)
    requires used <= |rounds|
    requires After(tasks, rounds[..used]) == map[] || used == |rounds|
    ensures After(tasks, rounds[..used]) == After(tasks, rounds)
  {
    NeverReAdded(tasks, rounds, used);
    if used == |rounds| {
      assert rounds[..used] == rounds;
    }
  }

  /** `main`'s loop: run scheduler rounds while tasks remain. It stops early
      once the map is empty, which later rounds could not change anyway. */
  method RunFleet(proxies: seq<string>, rounds: seq<Round>) returns (active: map<TaskId, string>)
    ensures active == After(Launch(proxies), rounds)
    ensures |active| <= MaxActive
  {
    var launched := Launch(proxies);
    active := launched;
    var used := 0;
    while active != map[] && used < |rounds|
      invariant used <= |rounds|
      invariant active == After(launched, rounds[..used])
    {
      AfterOneMore(launched, rounds, used);
      active := Retire(active, rounds[used]);
      used := used + 1;
    }
    assert active == After(launched, rounds) by {
      StopIsFinal(launched, rounds, used);
    }
    assert |active| <= MaxActive by {
      ActiveStaysLaunched(proxies, rounds);
    }
  }
}
