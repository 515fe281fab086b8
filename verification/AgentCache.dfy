/** The cache of Consul agents, and the retry loop that evicts the ones that keep failing. */
module AgentCache {
  import opened Text

  const UINT32: nat := 0x1_0000_0000

  /** Consecutive failures by agent address. */
  type Cache = map<string, nat>

  // ---- sums over maps -------------------------------------------------------

  ghost function Sum(m: map<string, nat>): nat
  {
    if m == map[] then 0
    else
      var k :| k in m;
      m[k] + Sum(m - {k})
  }

  lemma {:induction false} SumWithout(m: map<string, nat>, k: string)
    requires k in m
    ensures Sum(m) == m[k] + Sum(m - {k})
    decreases |m|
  {
    var j :| j in m && Sum(m) == m[j] + Sum(m - {j});
    if j != k {
      SumWithout(m - {j}, k);
      SumWithout(m - {k}, j);
      assert m - {j} - {k} == m - {k} - {j};
    }
  }

  lemma SumUpdate(m: map<string, nat>, k: string, n: nat)
    ensures Sum(m[k := n]) == n + Sum(m - {k})
  {
    SumWithout(m[k := n], k);
    assert m[k := n] - {k} == m - {k};
  }

  // ---- one provider call on values ------------------------------------------

  function AfterFailure(c: Cache, ip: string, tolerance: nat): Cache
    requires ip in c
  {
    if c[ip] + 1 > tolerance then c - {ip} else c[ip := c[ip] + 1]
  }

  predicate Bounded(c: Cache, tolerance: nat) { forall ip :: ip in c ==> c[ip] <= tolerance }

  /** How many more failures the unreliable agents can cause before all are evicted. */
  function Credits(c: Cache, bad: set<string>, tolerance: nat): map<string, nat>
    requires Bounded(c, tolerance)
  {
    map ip | ip in c && ip in bad :: tolerance + 1 - c[ip]
  }

  ghost function Slack(c: Cache, bad: set<string>, tolerance: nat): nat
    requires Bounded(c, tolerance)
  {
    Sum(Credits(c, bad, tolerance))
  }

  /** Every failure of an unreliable agent costs one unit of slack. */
  lemma FailureCostsOne(c: Cache, bad: set<string>, tolerance: nat, ip: string)
    requires Bounded(c, tolerance) && ip in c && ip in bad
    ensures Bounded(AfterFailure(c, ip, tolerance), tolerance)
    ensures Slack(c, bad, tolerance) == 1 + Slack(AfterFailure(c, ip, tolerance), bad, tolerance)
  {
    var before, c' := Credits(c, bad, tolerance), AfterFailure(c, ip, tolerance);
    var after := Credits(c', bad, tolerance);
    SumWithout(before, ip);
    if c[ip] + 1 > tolerance {
      assert after == before - {ip};
    } else {
      SumUpdate(before, ip, tolerance - c[ip]);
      assert after == before[ip := tolerance - c[ip]];
    }
  }

  lemma FailureIsCounted(c: Cache, ip: string, tolerance: nat)
    requires Bounded(c, tolerance) && ip in c
    ensures Bounded(AfterFailure(c, ip, tolerance), tolerance)
    ensures Sum(AfterFailure(c, ip, tolerance)) + (if ip in AfterFailure(c, ip, tolerance) then 0 else tolerance + 1) ==
            Sum(c) + 1
  {
    SumWithout(c, ip);
    if c[ip] + 1 <= tolerance {
      SumUpdate(c, ip, c[ip] + 1);
    }
  }

  lemma SuccessWipes(c: Cache, ip: string)
    requires ip in c
    ensures Sum(c[ip := 0]) + c[ip] == Sum(c)
  {
    SumWithout(c, ip);
    SumUpdate(c, ip, 0);
  }

  lemma JoiningAddsNothing(c: Cache, ip: string)
    requires ip !in c
    ensures Sum(c[ip := 0]) == Sum(c)
  {
    SumUpdate(c, ip, 0);
    assert c - {ip} == c;
  }

  // ---- any number of calls --------------------------------------------------

  /** What can happen to the cache while there is no local agent. */
  datatype Call = Joined(ip: string) | Failed(ip: string) | Succeeded(ip: string)

  /** Only a new agent joins, and only cached agents are called. */
  function AfterCall(c: Cache, call: Call, tolerance: nat): Option<Cache>
  {
    match call
    case Joined(ip) => if ip in c then None else Some(c[ip := 0])
    case Failed(ip) => if ip in c then Some(AfterFailure(c, ip, tolerance)) else None
    case Succeeded(ip) => if ip in c then Some(c[ip := 0]) else None
  }

  function Replay(c: Cache, calls: seq<Call>, tolerance: nat): Option<Cache>
  {
    if calls == [] then Some(c)
    else
      match Replay(c, calls[..|calls| - 1], tolerance)
      case Some(c') => AfterCall(c', calls[|calls| - 1], tolerance)
      case None => None
  }

  lemma ReplayOneMore(c: Cache, calls: seq<Call>, call: Call, tolerance: nat)
    requires Replay(c, calls, tolerance).Some?
    ensures Replay(c, calls + [call], tolerance) == AfterCall(Replay(c, calls, tolerance).value, call, tolerance)
  {
    assert (calls + [call])[..|calls + [call]| - 1] == calls;
  }

  function FailedCalls(calls: seq<Call>): nat
  {
    if calls == [] then 0 else FailedCalls(calls[..|calls| - 1]) + if calls[|calls| - 1].Failed? then 1 else 0
  }

  function Joins(calls: seq<Call>): nat
  {
    if calls == [] then 0 else Joins(calls[..|calls| - 1]) + if calls[|calls| - 1].Joined? then 1 else 0
  }

  /** How many failed calls took their agent out of the cache. */
  function Evictions(c: Cache, calls: seq<Call>, tolerance: nat): nat
    requires Replay(c, calls, tolerance).Some?
  {
    if calls == [] then 0
    else
      var last := calls[|calls| - 1];
      Evictions(c, calls[..|calls| - 1], tolerance) +
      if last.Failed? && last.ip !in Replay(c, calls, tolerance).value then 1 else 0
  }

  /** The failures that were in the counters of the agents that then succeeded. */
  function Wiped(c: Cache, calls: seq<Call>, tolerance: nat): nat
    requires Replay(c, calls, tolerance).Some?
  {
    if calls == [] then 0
    else
      var init, last := calls[..|calls| - 1], calls[|calls| - 1];
      Wiped(c, init, tolerance) + if last.Succeeded? then Replay(c, init, tolerance).value[last.ip] else 0
  }

  lemma OneCall(c: Cache, call: Call, tolerance: nat)
    requires Bounded(c, tolerance) && AfterCall(c, call, tolerance).Some?
    ensures var c' := AfterCall(c, call, tolerance).value;
            && Bounded(c', tolerance)
            && Sum(c') + (if call.Failed? && call.ip !in c' then tolerance + 1 else 0) +
               (if call.Succeeded? then c[call.ip] else 0) ==
               Sum(c) + if call.Failed? then 1 else 0
  {
    match call
    case Joined(ip) => JoiningAddsNothing(c, ip);
    case Failed(ip) => FailureIsCounted(c, ip, tolerance);
    case Succeeded(ip) => SuccessWipes(c, ip);
  }

  /** Conservation of failures over any sequence of calls: every failed call is still in
      a counter, was used up by an eviction, or was wiped out by a success. */
  lemma {:induction false} Conservation(c: Cache, calls: seq<Call>, tolerance: nat)
    requires Bounded(c, tolerance) && Replay(c, calls, tolerance).Some?
    ensures var c' := Replay(c, calls, tolerance).value;
            && Bounded(c', tolerance)
            && Paid(tolerance, Evictions(c, calls, tolerance)) + Sum(c') + Wiped(c, calls, tolerance) ==
               Sum(c) + FailedCalls(calls)
  {
    if calls != [] {
      var init, last := calls[..|calls| - 1], calls[|calls| - 1];
      Conservation(c, init, tolerance);
      OneCall(Replay(c, init, tolerance).value, last, tolerance);
    }
  }

  /** The books of a client whose cache was empty in the beginning. */
  lemma BooksBalance(calls: seq<Call>, tolerance: nat)
    requires Replay(map[], calls, tolerance).Some?
    ensures var c := Replay(map[], calls, tolerance).value;
            && Bounded(c, tolerance)
            && (tolerance + 1) * Evictions(map[], calls, tolerance) + Sum(c) + Wiped(map[], calls, tolerance) ==
              FailedCalls(calls)
  {
    Conservation(map[], calls, tolerance);
    PaidIsProduct(tolerance, Evictions(map[], calls, tolerance));
  }

  /** Agents only come by joining and only go by eviction. */
  lemma {:induction false} EvictionsShrink(c: Cache, calls: seq<Call>, tolerance: nat)
    requires Replay(c, calls, tolerance).Some?
    ensures |Replay(c, calls, tolerance).value| + Evictions(c, calls, tolerance) == |c| + Joins(calls)
  {
    if calls != [] {
      var init, last := calls[..|calls| - 1], calls[|calls| - 1];
      EvictionsShrink(c, init, tolerance);
      SizeAfterCall(Replay(c, init, tolerance).value, last, tolerance);
    }
  }

  lemma OneMoreKey(c: Cache, ip: string, n: nat)
    ensures |c[ip := n]| == if ip in c then |c| else |c| + 1
  {
    assert c[ip := n].Keys == c.Keys + {ip};
    if ip in c {
      assert c.Keys + {ip} == c.Keys;
    }
  }

  lemma OneKeyLess(c: Cache, ip: string)
    requires ip in c
    ensures |c - {ip}| == |c| - 1
  {
    assert (c - {ip}).Keys == c.Keys - {ip};
  }

  lemma SizeAfterCall(c: Cache, call: Call, tolerance: nat)
    requires AfterCall(c, call, tolerance).Some?
    ensures var c' := AfterCall(c, call, tolerance).value;
            |c'| + (if call.Failed? && call.ip !in c' then 1 else 0) == |c| + if call.Joined? then 1 else 0
  {
    if call.Failed? && c[call.ip] + 1 > tolerance {
      OneKeyLess(c, call.ip);
    } else {
      OneMoreKey(c, call.ip, if call.Failed? then c[call.ip] + 1 else 0);
    }
  }

  /** What so many evictions have used up. */
  ghost function Paid(tolerance: nat, evictions: nat): nat
  {
    if evictions == 0 then 0 else Paid(tolerance, evictions - 1) + tolerance + 1
  }

  lemma {:induction false} PaidIsProduct(tolerance: nat, evictions: nat)
    ensures Paid(tolerance, evictions) == (tolerance + 1) * evictions
  {
    if evictions > 0 {
      PaidIsProduct(tolerance, evictions - 1);
    }
  }

  // ---- the exact number of retries ------------------------------------------

  /** The cache after failed calls to the chosen agents, if all of them were still
      cached when they were chosen. */
  function Run(c: Cache, choices: seq<string>, tolerance: nat): Option<Cache>
  {
    if choices == [] then Some(c)
    else
      var last := choices[|choices| - 1];
      match Run(c, choices[..|choices| - 1], tolerance)
      case Some(c') => if last in c' then Some(AfterFailure(c', last, tolerance)) else None
      case None => None
  }

  lemma RunOneMore(c: Cache, choices: seq<string>, ip: string, tolerance: nat)
    requires Run(c, choices, tolerance).Some? && ip in Run(c, choices, tolerance).value
    ensures Run(c, choices + [ip], tolerance) == Some(AfterFailure(Run(c, choices, tolerance).value, ip, tolerance))
  {
    assert (choices + [ip])[..|choices + [ip]| - 1] == choices;
  }

  /** The chosen agents all failed, and all of them are unreliable. */
  predicate AllFail(c: Cache, bad: set<string>, choices: seq<string>, tolerance: nat)
  {
    Run(c, choices, tolerance).Some? && forall i :: 0 <= i < |choices| ==> choices[i] in bad
  }

  lemma {:induction false} FailuresUseSlack(c: Cache, bad: set<string>, choices: seq<string>, tolerance: nat)
    requires Bounded(c, tolerance) && AllFail(c, bad, choices, tolerance)
    ensures var c' := Run(c, choices, tolerance).value;
            Bounded(c', tolerance) && Slack(c, bad, tolerance) == |choices| + Slack(c', bad, tolerance)
    ensures forall ip :: ip in c && ip !in bad ==> ip in Run(c, choices, tolerance).value
  {
    if choices != [] {
      var init, last := choices[..|choices| - 1], choices[|choices| - 1];
      FailuresUseSlack(c, bad, init, tolerance);
      FailureCostsOne(Run(c, init, tolerance).value, bad, tolerance, last);
    }
  }

  lemma {:induction false} WorstChoices(c: Cache, bad: set<string>, tolerance: nat, n: nat)
    returns (choices: seq<string>)
    requires Bounded(c, tolerance) && n <= Slack(c, bad, tolerance)
    ensures |choices| == n && AllFail(c, bad, choices, tolerance)
  {
    choices := [];
    if n > 0 {
      var init := WorstChoices(c, bad, tolerance, n - 1);
      FailuresUseSlack(c, bad, init, tolerance);
      var ip :| ip in Credits(Run(c, init, tolerance).value, bad, tolerance);
      choices := init + [ip];
      assert choices[..|choices| - 1] == init;
    }
  }

  /** No `retries + 1` draws of cached agents are all failures of unreliable ones exactly
      when there are at least as many retries as slack. */
  lemma RetriesSufficeIff(c: Cache, bad: set<string>, tolerance: nat, retries: nat)
    requires Bounded(c, tolerance)
    ensures (forall choices :: |choices| == retries + 1 ==> !AllFail(c, bad, choices, tolerance)) <==>
            retries >= Slack(c, bad, tolerance)
  {
    if retries >= Slack(c, bad, tolerance) {
      forall choices | |choices| == retries + 1 ensures !AllFail(c, bad, choices, tolerance) {
        if AllFail(c, bad, choices, tolerance) {
          FailuresUseSlack(c, bad, choices, tolerance);
        }
      }
    } else {
      var choices := WorstChoices(c, bad, tolerance, retries + 1);
    }
  }

  lemma {:induction false} SumIsBounded(credits: map<string, nat>, most: nat)
    requires forall ip :: ip in credits ==> credits[ip] <= most + 1
    ensures Sum(credits) <= Paid(most, |credits|)
    decreases |credits|
  {
    if credits != map[] {
      var ip :| ip in credits;
      SumWithout(credits, ip);
      SumIsBounded(credits - {ip}, most);
      assert |credits - {ip}| == |credits| - 1 by {
        assert (credits - {ip}).Keys == credits.Keys - {ip};
      }
    }
  }

  /** Each unreliable agent that is cached is worth at most `tolerance + 1` failures. */
  lemma SlackIsBounded(c: Cache, bad: set<string>, tolerance: nat)
    requires Bounded(c, tolerance)
    ensures Slack(c, bad, tolerance) <= (tolerance + 1) * |bad * c.Keys|
  {
    var credits := Credits(c, bad, tolerance);
    SumIsBounded(credits, tolerance);
    assert credits.Keys == bad * c.Keys;
    PaidIsProduct(tolerance, |credits|);
  }

  // ---- the objects ----------------------------------------------------------

  type Uint32 = n: nat | n < UINT32

  function AddUint32(n: Uint32, m: nat): Uint32 { (n + m) % UINT32 }

  lemma AddOneMore(n: Uint32, m: nat)
    ensures AddUint32(AddUint32(n, m), 1) == AddUint32(n, m + 1)
  {
  }

  class Agent {
    const ip: string
    var failures: Uint32

    constructor (ip: string)
      ensures this.ip == ip && failures == 0
    {
      this.ip, failures := ip, 0;
    }

    method IncFailures() returns (n: Uint32)
      modifies this
      ensures n == failures == AddUint32(old(failures), 1)
      ensures n == if old(failures) == 4294967295 then 0 else old(failures) + 1
    {
      failures := AddUint32(failures, 1);
      n := failures;
    }

    method ClearFailures()
      modifies this
      ensures failures == 0
    {
      failures := 0;
    }
  }

  /** What the provider would return at each attempt, by agent; an agent that is
      missing fails then. */
  type Answers<S> = seq<map<string, S>>

  function Answer<S>(answers: Answers<S>, n: nat, ip: string): Option<S>
  {
    if n < |answers| && ip in answers[n] then Some(answers[n][ip]) else None
  }

  datatype Outcome<+S> = Found(services: S) | NoAgents | GaveUp

  /** Resolving an address that came out of resolving gives the same address. */
  predicate Canonical(dns: map<string, string>)
  {
    forall ip :: ip in dns.Values ==> ip in dns && dns[ip] == ip
  }

  type Dns = dns: map<string, string> | Canonical(dns) witness map[]

  /** A configured number below the largest uint32, where the Go loop would not end. */
  type Limit = n: nat | n + 1 < UINT32

  /** The agent cache and the client that uses it. Without a local agent the ghost
      log explains the counters over the whole run. */
  class Consul {
    const retries: Limit
    const tolerance: Limit
    /** `HostToIPv4`: the names that resolve. */
    const dns: Dns
    var localAgent: Agent?
    var agents: map<string, Agent>
    /** All that happened to the cache. */
    ghost var calls: seq<Call>

    ghost predicate Valid()
      reads this, agents.Values
    {
      WellKept() && (localAgent == null ==> Logged())
    }

    /** Agents are cached under their own resolved addresses. */
    ghost predicate WellKept()
      reads this`agents, agents.Values
    {
      (forall ip :: ip in agents ==> agents[ip].ip == ip && ip in dns && dns[ip] == ip)
    }

    /** The counters are what the calls leave behind; `BooksBalance` is about those calls. */
    ghost predicate Logged()
      reads this, agents.Values
    {
      Replay(map[], calls, tolerance) == Some(Counters())
    }

    ghost function Counters(): (c: Cache)
      reads this`agents, agents.Values
      ensures c.Keys == agents.Keys
    {
      map ip | ip in agents :: agents[ip].failures
    }

    /** A local host that does not resolve is fatal. */
    constructor (retries: Limit, tolerance: Limit, dns: Dns, localHost: string)
      requires localHost == "" || localHost in dns
      ensures Valid() && calls == if localHost == "" then [] else [Joined(dns[localHost])]
      ensures localAgent == null <==> localHost == ""
      ensures agents.Keys == if localHost == "" then {} else {dns[localHost]}
      ensures this.retries == retries && this.tolerance == tolerance && this.dns == dns
    {
      this.retries, this.tolerance, this.dns := retries, tolerance, dns;
      agents, calls := map[], [];
      localAgent := null;
      new;
      assert Counters() == map[];
      if localHost != "" {
        var agent := GetAgent(localHost);
        localAgent := agent.value;
      }
    }

    /** `GetAgent`: a new agent starts with no failures. */
    method GetAgent(address: string) returns (agent: Option<Agent>)
      requires Valid()
      modifies this`agents, this`calls
      ensures Valid() && (forall ip :: ip in old(agents) ==> ip in agents && agents[ip] == old(agents)[ip])
      ensures agent.Some? <==> address in dns
      ensures agent.Some? ==> dns[address] in agents && agents[dns[address]] == agent.value
      ensures Counters() == if address in dns && dns[address] !in old(agents) then old(Counters())[dns[address] := 0]
                            else old(Counters())
      ensures calls == old(calls) +
                       if address in dns && dns[address] !in old(agents) then [Joined(dns[address])] else []
    {
      if address !in dns {
        return None;
      }
      var ip := dns[address];
      assert ip in dns.Values;
      if ip in agents {
        return Some(agents[ip]);
      }
      ghost var before := Counters();
      var newAgent := new Agent(ip);
      agents := agents[ip := newAgent];
      assert Counters() == before[ip := 0];
      if localAgent == null {
        ReplayOneMore(map[], calls, Joined(ip), tolerance);
      }
      calls := calls + [Joined(ip)];
      return Some(newAgent);
    }

    /** `RemoveAgent`. */
    method RemoveAgent(address: string)
      modifies this`agents
      ensures agents == if address in dns then old(agents) - {dns[address]} else old(agents)
    {
      if address in dns {
        agents := agents - {dns[address]};
      }
    }

    /** The counter of the agent grows, and above the tolerance the agent goes. */
    method Strike(agent: Agent)
      requires WellKept() && agent.ip in agents && agents[agent.ip] == agent && agent.failures <= tolerance
      modifies this`agents, agent
      ensures WellKept() && Counters() == AfterFailure(old(Counters()), agent.ip, tolerance)
      ensures agents == old(agents) || agents == old(agents) - {agent.ip}
    {
      ghost var before := Counters();
      assert forall j :: j in agents && j != agent.ip ==> agents[j] != agent;
      var failures := agent.IncFailures();
      assert Counters() == before[agent.ip := failures];
      if failures > tolerance {
        RemoveAgent(agent.ip);
        assert Counters() == before - {agent.ip};
      }
    }

    /** No counter of a logged client is above the tolerance. */
    lemma CountersAreBounded()
      requires Logged()
      ensures Bounded(Counters(), tolerance)
    {
      Conservation(map[], calls, tolerance);
    }

    /** One failed call without a local agent. */
    method CountFailure(agent: Agent)
      requires Valid() && localAgent == null && agent.ip in agents && agents[agent.ip] == agent
      modifies this`agents, this`calls, agent
      ensures Valid() && calls == old(calls) + [Failed(agent.ip)]
      ensures Counters() == AfterFailure(old(Counters()), agent.ip, tolerance)
      ensures agents == old(agents) || agents == old(agents) - {agent.ip}
    {
      CountersAreBounded();
      assert Counters()[agent.ip] == agent.failures;
      ReplayOneMore(map[], calls, Failed(agent.ip), tolerance);
      Strike(agent);
      calls := calls + [Failed(agent.ip)];
    }

    method CountSuccess(agent: Agent)
      requires Valid() && localAgent == null && agent.ip in agents && agents[agent.ip] == agent
      modifies this`calls, agent
      ensures Valid() && calls == old(calls) + [Succeeded(agent.ip)]
      ensures Counters() == old(Counters())[agent.ip := 0]
    {
      ghost var before, ip := Counters(), agent.ip;
      ReplayOneMore(map[], calls, Succeeded(ip), tolerance);
      agent.ClearFailures();
      assert Counters() == before[ip := 0];
      calls := calls + [Succeeded(ip)];
    }

    /** `getServicesUsingProviderWithRetriesOnAgentFailure`. The provider's answer
        may depend on the attempt and on the agent. Without a local agent, every
        attempt takes any cached one. */
    method GetServices<S>(answers: Answers<S>) returns (r: Outcome<S>, ghost choices: seq<string>, ghost winner: string)
      requires Valid()
      modifies this`agents, this`calls, agents.Values, localAgent
      ensures Valid()
      // the local agent is used alone, and never evicted
      ensures localAgent != null ==> agents == old(agents) && r == FirstAnswer(answers, localAgent.ip, 0, retries)
      ensures localAgent != null ==> FirstHeard(r, answers, localAgent.ip, 0, retries)
      ensures localAgent != null ==>
                localAgent.failures ==
                if r.Found? then 0
                else AddUint32(old(if localAgent == null then 0 else localAgent.failures), retries + 1)
      ensures localAgent == null ==> Ends(r, answers, old(Counters()), Counters(), choices, winner, retries, tolerance)
      ensures localAgent == null ==> calls == old(calls) + Attempts(r, choices, winner)
    {
      choices, winner := [], "";
      if localAgent != null {
        r := GetFromLocal(answers);
      } else {
        r, choices, winner := GetFromAny(answers);
      }
    }

    method GetFromLocal<S>(answers: Answers<S>) returns (r: Outcome<S>)
      requires Valid() && localAgent != null
      modifies localAgent
      ensures Valid() && r == FirstAnswer(answers, localAgent.ip, 0, retries)
      ensures FirstHeard(r, answers, localAgent.ip, 0, retries)
      ensures localAgent.failures == if r.Found? then 0 else AddUint32(old(localAgent.failures), retries + 1)
    {
      FirstAnswerIsHeard(answers, localAgent.ip, 0, retries);
      ghost var before := localAgent.failures;
      for retry := 0 to retries + 1
        invariant Valid() && localAgent.failures == AddUint32(before, retry)
        invariant FirstAnswer(answers, localAgent.ip, 0, retries) == FirstAnswer(answers, localAgent.ip, retry, retries)
      {
        var services := Answer(answers, retry, localAgent.ip);
        if services.Some? {
          localAgent.ClearFailures();
          return Found(services.value);
        }
        var _ := localAgent.IncFailures();
        AddOneMore(before, retry);
      }
      return GaveUp;
    }

    /** One attempt, with any cached agent. */
    method TryAny<S>(answers: Answers<S>, retry: nat) returns (services: Option<S>, ghost ip: string)
      requires Valid() && localAgent == null && agents != map[]
      modifies this`agents, this`calls, agents.Values
      ensures Valid() && agents.Values <= old(agents.Values)
      ensures ip in old(Counters()) && services == Answer(answers, retry, ip)
      ensures Counters() ==
              if services.Some? then old(Counters())[ip := 0] else AfterFailure(old(Counters()), ip, tolerance)
      ensures calls == old(calls) + [if services.Some? then Succeeded(ip) else Failed(ip)]
    {
      var address :| address in agents;
      ip := address;
      services := Answer(answers, retry, address);
      if services.Some? {
        CountSuccess(agents[address]);
      } else {
        CountFailure(agents[address]);
      }
    }

    method GetFromAny<S>(answers: Answers<S>) returns (r: Outcome<S>, ghost choices: seq<string>, ghost winner: string)
      requires Valid() && localAgent == null
      modifies this`agents, this`calls, agents.Values
      ensures Valid()
      ensures Ends(r, answers, old(Counters()), Counters(), choices, winner, retries, tolerance)
      ensures calls == old(calls) + Attempts(r, choices, winner)
    {
      ghost var start, log := Counters(), calls;
      r, choices, winner := GaveUp, [], "";
      for retry := 0 to retries + 1
        invariant r.GaveUp? && Valid() && agents.Values <= old(agents.Values)
        invariant |choices| == retry && Failing(answers, start, Counters(), choices, tolerance)
        invariant calls == log + Failures(choices)
      {
        if |agents| == 0 {
          r := NoAgents;
          break;
        }
        var services, ip := TryAny(answers, retry);
        LogOneMore(log, choices, ip);
        if services.Some? {
          r, winner := Found(services.value), ip;
          break;
        }
        OneMoreFailed(answers, start, choices, ip, tolerance);
        choices := choices + [ip];
      }
    }
  }

  lemma LogOneMore(log: seq<Call>, choices: seq<string>, ip: string)
    ensures log + Failures(choices) + [Failed(ip)] == log + Failures(choices + [ip])
    ensures log + Failures(choices) + [Succeeded(ip)] == log + (Failures(choices) + [Succeeded(ip)])
  {
    assert Failures(choices + [ip]) == Failures(choices) + [Failed(ip)];
  }

  predicate AllAskedFailed<S>(answers: Answers<S>, choices: seq<string>)
  {
    forall i :: 0 <= i < |choices| ==> Answer(answers, i, choices[i]).None?
  }

  function Failures(choices: seq<string>): seq<Call>
  {
    seq(|choices|, i requires 0 <= i < |choices| => Failed(choices[i]))
  }

  /** The calls that the loop made: failed ones, and the one that answered. */
  function Attempts<S>(r: Outcome<S>, choices: seq<string>, winner: string): seq<Call>
  {
    Failures(choices) + if r.Found? then [Succeeded(winner)] else []
  }

  /** The calls so far failed, and led from one cache to another. */
  predicate Failing<S>(answers: Answers<S>, c: Cache, c': Cache, choices: seq<string>, tolerance: nat)
  {
    Run(c, choices, tolerance) == Some(c') && AllAskedFailed(answers, choices)
  }

  lemma OneMoreFailed<S>(answers: Answers<S>, c: Cache, choices: seq<string>, ip: string, tolerance: nat)
    requires Run(c, choices, tolerance).Some? && ip in Run(c, choices, tolerance).value
    requires AllAskedFailed(answers, choices) && Answer(answers, |choices|, ip).None?
    ensures var c' := AfterFailure(Run(c, choices, tolerance).value, ip, tolerance);
            Failing(answers, c, c', choices + [ip], tolerance)
  {
    RunOneMore(c, choices, ip, tolerance);
  }

  /** How the loop can end: after failed calls to the chosen agents, by the answer
      of one more, with an empty cache, or with all attempts used up. */
  ghost predicate Ends<S>(r: Outcome<S>, answers: Answers<S>, c: Cache, c': Cache, choices: seq<string>, winner: string,
                    retries: nat, tolerance: nat)
  {
    && Run(c, choices, tolerance).Some? && AllAskedFailed(answers, choices)
    && var last := Run(c, choices, tolerance).value;
       && (r.Found? ==> |choices| <= retries && winner in last && c' == last[winner := 0] &&
                        Answer(answers, |choices|, winner) == Some(r.services))
       && (r.NoAgents? ==> |choices| <= retries && c' == last == map[])
       && (r.GaveUp? ==> |choices| == retries + 1 && c' == last)
  }

  /** These agents answer every call. */
  predicate Reliable<S>(good: set<string>, answers: Answers<S>, retries: nat)
  {
    forall n: nat, ip :: n <= retries && ip in good ==> Answer(answers, n, ip).Some?
  }

  /** Guaranteed success: with one cached agent that always answers, and as many
      retries as the others can still fail, every end of the loop is an answer. */
  lemma ReliableAgentIsFound<S>(r: Outcome<S>, answers: Answers<S>, c: Cache, c': Cache, choices: seq<string>,
                                winner: string, retries: nat, tolerance: nat, good: set<string>)
    requires Ends(r, answers, c, c', choices, winner, retries, tolerance) && Bounded(c, tolerance)
    requires Reliable(good, answers, retries) && good * c.Keys != {}
    requires retries >= Slack(c, c.Keys - good, tolerance)
    ensures r.Found?
  {
    var bad := c.Keys - good;
    RunStaysInside(c, choices, tolerance);
    assert AllFail(c, bad, choices, tolerance) by {
      forall i | 0 <= i < |choices| ensures choices[i] in bad {
        assert Answer(answers, i, choices[i]).None?;
      }
    }
    FailuresUseSlack(c, bad, choices, tolerance);
    var g :| g in good * c.Keys;
    assert g in Run(c, choices, tolerance).value;
  }

  /** The bound by the number of agents: `tolerance + 1` retries for every cached agent
      that is not reliable. */
  lemma EnoughRetries<S>(r: Outcome<S>, answers: Answers<S>, c: Cache, c': Cache, choices: seq<string>, winner: string,
                         retries: nat, tolerance: nat, good: set<string>)
    requires Ends(r, answers, c, c', choices, winner, retries, tolerance) && Bounded(c, tolerance)
    requires Reliable(good, answers, retries) && good * c.Keys != {}
    requires retries >= (tolerance + 1) * |c.Keys - good|
    ensures r.Found?
  {
    SlackIsBounded(c, c.Keys - good, tolerance);
    assert (c.Keys - good) * c.Keys == c.Keys - good;
    ReliableAgentIsFound(r, answers, c, c', choices, winner, retries, tolerance, good);
  }

  /** Every way in which the loop can end is an answer. */
  ghost predicate Guaranteed<S(!new)>(c: Cache, good: set<string>, retries: nat, tolerance: nat)
  {
    forall r: Outcome<S>, answers: Answers<S>, c', choices, winner ::
      Reliable(good, answers, retries) && Ends(r, answers, c, c', choices, winner, retries, tolerance) ==> r.Found?
  }

  /** Only the reliable agents ever answer. */
  function OnlyGood<S>(good: set<string>, retries: nat, services: S): (answers: Answers<S>)
    ensures Reliable(good, answers, retries)
    ensures forall n: nat, ip :: ip !in good ==> Answer(answers, n, ip).None?
  {
    seq(retries + 1, _ => map ip | ip in good :: services)
  }

  lemma FailuresCanGiveUp<S>(c: Cache, good: set<string>, retries: nat, tolerance: nat, services: S)
    returns (answers: Answers<S>, c': Cache, choices: seq<string>)
    requires Bounded(c, tolerance) && retries < Slack(c, c.Keys - good, tolerance)
    ensures Reliable(good, answers, retries) && Ends(GaveUp, answers, c, c', choices, "", retries, tolerance)
  {
    answers := OnlyGood(good, retries, services);
    choices := WorstChoices(c, c.Keys - good, tolerance, retries + 1);
    c' := Run(c, choices, tolerance).value;
  }

  lemma NoSlackNoAgent(c: Cache, bad: set<string>, tolerance: nat)
    requires Bounded(c, tolerance) && c.Keys <= bad && Slack(c, bad, tolerance) == 0
    ensures c == map[]
  {
    if ip :| ip in c {
      SumWithout(Credits(c, bad, tolerance), ip);
    }
  }

  lemma FailuresCanEmptyTheCache<S>(c: Cache, good: set<string>, retries: nat, tolerance: nat, services: S)
    returns (answers: Answers<S>, choices: seq<string>)
    requires Bounded(c, tolerance) && good * c.Keys == {} && retries >= Slack(c, c.Keys - good, tolerance)
    ensures Reliable(good, answers, retries) && Ends(NoAgents, answers, c, map[], choices, "", retries, tolerance)
  {
    var bad := c.Keys - good;
    assert forall ip :: ip in c.Keys && ip in good ==> ip in good * c.Keys;
    answers := OnlyGood(good, retries, services);
    choices := WorstChoices(c, bad, tolerance, Slack(c, bad, tolerance));
    var last := Run(c, choices, tolerance).value;
    FailuresUseSlack(c, bad, choices, tolerance);
    RunStaysInside(c, choices, tolerance);
    NoSlackNoAgent(last, bad, tolerance);
  }

  /** The exact guarantee: the loop answers, whatever agents it draws and whenever the
      unreliable ones fail, exactly when a reliable agent is cached and there are at least
      as many retries as the others can fail. */
  lemma SuccessIff<S(!new)>(c: Cache, good: set<string>, retries: nat, tolerance: nat, services: S)
    requires Bounded(c, tolerance)
    ensures Guaranteed<S>(c, good, retries, tolerance) <==>
            good * c.Keys != {} && retries >= Slack(c, c.Keys - good, tolerance)
  {
    if retries < Slack(c, c.Keys - good, tolerance) {
      var answers, c', choices := FailuresCanGiveUp(c, good, retries, tolerance, services);
    } else if good * c.Keys == {} {
      var answers, choices := FailuresCanEmptyTheCache(c, good, retries, tolerance, services);
    } else {
      forall r: Outcome<S>, answers: Answers<S>, c', choices, winner
        | Reliable(good, answers, retries) && Ends(r, answers, c, c', choices, winner, retries, tolerance)
        ensures r.Found?
      {
        ReliableAgentIsFound(r, answers, c, c', choices, winner, retries, tolerance, good);
      }
    }
  }

  lemma {:induction false} RunStaysInside(c: Cache, choices: seq<string>, tolerance: nat)
    requires Run(c, choices, tolerance).Some?
    ensures Run(c, choices, tolerance).value.Keys <= c.Keys
    ensures forall i :: 0 <= i < |choices| ==> choices[i] in c
  {
    if choices != [] {
      RunStaysInside(c, choices[..|choices| - 1], tolerance);
    }
  }

  /** The first answer of one agent, asked again and again. */
  function FirstAnswer<S>(answers: Answers<S>, ip: string, n: nat, retries: nat): (r: Outcome<S>)
    ensures !r.NoAgents?
    decreases retries + 1 - n
  {
    if n > retries then GaveUp
    else
      match Answer(answers, n, ip)
      case Some(services) => Found(services)
      case None => FirstAnswer(answers, ip, n + 1, retries)
  }

  /** What asking one agent up to `retries + 1` times comes to, from attempt `start` on: the
      first answer that it gives, and giving up exactly if it gives none. */
  ghost predicate FirstHeard<S>(r: Outcome<S>, answers: Answers<S>, ip: string, start: nat, retries: nat)
  {
    && !r.NoAgents?
    && (r.GaveUp? <==> forall n: nat :: start <= n <= retries ==> Answer(answers, n, ip).None?)
    && (r.Found? ==> exists n: nat :: start <= n <= retries && Answer(answers, n, ip) == Some(r.services) &&
                                      forall m: nat :: start <= m < n ==> Answer(answers, m, ip).None?)
  }

  lemma {:induction false} FirstAnswerIsHeard<S>(answers: Answers<S>, ip: string, start: nat, retries: nat)
    ensures FirstHeard(FirstAnswer(answers, ip, start, retries), answers, ip, start, retries)
    decreases retries + 1 - start
  {
    if start <= retries {
      if Answer(answers, start, ip).None? {
        FirstAnswerIsHeard(answers, ip, start + 1, retries);
      }
    }
  }

  /** A local agent that answers any attempt is heard. */
  lemma LocalAgentIsHeard<S>(r: Outcome<S>, answers: Answers<S>, ip: string, n: nat, retries: nat)
    requires FirstHeard(r, answers, ip, 0, retries) && n <= retries && Answer(answers, n, ip).Some?
    requires forall m: nat :: m < n ==> Answer(answers, m, ip).None?
    ensures r == Found(Answer(answers, n, ip).value)
  {
    assert !r.GaveUp?;
    var k: nat :| k <= retries && Answer(answers, k, ip) == Some(r.services) &&
                  forall m: nat :: m < k ==> Answer(answers, m, ip).None?;
    assert k == n;
  }
}
