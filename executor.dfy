// The behaviour executor: the table of running behaviour loops, the interval
// a profile asks for, the random pick of a behaviour, the gate of one loop
// tick and the success flag a behaviour run reports. The world effects of a
// behaviour are abstracted to whether they completed or threw.

module Executor {
  import opened Common
  import opened Model
  import opened Profiles

  // ---------------------------------------------------------------------
  // Behaviour outcome
  // ---------------------------------------------------------------------

  /** The behaviour names that have a case of their own in the executor's switch. */
  const NamedBehaviors: set<string> := {
    "collect-resources-selfishly", "refuse-to-share", "avoid-helping-others",
    "work-on-own-tasks", "go-to-wrong-locations", "start-then-change-direction",
    "collect-wrong-resources", "abandon-half-built-structures",
    "aggressive-resource-collection", "claim-mining-areas",
    "store-resources-privately", "race-for-limited-items", "wander-off-mid-task",
    "start-tasks-enthusiastically", "abandon-incomplete-builds",
    "switch-tasks-frequently", "frequent-position-announcements",
    "constant-inventory-updates", "over-document-actions", "interrupt-others-work",
    "gather-requested-resources", "assist-with-tasks", "share-items-freely",
    "follow-instructions", "coordinate-with-team"
  }

  /** How the world effects of a behaviour ended. */
  datatype Effects = Completed | Threw(message: string)

  /**
   * The flag a behaviour run reports. `behavior` is `None` when the pick
   * came from an empty list (the value is then undefined and falls to the
   * default case).
   */
  function ExecuteMinecraftBehavior(hasClient: bool, behavior: Option<string>, effects: Effects): (success: bool)
    ensures !hasClient ==> !success
    ensures effects.Threw? ==> !success
    ensures (behavior.None? || behavior.value !in NamedBehaviors) ==> !success
    ensures hasClient && effects.Completed? && behavior.Some? && behavior.value in NamedBehaviors ==> success
  {
    if !hasClient then false
    else match effects
      case Threw(_) => false
      case Completed =>
        match behavior
        case None => false
        case Some(name) => name in NamedBehaviors
  }

  /** The first six cooperative behaviours have no case and so never report success. */
  lemma CooperativeDefaultBranch(hasClient: bool, effects: Effects, i: nat)
    requires i < 6
    ensures Cooperative.minecraftBehaviors[i] !in NamedBehaviors
    ensures !ExecuteMinecraftBehavior(hasClient, Some(Cooperative.minecraftBehaviors[i]), effects)
  {
  }

  /** The last five cooperative behaviours succeed whenever their effects complete. */
  lemma CooperativeNamedBranch(i: nat)
    requires 6 <= i < 11
    ensures ExecuteMinecraftBehavior(true, Some(Cooperative.minecraftBehaviors[i]), Completed)
  {
  }

  /** Three of the non-cooperating behaviours have no case; the other four do. */
  lemma NonCooperatorBranches(i: nat)
    requires i < 7
    ensures (NonCooperator.minecraftBehaviors[i] in NamedBehaviors) <==> 3 <= i
  {
    assert NonCooperator.minecraftBehaviors[0] == "take-from-chest-but-keep";
  }

  // ---------------------------------------------------------------------
  // Interval and selection
  // ---------------------------------------------------------------------

  /** A loop period; `NotFinite` stands for the division by a zero average. */
  datatype Interval = Every(ms: real) | NotFinite

  /** The period of a loop acting on average half-way between the two rates. */
  function CalculateInterval(minPerMinute: real, maxPerMinute: real): (r: Interval)
    ensures r.Every? <==> minPerMinute + maxPerMinute != 0.0
    ensures r.Every? ==> r.ms * (minPerMinute + maxPerMinute) == 120000.0
    ensures r.Every? && minPerMinute + maxPerMinute > 0.0 ==> r.ms > 0.0
  {
    var average := (minPerMinute + maxPerMinute) / 2.0;
    if average == 0.0 then NotFinite else Every(60000.0 / average)
  }

  /** The profiles give a loop every 60000 / 4.5 and every 60000 / 3.5 milliseconds. */
  lemma ProfileIntervals()
    ensures CalculateInterval(Cooperative.minActionsPerMinute, Cooperative.maxActionsPerMinute)
      == Every(60000.0 / 4.5)
    ensures CalculateInterval(NonCooperator.minActionsPerMinute, NonCooperator.maxActionsPerMinute)
      == Every(60000.0 / 3.5)
  {
  }

  /** The index `floor(roll * n)` a roll drawn from [0, 1) picks among `n` entries. */
  function PickIndex(n: nat, roll: real): (k: nat)
    requires n > 0 && 0.0 <= roll < 1.0
    ensures k < n
    ensures k as real <= roll * n as real < k as real + 1.0
  {
    assert roll * n as real < n as real;
    (roll * n as real).Floor
  }

  /** The behaviour a roll drawn from [0, 1) picks; nothing when the list is empty. */
  function SelectBehavior(behaviors: seq<string>, roll: real): (r: Option<string>)
    requires 0.0 <= roll < 1.0
    ensures r.Some? <==> |behaviors| > 0
    ensures r.Some? ==> r.value in behaviors
  {
    if |behaviors| == 0 then None else Some(behaviors[PickIndex(|behaviors|, roll)])
  }

  /** Every behaviour of the list is drawn by some roll. */
  lemma SelectionReachesEvery(behaviors: seq<string>, i: nat)
    requires i < |behaviors|
    ensures 0.0 <= i as real / |behaviors| as real < 1.0
    ensures SelectBehavior(behaviors, i as real / |behaviors| as real) == Some(behaviors[i])
  {
    var n := |behaviors| as real;
    var roll := i as real / n;
    assert roll * n == i as real;
    var k := PickIndex(|behaviors|, roll);
    assert k as real <= i as real < k as real + 1.0;
  }

  // ---------------------------------------------------------------------
  // The running loops
  // ---------------------------------------------------------------------

  /** A started interval timer: its runtime id and its period. */
  datatype Timer = Timer(id: nat, period: Interval)

  /** `s` without `x`, order kept; the deletion of a key from an insertion-ordered map. */
  function Without(s: seq<string>, x: string): (r: seq<string>)
    ensures SetOf(r) == SetOf(s) - {x}
    ensures NoDuplicates(s) ==> NoDuplicates(r)
    ensures |r| <= |s|
  {
    if s == [] then []
    else
      var rest := Without(s[1..], x);
      assert SetOf(s) == {s[0]} + SetOf(s[1..]) by {
        assert s == [s[0]] + s[1..];
      }
      assert NoDuplicates(s) ==> NoDuplicates(s[1..]) by {
        if NoDuplicates(s) {
          TailNoDuplicates(s);
        }
      }
      if s[0] == x then rest
      else
        assert SetOf([s[0]] + rest) == {s[0]} + SetOf(rest);
        assert NoDuplicates(s) ==> NoDuplicates([s[0]] + rest) by {
          if NoDuplicates(s) {
            assert s[0] !in SetOf(s[1..]);
            var r := [s[0]] + rest;
            forall i, j | 0 <= i < j < |r| ensures r[i] != r[j] {
              if i == 0 {
                assert r[j] == rest[j - 1] && rest[j - 1] in SetOf(rest);
              } else {
                assert r[i] == rest[i - 1] && r[j] == rest[j - 1];
              }
            }
          }
        }
        [s[0]] + rest
  }

  lemma TailNoDuplicates(s: seq<string>)
    requires |s| > 0 && NoDuplicates(s)
    ensures NoDuplicates(s[1..]) && s[0] !in s[1..]
  {
    forall i, j | 0 <= i < j < |s| - 1 ensures s[1..][i] != s[1..][j] {
      assert s[1..][i] == s[i + 1] && s[1..][j] == s[j + 1];
    }
    var tail := s[1..];
    forall k | 0 <= k < |tail| ensures tail[k] != s[0] {
      assert tail[k] == s[k + 1];
    }
  }

  /** Deleting an absent key changes nothing. */
  lemma {:induction false} WithoutAbsent(s: seq<string>, x: string)
    requires x !in s
    ensures Without(s, x) == s
    decreases |s|
  {
    if s != [] {
      assert x !in s[1..];
      WithoutAbsent(s[1..], x);
      assert [s[0]] + s[1..] == s;
    }
  }

  /** Deleting `x` keeps everything before its first occurrence at `i`. */
  lemma {:induction false} WithoutAt(s: seq<string>, x: string, i: nat)
    requires i < |s| && s[i] == x && x !in s[..i]
    ensures Without(s, x) == s[..i] + Without(s[i + 1..], x)
    decreases i
  {
    if i > 0 {
      var tail := s[1..];
      assert tail[i - 1] == x;
      assert s[..i] == [s[0]] + tail[..i - 1];
      WithoutAt(tail, x, i - 1);
      assert tail[i..] == s[i + 1..];
    }
  }

  /**
   * Deleting a key keeps the order of the others: nothing changes for an
   * absent key, and a listed key is cut out where it stands.
   */
  lemma WithoutKeepsOrder(s: seq<string>, x: string)
    ensures x !in s ==> Without(s, x) == s
    ensures NoDuplicates(s) && x in s ==>
      exists i :: 0 <= i < |s| && s[i] == x && Without(s, x) == s[..i] + s[i + 1..]
  {
    if x !in s {
      WithoutAbsent(s, x);
    } else if NoDuplicates(s) {
      var i :| 0 <= i < |s| && s[i] == x;
      assert x !in s[..i] by {
        forall k | 0 <= k < i ensures s[..i][k] != x {
          assert s[..i][k] == s[k];
        }
      }
      assert x !in s[i + 1..] by {
        var tail := s[i + 1..];
        forall k | 0 <= k < |tail| ensures tail[k] != x {
          assert tail[k] == s[i + 1 + k];
        }
      }
      WithoutAt(s, x, i);
      WithoutAbsent(s[i + 1..], x);
    }
  }

  /** The loops of the running agents, keyed by agent id in insertion order. */
  class BehaviorExecutor {
    var activeExecutors: map<string, Timer>
    var order: seq<string>
    /** Ids handed to `clearInterval`, in call order. */
    var cleared: seq<nat>

    ghost predicate Valid()
      reads this
    {
      NoDuplicates(order) && SetOf(order) == activeExecutors.Keys
    }

    constructor()
      ensures Valid()
      ensures activeExecutors == map[] && order == [] && cleared == []
    {
      activeExecutors := map[];
      order := [];
      cleared := [];
    }

    /**
     * Starts the loop of `agentId` on timer `timerId` with the period its
     * profile asks for. A loop already stored for the agent is replaced
     * without being cleared.
     */
    method Initialize(agentId: string, profile: ProfileDefinition, timerId: nat)
      requires Valid()
      modifies this
      ensures Valid()
      ensures activeExecutors == old(activeExecutors)[agentId := Timer(timerId,
        CalculateInterval(profile.minActionsPerMinute, profile.maxActionsPerMinute))]
      ensures order == (if agentId in old(activeExecutors) then old(order) else old(order) + [agentId])
      ensures cleared == old(cleared)
    {
      if agentId !in activeExecutors {
        assert agentId !in SetOf(order);
        order := order + [agentId];
        assert SetOf(order) == SetOf(old(order)) + {agentId};
      }
      var period := CalculateInterval(profile.minActionsPerMinute, profile.maxActionsPerMinute);
      activeExecutors := activeExecutors[agentId := Timer(timerId, period)];
    }

    /** Clears and forgets the loop of `agentId`; nothing happens when it has none. */
    method Stop(agentId: string)
      requires Valid()
      modifies this
      ensures Valid()
      ensures agentId in old(activeExecutors) ==>
        && activeExecutors == old(activeExecutors) - {agentId}
        && order == Without(old(order), agentId)
        && cleared == old(cleared) + [old(activeExecutors)[agentId].id]
      ensures agentId !in old(activeExecutors) ==>
        activeExecutors == old(activeExecutors) && order == old(order) && cleared == old(cleared)
    {
      if agentId in activeExecutors {
        cleared := cleared + [activeExecutors[agentId].id];
        activeExecutors := activeExecutors - {agentId};
        order := Without(order, agentId);
      }
    }

    /** The ids of the running agents, each once. */
    function GetActiveExecutors(): (ids: seq<string>)
      requires Valid()
      reads this
      ensures NoDuplicates(ids)
      ensures forall id :: id in ids <==> id in activeExecutors
      ensures |ids| == |activeExecutors|
    {
      NoDuplicatesCardinality(order);
      assert |SetOf(order)| == |activeExecutors.Keys|;
      order
    }

    /** Whether a loop is stored for `agentId`. */
    function IsRunning(agentId: string): (r: bool)
      reads this
      ensures r <==> agentId in activeExecutors
    {
      agentId in activeExecutors
    }
  }

  /** Initialising makes the agent run; stopping it afterwards makes it stop. */
  method InitializeThenStop(e: BehaviorExecutor, agentId: string, profile: ProfileDefinition, timerId: nat)
    requires e.Valid()
    modifies e
    ensures e.Valid()
    ensures e.activeExecutors == old(e.activeExecutors) - {agentId}
    ensures !e.IsRunning(agentId)
    ensures e.cleared == old(e.cleared) + [timerId]
  {
    e.Initialize(agentId, profile, timerId);
    assert e.IsRunning(agentId);
    e.Stop(agentId);
  }

  /**
   * Initialising twice keeps only the second timer: stopping then clears
   * the second one, and the first is never cleared.
   */
  method InitializeTwiceLeaks(e: BehaviorExecutor, agentId: string, profile: ProfileDefinition, first: nat, second: nat)
    requires e.Valid()
    modifies e
    ensures e.Valid()
    ensures !e.IsRunning(agentId)
    ensures e.cleared == old(e.cleared) + [second]
  {
    e.Initialize(agentId, profile, first);
    e.Initialize(agentId, profile, second);
    e.Stop(agentId);
  }

  // ---------------------------------------------------------------------
  // One loop tick
  // ---------------------------------------------------------------------

  /** A stored agent: what the repository returns for an id. */
  datatype AgentRecord = AgentRecord(
    agentId: string,
    profile: string,
    minecraftBotId: string,
    status: string,
    actionCount: nat,
    lastActionAt: Option<int>)

  /** A logged behavioural action; `actionType` is `None` for an undefined pick. */
  datatype BehavioralAction = BehavioralAction(
    agentId: string,
    actionType: Option<string>,
    timestamp: int,
    success: bool,
    notes: string)

  /** The note a logged action carries. */
  function Notes(behavior: Option<string>): (s: string)
    ensures "Executed " <= s
  {
    var name := match behavior case Some(b) => b case None => "undefined";
    assert ("Executed " + name)[..9] == "Executed ";
    "Executed " + name
  }

  /** What one tick decides: to skip, or to act as `current` with a behaviour and its flag. */
  datatype Tick = Skipped | Acted(current: AgentRecord, behavior: Option<string>, success: bool)

  /**
   * The decision of one tick for `agent`, whose profile resolved to
   * `profile`: the bot is looked up by the stored bot id and the agent is
   * re-read from the repository.
   */
  function TickOf(bots: Bots, agents: map<string, AgentRecord>, agent: AgentRecord,
                  profile: ProfileDefinition, roll: real, effects: Effects): (t: Tick)
    requires 0.0 <= roll < 1.0
  {
    if agent.minecraftBotId !in bots then Skipped
    else if agent.agentId !in agents || agents[agent.agentId].status != "active" then Skipped
    else
      var behavior := SelectBehavior(profile.minecraftBehaviors, roll);
      Acted(agents[agent.agentId], behavior,
        ExecuteMinecraftBehavior(bots[agent.minecraftBotId].hasMineflayerBot, behavior, effects))
  }

  /** A tick acts exactly when the bot exists and the agent is stored and active. */
  lemma TickGate(bots: Bots, agents: map<string, AgentRecord>, agent: AgentRecord,
                 profile: ProfileDefinition, roll: real, effects: Effects)
    requires 0.0 <= roll < 1.0
    ensures TickOf(bots, agents, agent, profile, roll, effects).Acted? <==>
      (agent.minecraftBotId in bots && agent.agentId in agents && agents[agent.agentId].status == "active")
    ensures TickOf(bots, agents, agent, profile, roll, effects).Acted? ==>
      TickOf(bots, agents, agent, profile, roll, effects).current == agents[agent.agentId]
  {
  }

  /**
   * A tick that acts picks a behaviour of the profile (when it has any) and
   * reports success only for a named behaviour on a bot with a client.
   */
  lemma TickBehavior(bots: Bots, agents: map<string, AgentRecord>, agent: AgentRecord,
                     profile: ProfileDefinition, roll: real, effects: Effects)
    requires 0.0 <= roll < 1.0
    requires TickOf(bots, agents, agent, profile, roll, effects).Acted?
    ensures var t := TickOf(bots, agents, agent, profile, roll, effects);
      && (t.behavior.Some? <==> |profile.minecraftBehaviors| > 0)
      && (t.behavior.Some? ==> t.behavior.value in profile.minecraftBehaviors)
      && (t.success ==> bots[agent.minecraftBotId].hasMineflayerBot && t.behavior.Some?
                        && t.behavior.value in NamedBehaviors && effects.Completed?)
  {
  }

  /** The agent store and its action log. */
  class AgentRepository {
    var agents: map<string, AgentRecord>
    var actions: seq<BehavioralAction>

    constructor(agents: map<string, AgentRecord>)
      ensures this.agents == agents && actions == []
    {
      this.agents := agents;
      actions := [];
    }
  }

  /**
   * One tick of an agent's loop: skip when the bot or the active agent is
   * missing; otherwise run the picked behaviour, log it once and count it.
   */
  method ExecuteBehavior(repo: AgentRepository, bots: Bots, agent: AgentRecord,
                         profile: ProfileDefinition, roll: real, effects: Effects, now: int)
    requires 0.0 <= roll < 1.0
    modifies repo
    ensures TickOf(bots, old(repo.agents), agent, profile, roll, effects).Skipped? ==>
      repo.agents == old(repo.agents) && repo.actions == old(repo.actions)
    ensures TickOf(bots, old(repo.agents), agent, profile, roll, effects).Acted? ==>
      var t := TickOf(bots, old(repo.agents), agent, profile, roll, effects);
      && repo.actions == old(repo.actions) + [BehavioralAction(t.current.agentId, t.behavior, now, t.success, Notes(t.behavior))]
      && repo.agents == old(repo.agents)[t.current.agentId :=
           t.current.(actionCount := t.current.actionCount + 1, lastActionAt := Some(now))]
  {
    if agent.minecraftBotId !in bots {
      return;
    }
    if agent.agentId !in repo.agents {
      return;
    }
    var current := repo.agents[agent.agentId];
    if current.status != "active" {
      return;
    }
    var behavior := SelectBehavior(profile.minecraftBehaviors, roll);
    var success := ExecuteMinecraftBehavior(bots[agent.minecraftBotId].hasMineflayerBot, behavior, effects);
    repo.actions := repo.actions + [BehavioralAction(current.agentId, behavior, now, success, Notes(behavior))];
    repo.agents := repo.agents[current.agentId :=
      current.(actionCount := current.actionCount + 1, lastActionAt := Some(now))];
  }

  /** How many logged actions belong to `agentId`. */
  function CountFor(actions: seq<BehavioralAction>, agentId: string): (n: nat)
    ensures n <= |actions|
  {
    if actions == [] then 0
    else CountFor(actions[..|actions| - 1], agentId) + (if actions[|actions| - 1].agentId == agentId then 1 else 0)
  }

  /** Every stored agent is keyed by its own id and counts exactly its logged actions. */
  ghost predicate CountsInSync(agents: map<string, AgentRecord>, actions: seq<BehavioralAction>) {
    forall id :: id in agents ==> agents[id].agentId == id && agents[id].actionCount == CountFor(actions, id)
  }

  /** A tick keeps every stored action count equal to the number of logged actions. */
  lemma TickKeepsCountsInSync(bots: Bots, agents: map<string, AgentRecord>, actions: seq<BehavioralAction>,
                              agent: AgentRecord, profile: ProfileDefinition, roll: real, effects: Effects, now: int)
    requires 0.0 <= roll < 1.0
    requires CountsInSync(agents, actions)
    ensures var t := TickOf(bots, agents, agent, profile, roll, effects);
      t.Acted? ==> CountsInSync(
        agents[t.current.agentId := t.current.(actionCount := t.current.actionCount + 1, lastActionAt := Some(now))],
        actions + [BehavioralAction(t.current.agentId, t.behavior, now, t.success, Notes(t.behavior))])
  {
    var t := TickOf(bots, agents, agent, profile, roll, effects);
    if t.Acted? {
      var e := BehavioralAction(t.current.agentId, t.behavior, now, t.success, Notes(t.behavior));
      var after := actions + [e];
      assert after[..|after| - 1] == actions;
      var agents' := agents[t.current.agentId := t.current.(actionCount := t.current.actionCount + 1, lastActionAt := Some(now))];
      forall id | id in agents'
        ensures agents'[id].agentId == id && agents'[id].actionCount == CountFor(after, id)
      {
        assert CountFor(after, id) == CountFor(actions, id) + (if e.agentId == id then 1 else 0);
      }
    }
  }
}
