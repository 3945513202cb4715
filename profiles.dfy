// The two testing-agent profiles: how often an agent acts, how it answers
// messages, and which in-game behaviours it draws from.

module Profiles {

  /** A profile definition; rates are actions per minute, delays milliseconds. */
  datatype ProfileDefinition = ProfileDefinition(
    name: string,
    minActionsPerMinute: real,
    maxActionsPerMinute: real,
    ignoreRate: real,
    responseDelayMin: real,
    responseDelayMax: real,
    minecraftBehaviors: seq<string>,
    discordBehaviors: seq<string>)

  /** The bounds every profile of the system keeps. */
  predicate WellFormed(p: ProfileDefinition) {
    && 0.0 < p.minActionsPerMinute <= p.maxActionsPerMinute
    && 0.0 <= p.ignoreRate <= 1.0
    && 0.0 <= p.responseDelayMin <= p.responseDelayMax
    && |p.minecraftBehaviors| > 0
  }

  /** The helpful baseline agent. */
  const Cooperative := ProfileDefinition(
    "cooperative",
    3.0, 6.0,
    0.0,
    500.0, 2000.0,
    ["give-initial-tasks",
     "place-three-blocks",
     "reason-with-rebel",
     "open-chest-and-take-materials",
     "place-blocks-for-house",
     "lead-building-effort",
     "gather-requested-resources",
     "assist-with-tasks",
     "share-items-freely",
     "follow-instructions",
     "coordinate-with-team"],
    ["respond-promptly",
     "offer-help",
     "provide-updates",
     "ask-clarifying-questions",
     "acknowledge-requests"])

  /** The self-interested agent that ignores half of its mentions. */
  const NonCooperator := ProfileDefinition(
    "non-cooperator",
    2.0, 5.0,
    0.5,
    5000.0, 15000.0,
    ["take-from-chest-but-keep",
     "break-leader-blocks",
     "sabotage-building",
     "collect-resources-selfishly",
     "avoid-helping-others",
     "work-on-own-tasks",
     "refuse-to-share"],
    ["minimal-responses",
     "ignore-mentions",
     "deflect-requests",
     "prioritize-self"])

  /** The cooperative profile keeps the bounds and offers eleven behaviours. */
  lemma CooperativeShape()
    ensures WellFormed(Cooperative)
    ensures Cooperative.minActionsPerMinute == 3.0 && Cooperative.maxActionsPerMinute == 6.0
    ensures Cooperative.ignoreRate == 0.0
    ensures |Cooperative.minecraftBehaviors| == 11
  {
  }

  /** The non-cooperating profile keeps the bounds and offers seven behaviours. */
  lemma NonCooperatorShape()
    ensures WellFormed(NonCooperator)
    ensures NonCooperator.minActionsPerMinute == 2.0 && NonCooperator.maxActionsPerMinute == 5.0
    ensures NonCooperator.ignoreRate == 0.5
    ensures |NonCooperator.minecraftBehaviors| == 7
  {
  }
}
