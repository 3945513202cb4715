// The create-test request as the client validates it: the six behavioural
// profiles, the two scenarios, and every bound of the request schema. A
// request is checked field by field; the check reports each broken bound.

module Schemas {
  import opened Common

  datatype BehavioralProfile =
    | CooperativeProfile | NonCooperatorProfile | ConfuserProfile
    | ResourceHoarderProfile | TaskAbandonerProfile | OverCommunicatorProfile

  function ProfileName(p: BehavioralProfile): string {
    match p
    case CooperativeProfile => "cooperative"
    case NonCooperatorProfile => "non-cooperator"
    case ConfuserProfile => "confuser"
    case ResourceHoarderProfile => "resource-hoarder"
    case TaskAbandonerProfile => "task-abandoner"
    case OverCommunicatorProfile => "over-communicator"
  }

  const AllProfiles: seq<BehavioralProfile> := [
    CooperativeProfile, NonCooperatorProfile, ConfuserProfile,
    ResourceHoarderProfile, TaskAbandonerProfile, OverCommunicatorProfile]

  function ParseProfile(text: string): (r: Option<BehavioralProfile>)
    ensures r.Some? ==> ProfileName(r.value) == text
    ensures r.None? ==> forall p :: ProfileName(p) != text
  {
    if text == "cooperative" then Some(CooperativeProfile)
    else if text == "non-cooperator" then Some(NonCooperatorProfile)
    else if text == "confuser" then Some(ConfuserProfile)
    else if text == "resource-hoarder" then Some(ResourceHoarderProfile)
    else if text == "task-abandoner" then Some(TaskAbandonerProfile)
    else if text == "over-communicator" then Some(OverCommunicatorProfile)
    else None
  }

  /** Every profile's name parses back to it, and there are exactly six. */
  lemma ProfileRoundTrip(p: BehavioralProfile)
    ensures ParseProfile(ProfileName(p)) == Some(p)
    ensures p in AllProfiles && |AllProfiles| == 6 && NoDuplicates(AllProfiles)
  {
  }

  datatype ScenarioType = Cooperation | ResourceManagement

  function ParseScenario(text: string): (r: Option<ScenarioType>) {
    if text == "cooperation" then Some(Cooperation)
    else if text == "resource-management" then Some(ResourceManagement)
    else None
  }

  /** A Minecraft server as submitted. */
  datatype RawServer = RawServer(host: string, port: real, version: string)

  /** The optional settings as submitted. */
  datatype RawConfig = RawConfig(
    llmPollingIntervalMs: Option<real>,
    behaviorIntensity: Option<real>,
    enableVoice: Option<bool>,
    enableText: Option<bool>,
    targetLlmSystemPromptOverride: Option<Option<string>>,
    minecraftServer: Option<RawServer>)

  /** A create-test request as submitted: enums still text, bounds unchecked. */
  datatype RawCreateTest = RawCreateTest(
    scenarioType: string,
    targetLlmModel: string,
    testingAgentProfiles: Option<seq<string>>,
    durationSeconds: Option<real>,
    config: Option<RawConfig>)

  /** One broken bound; `index` is the place of an unknown profile in the list. */
  datatype Issue =
    | UnknownScenario
    | ModelMissing
    | NoProfiles
    | UnknownProfile(index: nat)
    | DurationTooShort
    | DurationTooLong
    | PollingIntervalOutOfRange
    | IntensityOutOfRange
    | HostMissing
    | PortTooLow
    | PortTooHigh
    | VersionMissing

  /** The message the schema attaches to an issue; nothing where it keeps the library's default. */
  function IssueMessage(i: Issue): Option<string> {
    match i
    case ModelMissing => Some("LLM model is required")
    case NoProfiles => Some("Select at least one agent profile")
    case DurationTooShort => Some("Minimum duration is 30 seconds")
    case DurationTooLong => Some("Maximum duration is 1 hour")
    case HostMissing => Some("Host is required")
    case PortTooLow => Some("Port must be >= 1")
    case PortTooHigh => Some("Port must be <= 65535")
    case VersionMissing => Some("Version is required")
    case _ => None
  }

  /** The issues of each list entry that names no profile, from index `from` on. */
  function ProfileIssues(names: seq<string>, from: nat): (r: seq<Issue>)
    ensures forall k :: 0 <= k < |r| ==> r[k].UnknownProfile? && from <= r[k].index < from + |names|
    ensures forall i :: from <= i < from + |names| ==>
      (UnknownProfile(i) in r <==> ParseProfile(names[i - from]).None?)
    decreases |names|
  {
    if names == [] then []
    else
      var rest := ProfileIssues(names[1..], from + 1);
      assert forall j :: 0 <= j < |names| - 1 ==> names[1..][j] == names[j + 1];
      (if ParseProfile(names[0]).None? then [UnknownProfile(from)] else []) + rest
  }

  function Check(broken: bool, i: Issue): seq<Issue> {
    if broken then [i] else []
  }

  function ServerIssues(s: RawServer): seq<Issue> {
    Check(|s.host| == 0, HostMissing) + Check(s.port < 1.0, PortTooLow)
    + Check(s.port > 65535.0, PortTooHigh) + Check(|s.version| == 0, VersionMissing)
  }

  function ConfigIssues(c: RawConfig): seq<Issue> {
    (match c.llmPollingIntervalMs
     case Some(ms) => Check(ms < 1000.0 || ms > 30000.0, PollingIntervalOutOfRange)
     case None => [])
    + (match c.behaviorIntensity
       case Some(x) => Check(x < 0.0 || x > 1.0, IntensityOutOfRange)
       case None => [])
    + (match c.minecraftServer
       case Some(s) => ServerIssues(s)
       case None => [])
  }

  /** Every broken bound of a request, in the order of its fields. */
  function Issues(r: RawCreateTest): seq<Issue> {
    Check(ParseScenario(r.scenarioType).None?, UnknownScenario)
    + Check(|r.targetLlmModel| == 0, ModelMissing)
    + (match r.testingAgentProfiles
       case Some(names) => Check(|names| == 0, NoProfiles) + ProfileIssues(names, 0)
       case None => [])
    + (match r.durationSeconds
       case Some(d) => Check(d < 30.0, DurationTooShort) + Check(d > 3600.0, DurationTooLong)
       case None => [])
    + (match r.config
       case Some(c) => ConfigIssues(c)
       case None => [])
  }

  function Within(x: Option<real>, lo: real, hi: real): bool {
    x.None? || lo <= x.value <= hi
  }

  predicate ValidServer(s: Option<RawServer>) {
    s.None? || (|s.value.host| > 0 && 1.0 <= s.value.port <= 65535.0 && |s.value.version| > 0)
  }

  predicate ValidProfiles(names: Option<seq<string>>) {
    names.None? || (|names.value| > 0 && forall i :: 0 <= i < |names.value| ==> ParseProfile(names.value[i]).Some?)
  }

  /**
   * A request passes exactly when every bound holds: a known scenario, a
   * non-empty model, a non-empty list of known profiles, a duration in
   * 30..3600, a polling interval in 1000..30000, an intensity in 0..1 and a
   * complete server with its port in 1..65535 (each of the last five only
   * when present).
   */
  lemma IssuesExactlyWhenInvalid(r: RawCreateTest)
    ensures Issues(r) == [] <==>
      && ParseScenario(r.scenarioType).Some?
      && |r.targetLlmModel| > 0
      && ValidProfiles(r.testingAgentProfiles)
      && Within(r.durationSeconds, 30.0, 3600.0)
      && (r.config.Some? ==>
            && Within(r.config.value.llmPollingIntervalMs, 1000.0, 30000.0)
            && Within(r.config.value.behaviorIntensity, 0.0, 1.0)
            && ValidServer(r.config.value.minecraftServer))
  {
    match r.testingAgentProfiles
    case None =>
    case Some(names) =>
      var p := ProfileIssues(names, 0);
      if p == [] {
        forall i | 0 <= i < |names| ensures ParseProfile(names[i]).Some? {
          assert UnknownProfile(i) !in p;
        }
      } else {
        assert p[0] in p;
        var i := p[0].index;
        assert UnknownProfile(i) in p;
      }
  }
}
