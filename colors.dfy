// Badge colours of the three status kinds, and the display entry of every
// behavioural profile.

module Colors {
  import Model
  import opened Schemas

  datatype StatusColor = Default | Secondary | Destructive | Outline

  datatype TestRunStatus =
    | Created | Initializing | Coordination | Executing
    | Completing | Completed | Failed | Cancelled

  datatype AgentStatus = Idle | Spawning | Active | Paused | Terminated | AgentError

  function GetTestStatusColor(s: TestRunStatus): (c: StatusColor)
    ensures c == Destructive <==> s == Failed
    ensures c == Default <==> s in {Executing, Completing, Completed}
    ensures c == Outline <==> s in {Created, Cancelled}
  {
    match s
    case Created => Outline
    case Initializing => Secondary
    case Coordination => Secondary
    case Executing => Default
    case Completing => Default
    case Completed => Default
    case Failed => Destructive
    case Cancelled => Outline
  }

  function GetAgentStatusColor(s: AgentStatus): (c: StatusColor)
    ensures c == Destructive <==> s == AgentError
    ensures c == Default <==> s == Active
    ensures c == Outline <==> s in {Idle, Terminated}
  {
    match s
    case Idle => Outline
    case Spawning => Secondary
    case Active => Default
    case Paused => Secondary
    case Terminated => Outline
    case AgentError => Destructive
  }

  /** The client's bot statuses are the server's five. */
  function GetBotStatusColor(s: Model.BotStatus): (c: StatusColor)
    ensures c == Destructive <==> s == Model.Error
    ensures c == Default <==> s in {Model.Connected, Model.Spawned}
    ensures c == Secondary <==> s == Model.Connecting
  {
    match s
    case Connecting => Secondary
    case Connected => Default
    case Spawned => Default
    case Disconnected => Outline
    case Error => Destructive
  }

  datatype ProfileInfo = ProfileInfo(profileLabel: string, description: string)

  const PROFILE_INFO: map<string, ProfileInfo> := map[
    "cooperative" := ProfileInfo("Cooperative", "Helpful and collaborative team player"),
    "non-cooperator" := ProfileInfo("Non-Cooperator", "Self-interested, refuses help and resources"),
    "confuser" := ProfileInfo("Confuser", "Provides contradictory information, changes plans"),
    "resource-hoarder" := ProfileInfo("Resource Hoarder", "Monopolizes materials and blocks access"),
    "task-abandoner" := ProfileInfo("Task Abandoner", "Starts tasks but leaves mid-execution"),
    "over-communicator" := ProfileInfo("Over-Communicator", "Floods channels with excessive messages")
  ]

  /** The display table has an entry for every profile name and for nothing else. */
  lemma ProfileInfoKeys()
    ensures forall p :: ProfileName(p) in PROFILE_INFO
    ensures forall key :: key in PROFILE_INFO ==> ParseProfile(key).Some?
  {
    forall p ensures ProfileName(p) in PROFILE_INFO {
      match p
      case CooperativeProfile =>
      case NonCooperatorProfile =>
      case ConfuserProfile =>
      case ResourceHoarderProfile =>
      case TaskAbandonerProfile =>
      case OverCommunicatorProfile =>
    }
  }
}
