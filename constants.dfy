/** The numeric limits shared by the bot orchestration server. */
module Constants {
  /** Upper bound on bots connected at the same time. */
  const MAX_CONCURRENT_BOTS: nat := 10

  /** Size of each bot's token bucket and its refill rate per second. */
  const MAX_ACTIONS_PER_SECOND: nat := 5

  /** Delay before a dropped bot is reconnected, in milliseconds. */
  const RECONNECT_DELAY_MS: nat := 3000

  /** Period of the state observer's poll, in milliseconds. */
  const STATE_POLL_INTERVAL_MS: nat := 250
}
