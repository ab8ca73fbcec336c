/** Configuration of one session: defaults, hard maxima and validation. */
module SessionConfig {
  import opened Types

  datatype Limits = Limits(
    maxChannels: nat,
    maxPendingOpens: nat,
    maxPendingChannelRequests: nat,
    maxPendingChannelRequestsPerChannel: nat,
    maxPendingGlobalRequests: nat,
    maxQueuedFramesPerChannel: nat,
    maxQueuedFramesTotal: nat,
    maxQueuedBytesPerChannel: nat,
    maxQueuedBytesTotal: nat,
    maxControlPayload: nat,
    maxTypeLength: nat,
    maxCodeLength: nat,
    maxMessageLength: nat)

  datatype Config = Config(
    initialWindow: nat,
    maxPacketSize: nat,
    windowAdjustThreshold: nat,
    disconnectTimeout: int,
    channelCloseTimeout: int,
    limits: Limits)

  const HARD_MAX_CONTROL_PAYLOAD := 24576

  function Or(value: nat, fallback: nat): nat {
    if value == 0 then fallback else value
  }

  function LimitsWithDefaults(l: Limits): Limits {
    Limits(
      Or(l.maxChannels, 64),
      Or(l.maxPendingOpens, 32),
      Or(l.maxPendingChannelRequests, 1024),
      Or(l.maxPendingChannelRequestsPerChannel, 64),
      Or(l.maxPendingGlobalRequests, 128),
      Or(l.maxQueuedFramesPerChannel, 256),
      Or(l.maxQueuedFramesTotal, 8192),
      Or(l.maxQueuedBytesPerChannel, 1048576),
      Or(l.maxQueuedBytesTotal, 16777216),
      Or(l.maxControlPayload, 16384),
      Or(l.maxTypeLength, 128),
      Or(l.maxCodeLength, 64),
      Or(l.maxMessageLength, 1024))
  }

  function WithDefaults(c: Config): Config {
    Config(
      Or(c.initialWindow, 262144),
      Or(c.maxPacketSize, 16384),
      Or(c.windowAdjustThreshold, 65536),
      if c.disconnectTimeout == 0 then 250_000_000 else c.disconnectTimeout,
      if c.channelCloseTimeout == 0 then 5_000_000_000 else c.channelCloseTimeout,
      LimitsWithDefaults(c.limits))
  }

  /** The checks of Limits.Validate, on limits that already carry their defaults. */
  predicate LimitsChecked(l: Limits) {
    && 0 < l.maxChannels <= 1024
    && 0 < l.maxPendingOpens <= 1024
    && 0 < l.maxPendingChannelRequests <= 16384
    && 0 < l.maxPendingChannelRequestsPerChannel <= 1024
    && 0 < l.maxPendingGlobalRequests <= 2048
    && 0 < l.maxQueuedFramesPerChannel <= 4096
    && 0 < l.maxQueuedFramesTotal <= 65536
    && 0 < l.maxControlPayload <= HARD_MAX_CONTROL_PAYLOAD
    && 0 < l.maxTypeLength <= 256
    && 0 < l.maxCodeLength <= 128
    && 0 < l.maxMessageLength <= 4096
    && 0 < l.maxQueuedBytesPerChannel <= 8388608
    && 0 < l.maxQueuedBytesTotal <= 67108864
    && l.maxPendingOpens <= l.maxChannels
    && l.maxPendingChannelRequestsPerChannel <= l.maxPendingChannelRequests
    && l.maxQueuedFramesPerChannel <= l.maxQueuedFramesTotal
    && l.maxQueuedBytesPerChannel <= l.maxQueuedBytesTotal
  }

  /** The checks of Config.Validate, on a configuration that already carries its defaults. */
  predicate Checked(c: Config) {
    && 0 < c.initialWindow
    && 0 < c.maxPacketSize <= c.initialWindow
    && c.maxPacketSize <= HARD_MAX_CONTROL_PAYLOAD
    && 0 < c.windowAdjustThreshold <= c.initialWindow
    && c.initialWindow < MAX_U32
    && 0 <= c.disconnectTimeout
    && 0 < c.channelCloseTimeout
    && LimitsChecked(c.limits)
    && c.maxPacketSize <= c.limits.maxQueuedBytesPerChannel
    && c.maxPacketSize <= c.limits.maxQueuedBytesTotal
    && c.limits.maxControlPayload <= c.limits.maxQueuedBytesTotal
  }

  /** Config.Validate: Prepare refuses every configuration for which this is false. */
  predicate Validate(c: Config) {
    Checked(WithDefaults(c))
  }

  /** Room for every reject code and message the session invents itself. */
  predicate RoomForRejects(c: Config) {
    c.limits.maxCodeLength >= 24 && c.limits.maxMessageLength >= 35
  }
}
