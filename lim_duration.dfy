/*
 * Duration resolution and the reconfiguration policy of
 * limDeactivateAndChangeTimer: for each timer identifier, what the call
 * does to that timer (nothing, disarm only, disarm then change, or change
 * only after a successful disarm) and with which tick values.
 */
module DurationResolver {
  import opened LimTypes
  import opened TimerSubstrate

  /** LIM_BACKGROUND_SCAN_PERIOD_DEFAULT_MS */
  const BACKGROUND_SCAN_PERIOD_DEFAULT_MS: U32 := 5000
  /** LIM_KEEPALIVE_TIMER_MS */
  const KEEPALIVE_TIMER_MS: U32 := 3000
  /** LIM_CHANNEL_SWITCH_TIMER_TICKS */
  const CHANNEL_SWITCH_TIMER_TICKS: U32 := 1
  /** LIM_QUIET_TIMER_TICKS */
  const QUIET_TIMER_TICKS: U32 := 100
  /** LIM_QUIET_BSS_TIMER_TICK */
  const QUIET_BSS_TIMER_TICKS: U32 := 100
  /** The fixed 1000 ms of the FT pre-auth response and remain-on-channel timers. */
  const FIXED_RESPONSE_MS: U32 := 1000

  /**
   * Background-scan period: a configured 0 disables background scanning
   * (the flag is set by the caller) but the timer still runs with the
   * default period, so the period used is never 0.
   */
  function BackgroundScanPeriodMs(configured: U32): (ms: U32)
    ensures ms != 0
    ensures configured != 0 ==> ms == configured
    ensures configured == 0 ==> ms == BACKGROUND_SCAN_PERIOD_DEFAULT_MS
  {
    if configured == 0 then BACKGROUND_SCAN_PERIOD_DEFAULT_MS else configured
  }

  /** Keepalive timeout: a configured 0 disables keepalive frames, not the timer. */
  function KeepaliveMs(configured: U32): (ms: U32)
    ensures ms != 0
    ensures configured != 0 ==> ms == configured
    ensures configured == 0 ==> ms == KEEPALIVE_TIMER_MS
  {
    if configured == 0 then KEEPALIVE_TIMER_MS else configured
  }

  /** SYS_MS_TO_TICKS(ms + SYS_TICK_DUR_MS - 1), the sum taken in 32 bits. */
  function KeepaliveTicks(ms: U32, tickMs: nat): U32
    requires tickMs > 0
  {
    MsToTicks(Wrap32(ms + tickMs - 1), tickMs)
  }

  /**
   * When the sum does not wrap, the keepalive duration is ms rounded UP to
   * whole ticks, so a nonzero duration never becomes 0 ticks.
   */
  lemma KeepaliveRoundsUp(ms: U32, tickMs: nat)
    requires tickMs > 0 && ms + tickMs - 1 < U32_LIMIT
    ensures ms <= KeepaliveTicks(ms, tickMs) * tickMs < ms + tickMs
    ensures ms > 0 ==> KeepaliveTicks(ms, tickMs) > 0
  {
    MsToTicksBounds(ms + tickMs - 1, tickMs);
  }

  /**
   * Heartbeat duration: beacon interval (ms) times the heartbeat failure
   * threshold, multiplied in 32 bits and converted once to ticks.
   */
  function HeartBeatTicks(beaconIntervalMs: U32, threshold: U32, tickMs: nat): U32
    requires tickMs > 0
  {
    MsToTicks(Wrap32(beaconIntervalMs * threshold), tickMs)
  }

  /**
   * Without wrap-around the heartbeat duration is the product truncated to
   * ticks; a zero factor gives 0 ticks, and the duration is nonzero exactly
   * when the (32-bit) product reaches one tick.
   */
  lemma HeartBeatTicksBounds(beaconIntervalMs: U32, threshold: U32, tickMs: nat)
    requires tickMs > 0
    ensures var ticks := HeartBeatTicks(beaconIntervalMs, threshold, tickMs);
      (beaconIntervalMs * threshold < U32_LIMIT ==>
         ticks * tickMs <= beaconIntervalMs * threshold < ticks * tickMs + tickMs) &&
      (beaconIntervalMs == 0 || threshold == 0 ==> ticks == 0) &&
      (ticks > 0 <==> Wrap32(beaconIntervalMs * threshold) >= tickMs)
  {
    var product := Wrap32(beaconIntervalMs * threshold);
    MsToTicksBounds(product, tickMs);
    var ticks := MsToTicks(product, tickMs);
    if ticks > 0 {
      MulAtLeast(tickMs, ticks);
      assert tickMs <= ticks * tickMs by { assert tickMs * ticks == ticks * tickMs; }
    }
  }

  /** What one call of limDeactivateAndChangeTimer does to the named timer. */
  datatype Reconfig =
    | NoAction                                        // no case for the id in this build
    | DeactivateOnly                                  // disarm and leave the schedule
    | DeactivateAndChange(initTicks: U32, reloadTicks: U32)  // change even if the disarm fails
    | ChangeIfDeactivated(initTicks: U32, reloadTicks: U32)  // change only after a successful disarm

  /** Whether a quiet period borrows the channel timers' durations. */
  predicate QuietOverride(env: ProtocolState)
  {
    env.quietRunning && env.triggerBackgroundScanDuringQuietBss
  }

  /** The min/max channel timers: quiet duration, scan-request time, or no change. */
  function ChannelReconfig(env: ProtocolState, forMax: bool, tickMs: nat): Reconfig
    requires tickMs > 0
  {
    if QuietOverride(env) then DeactivateAndChange(env.quietDuration, 0)
    else if env.scanReq.Some? then
      var ms := if forMax then env.scanReq.value.maxChannelTime else env.scanReq.value.minChannelTime;
      DeactivateAndChange(MsToTicks(ms, tickMs), 0)
    else DeactivateOnly
  }

  /**
   * The reconfiguration policy of limDeactivateAndChangeTimer for a client
   * build. Configuration reads go into variables initialised to 0, so a
   * failed read yields 0.
   */
  function Resolve(id: TimerId, cfg: Config, env: ProtocolState, role: Role, build: Build,
                   tickMs: nat): Reconfig
    requires tickMs > 0
  {
    match id
    case AddtsRsp => DeactivateOnly
    case MinChannel => ChannelReconfig(env, false, tickMs)
    case MaxChannel =>
      // in the AP role the client build leaves the value at its initial 0
      if role != ApRole then ChannelReconfig(env, true, tickMs) else DeactivateAndChange(0, 0)
    case JoinFail => DeactivateAndChange(MsToTicks(CfgRead(cfg, CfgJoinFailureTimeout, 0), tickMs), 0)
    case AuthFail =>
      DeactivateAndChange(MsToTicks(CfgRead(cfg, CfgAuthenticateFailureTimeout, 0), tickMs), 0)
    case AssocFail =>
      DeactivateAndChange(MsToTicks(CfgRead(cfg, CfgAssociationFailureTimeout, 0), tickMs), 0)
    case ReassocFail =>
      DeactivateAndChange(MsToTicks(CfgRead(cfg, CfgReassociationFailureTimeout, 0), tickMs), 0)
    case HeartBeat =>
      DeactivateAndChange(HeartBeatTicks(CfgRead(cfg, CfgBeaconInterval, 0),
                                         CfgRead(cfg, CfgHeartBeatThreshold, 0), tickMs), 0)
    case ProbeAfterHb =>
      DeactivateAndChange(MsToTicks(CfgRead(cfg, CfgProbeAfterHbFailTimeout, 0), tickMs), 0)
    case Keepalive =>
      var ticks := KeepaliveTicks(KeepaliveMs(CfgRead(cfg, CfgKeepaliveTimeout, 0)), tickMs);
      DeactivateAndChange(ticks, ticks)
    case BackgroundScan =>
      var ticks := MsToTicks(BackgroundScanPeriodMs(CfgRead(cfg, CfgBackgroundScanPeriod, 0)), tickMs);
      DeactivateAndChange(ticks, ticks)
    case ChannelSwitch => ChangeIfDeactivated(env.switchTimeoutValue, 0)
    case QuietBss => DeactivateAndChange(env.quietDuration, 0)
    case Quiet => DeactivateAndChange(MsToTicks(env.quietTimeoutValue, tickMs), 0)
    case FtPreauthRsp =>
      if build.fastTransition then DeactivateAndChange(MsToTicks(FIXED_RESPONSE_MS, tickMs), 0)
      else NoAction
    case RemainOnChannel =>
      if build.p2p then DeactivateAndChange(MsToTicks(FIXED_RESPONSE_MS, tickMs), 0) else NoAction
    case _ => NoAction
  }

  /** The timer after the substrate calls a reconfiguration makes. */
  function Reconfigured(t: Timer, r: Reconfig, deactivateOk: bool, changeOk: bool): Timer
  {
    match r
    case NoAction => t
    case DeactivateOnly => Deactivated(t, deactivateOk)
    case DeactivateAndChange(i, rl) => Changed(Deactivated(t, deactivateOk), i, rl, changeOk)
    case ChangeIfDeactivated(i, rl) =>
      if Accepted(t, deactivateOk) then Changed(Deactivated(t, deactivateOk), i, rl, changeOk) else t
  }

  /** The timers whose disarm failure does not stop the change step. */
  const AttemptAnywayIds: set<TimerId> :=
    {JoinFail, AuthFail, AssocFail, ReassocFail, HeartBeat, ProbeAfterHb, Keepalive,
     BackgroundScan, Quiet, QuietBss}

  /**
   * "Attempt anyway": for these timers a refused disarm still leads to the
   * change, so the timer ends with the resolved durations.
   */
  lemma AttemptAnyway(id: TimerId, cfg: Config, env: ProtocolState, role: Role, build: Build,
                      tickMs: nat, t: Timer)
    requires tickMs > 0 && id in AttemptAnywayIds && t.created
    ensures var r := Resolve(id, cfg, env, role, build, tickMs);
      r.DeactivateAndChange? &&
      var after := Reconfigured(t, r, false, true);
      after.initTicks == r.initTicks && after.reloadTicks == r.reloadTicks &&
      after.active == t.active
  {
  }

  /**
   * The channel-switch timer is the exception: a refused disarm leaves it
   * untouched, and an accepted one sets the switch timeout unconverted.
   */
  lemma ChannelSwitchStopsOnRefusedDisarm(cfg: Config, env: ProtocolState, role: Role, build: Build,
                                          tickMs: nat, t: Timer, changeOk: bool)
    requires tickMs > 0
    ensures Reconfigured(t, Resolve(ChannelSwitch, cfg, env, role, build, tickMs), false, changeOk) == t
    ensures t.created && changeOk ==>
      var after := Reconfigured(t, Resolve(ChannelSwitch, cfg, env, role, build, tickMs), true, true);
      !after.active && after.initTicks == env.switchTimeoutValue && after.reloadTicks == 0
  {
  }

  /**
   * While a quiet period runs with background scanning enabled, both channel
   * timers take the quiet duration (ticks, unconverted), whatever the scan
   * request says; the max timer only outside the AP role.
   */
  lemma QuietPeriodOverridesScan(cfg: Config, env: ProtocolState, role: Role, build: Build, tickMs: nat)
    requires tickMs > 0 && env.quietRunning && env.triggerBackgroundScanDuringQuietBss
    ensures Resolve(MinChannel, cfg, env, role, build, tickMs) == DeactivateAndChange(env.quietDuration, 0)
    ensures role != ApRole ==>
      Resolve(MaxChannel, cfg, env, role, build, tickMs) == DeactivateAndChange(env.quietDuration, 0)
  {
  }

  /** Outside a quiet override, the scan request's channel times are converted to ticks. */
  lemma ScanRequestSetsChannelTimes(cfg: Config, env: ProtocolState, role: Role, build: Build,
                                    tickMs: nat)
    requires tickMs > 0 && !QuietOverride(env) && env.scanReq.Some?
    ensures Resolve(MinChannel, cfg, env, role, build, tickMs) ==
      DeactivateAndChange(MsToTicks(env.scanReq.value.minChannelTime, tickMs), 0)
    ensures role != ApRole ==>
      Resolve(MaxChannel, cfg, env, role, build, tickMs) ==
      DeactivateAndChange(MsToTicks(env.scanReq.value.maxChannelTime, tickMs), 0)
  {
  }

  /**
   * Without a scan request (and no quiet override) the change is skipped:
   * the channel timers are only disarmed and keep their schedule.
   */
  lemma NoScanRequestSkipsChange(cfg: Config, env: ProtocolState, role: Role, build: Build,
                                 tickMs: nat, t: Timer, deactivateOk: bool, changeOk: bool)
    requires tickMs > 0 && !QuietOverride(env) && env.scanReq.None?
    ensures var after := Reconfigured(t, Resolve(MinChannel, cfg, env, role, build, tickMs),
                                      deactivateOk, changeOk);
      after.initTicks == t.initTicks && after.reloadTicks == t.reloadTicks &&
      (deactivateOk && t.created ==> !after.active)
    ensures role != ApRole ==>
      Reconfigured(t, Resolve(MaxChannel, cfg, env, role, build, tickMs), deactivateOk, changeOk) ==
      Deactivated(t, deactivateOk)
  {
  }

  /**
   * Background scan: a period of 0, configured or left by a failed read,
   * gives the 5000 ms default, any other value is used as configured;
   * either way the timer is periodic (initial == reload).
   */
  lemma BackgroundScanDefaultPeriod(cfg: Config, env: ProtocolState, role: Role, build: Build, tickMs: nat)
    requires tickMs > 0
    ensures var r := Resolve(BackgroundScan, cfg, env, role, build, tickMs);
      var period := CfgRead(cfg, CfgBackgroundScanPeriod, 0);
      r.DeactivateAndChange? && r.initTicks == r.reloadTicks &&
      (CfgBackgroundScanPeriod !in cfg ==> r.initTicks == MsToTicks(5000, tickMs)) &&
      (period == 0 ==> r.initTicks == MsToTicks(5000, tickMs)) &&
      (period != 0 ==> r.initTicks == MsToTicks(period, tickMs))
  {
  }

  /**
   * Keepalive: a 0, configured or left by a failed read, gives the 3000 ms
   * default; the duration is rounded up to whole ticks and the timer is
   * periodic.
   */
  lemma KeepaliveDefaultPeriod(cfg: Config, env: ProtocolState, role: Role, build: Build, tickMs: nat)
    requires 0 < tickMs < 0x1000_0000 && CfgRead(cfg, CfgKeepaliveTimeout, 0) < 0xF000_0000
    ensures var r := Resolve(Keepalive, cfg, env, role, build, tickMs);
      var configured := CfgRead(cfg, CfgKeepaliveTimeout, 0);
      var ms := if configured == 0 then 3000 else configured;
      r.DeactivateAndChange? && r.initTicks == r.reloadTicks &&
      ms <= r.initTicks * tickMs < ms + tickMs
  {
  }

  /** The ADDTS case only disarms: the schedule is left as it was. */
  lemma AddtsOnlyDisarms(cfg: Config, env: ProtocolState, role: Role, build: Build, tickMs: nat,
                         t: Timer, deactivateOk: bool, changeOk: bool)
    requires tickMs > 0
    ensures Reconfigured(t, Resolve(AddtsRsp, cfg, env, role, build, tickMs), deactivateOk, changeOk)
            == Deactivated(t, deactivateOk)
  {
  }

  /**
   * Identifiers without a case in this build (per-station timers, timers of
   * AP builds, the learn-duration case whose body is compiled out) leave the
   * timer alone.
   */
  lemma NoCaseNoAction(id: TimerId, cfg: Config, env: ProtocolState, role: Role, build: Build,
                       tickMs: nat)
    requires tickMs > 0
    requires id in {CnfWait, AuthRsp, DisassocThreshold, OlbcCache, LearnInterval, LearnDuration,
                    PreAuthCleanup}
             || (id == FtPreauthRsp && !build.fastTransition) || (id == RemainOnChannel && !build.p2p)
    ensures Resolve(id, cfg, env, role, build, tickMs) == NoAction
  {
  }

  /**
   * A reconfiguration changes a timer only in place: it is never created,
   * re-targeted or re-armed by it, and it keeps its callback and session.
   */
  lemma ReconfigureInPlace(t: Timer, r: Reconfig, deactivateOk: bool, changeOk: bool)
    ensures var after := Reconfigured(t, r, deactivateOk, changeOk);
      after.created == t.created && after.handler == t.handler && after.param == t.param &&
      after.sessionId == t.sessionId && (after.active ==> t.active)
  {
  }

  /**
   * Two reconfigurations in a row: when the second change is accepted, the
   * timer carries the second call's durations, never a mix of the two.
   */
  lemma SecondReconfigurationWins(t: Timer, r1: Reconfig, initTicks: U32, reloadTicks: U32,
                                  d1: bool, c1: bool, d2: bool)
    requires t.created
    ensures var after := Reconfigured(Reconfigured(t, r1, d1, c1),
                                      DeactivateAndChange(initTicks, reloadTicks), d2, true);
      after.initTicks == initTicks && after.reloadTicks == reloadTicks
  {
    ReconfigureInPlace(t, r1, d1, c1);
  }

  /** Beacon interval 100 ms and threshold 3 give 300 ms worth of ticks. */
  lemma HeartBeatExample(tickMs: nat)
    requires tickMs > 0
    ensures HeartBeatTicks(100, 3, tickMs) == MsToTicks(300, tickMs)
    ensures tickMs == 10 ==> HeartBeatTicks(100, 3, tickMs) == 30
  {
  }
}
