/*
 * Values shared by the LIM (link management) timer layer: machine words,
 * the tick conversion, the LIM message and its codes, the timer record the
 * scheduling substrate keeps, and the read-only inputs the layer consults
 * (configuration store, role, build features, ephemeral protocol state).
 */
module LimTypes {

  datatype Option<T> = None | Some(value: T)

  const U32_LIMIT: int := 0x1_0000_0000
  const U16_LIMIT: int := 0x1_0000

  /** tANI_U32 */
  type U32 = x: int | 0 <= x < U32_LIMIT

  /** tANI_U16 */
  type U16 = x: int | 0 <= x < U16_LIMIT

  /** Unsigned 32-bit arithmetic: a result is reduced modulo 2^32. */
  function Wrap32(x: nat): (r: U32)
    ensures x < U32_LIMIT ==> r == x
    ensures x >= U32_LIMIT ==> r < x
  {
    x % U32_LIMIT
  }

  /**
   * SYS_MS_TO_TICKS: milliseconds to scheduler ticks, a truncating division
   * by the tick length SYS_TICK_DUR_MS (a parameter of the model).
   */
  function MsToTicks(ms: U32, tickMs: nat): (ticks: U32)
    requires tickMs > 0
    ensures ticks <= ms
  {
    DivBounds(ms, tickMs);
    ms / tickMs
  }

  /** The conversion truncates: the ticks cover ms, less than one tick short. */
  lemma MsToTicksBounds(ms: U32, tickMs: nat)
    requires tickMs > 0
    ensures MsToTicks(ms, tickMs) * tickMs <= ms < MsToTicks(ms, tickMs) * tickMs + tickMs
  {
    DivBounds(ms, tickMs);
  }

  lemma DivBounds(a: nat, d: nat)
    requires d > 0
    ensures (a / d) * d <= a < (a / d) * d + d
    ensures a / d <= a
  {
    var q := a / d;
    assert a == q * d + a % d;
    MulAtLeast(q, d);
  }

  lemma MulAtLeast(q: nat, d: nat)
    requires d > 0
    ensures q <= q * d
  {
    var k := d - 1;
    assert q * d == q * k + q;
  }

  /** The SIR_LIM_* message types that the expiry handlers post. */
  datatype MsgType =
    | MinChannelTimeout | MaxChannelTimeout | JoinFailTimeout | AuthFailTimeout
    | AssocFailTimeout | AddtsRspTimeout | AuthRspTimeout | HeartBeatTimeout
    | ProbeHbFailureTimeout | ChannelScanTimeout | HashMissThresTimeout
    | KeepaliveTimeout | CnfWaitTimeout | UpdateOlbcCacheTimeout
    | FtPreauthRspTimeout | RemainChnTimeout | ChannelSwitchTimeout
    | QuietTimeout | QuietBssTimeout

  /**
   * A 32-bit word as the timer layer uses it: a message code, one of the two
   * symbolic association kinds LIM_ASSOC and LIM_REASSOC, or a plain number
   * (a station index, zero).
   */
  datatype Word = Code(code: MsgType) | LimAssoc | LimReassoc | Num(n: U32)

  /** The (tANI_U16) cast applied to a word used as a message type. */
  function Truncate16(w: Word): Word
  {
    if w.Num? then Num(w.n % U16_LIMIT) else w
  }

  /** tSirMsgQ as the handlers fill it: bodyptr is always NULL. */
  datatype Msg = Msg(msgType: Word, bodyval: Word)

  /** The expiry callback registered with a timer at creation. */
  datatype Handler =
    | NoCallback
    | TimerHandler
    | AddtsResponseTimerHandler
    | AuthResponseTimerHandler
    | AssocFailureTimerHandler
    | UpdateOlbcCacheTimerHandler
    | SendDisassocFrameThresholdHandler
    | CnfWaitTimerHandler
    | KeepaliveTimerHandler
    | ChannelSwitchTimerHandler
    | QuietTimerHandler
    | QuietBssTimerHandler

  /**
   * One timer of the scheduling substrate. `created` stands for a valid
   * timer signature (set by a successful tx_timer_create); `param` is the
   * expiration input handed to the callback; `initTicks` is the initial
   * schedule time, `reloadTicks` the reschedule time (0 for a one-shot).
   */
  datatype Timer = Timer(
    created: bool,
    handler: Handler,
    param: Word,
    active: bool,
    initTicks: U32,
    reloadTicks: U32,
    sessionId: nat)

  /** A timer slot that was never created (zeroed memory). */
  const Unset: Timer := Timer(false, NoCallback, Num(0), false, 0, 0, 0)

  /** The timers of the layer, by the identifiers of limUtils.h. */
  datatype TimerId =
    | MinChannel | MaxChannel | JoinFail | AuthFail | AssocFail | ReassocFail
    | AddtsRsp | HeartBeat | ProbeAfterHb | BackgroundScan | Keepalive
    | ChannelSwitch | Quiet | QuietBss | DisassocThreshold | OlbcCache
    | FtPreauthRsp | RemainOnChannel | CnfWait | AuthRsp | LearnInterval
    | LearnDuration | PreAuthCleanup

  const AllTimerIds: set<TimerId> := {
    MinChannel, MaxChannel, JoinFail, AuthFail, AssocFail, ReassocFail,
    AddtsRsp, HeartBeat, ProbeAfterHb, BackgroundScan, Keepalive,
    ChannelSwitch, Quiet, QuietBss, DisassocThreshold, OlbcCache,
    FtPreauthRsp, RemainOnChannel, CnfWait, AuthRsp, LearnInterval,
    LearnDuration, PreAuthCleanup }

  lemma AllTimerIdsListed(id: TimerId)
    ensures id in AllTimerIds
  {
    match id
    case MinChannel =>
    case MaxChannel =>
    case JoinFail =>
    case AuthFail =>
    case AssocFail =>
    case ReassocFail =>
    case AddtsRsp =>
    case HeartBeat =>
    case ProbeAfterHb =>
    case BackgroundScan =>
    case Keepalive =>
    case ChannelSwitch =>
    case Quiet =>
    case QuietBss =>
    case DisassocThreshold =>
    case OlbcCache =>
    case FtPreauthRsp =>
    case RemainOnChannel =>
    case CnfWait =>
    case AuthRsp =>
    case LearnInterval =>
    case LearnDuration =>
    case PreAuthCleanup =>
  }

  /** The WNI_CFG_* keys the layer reads. */
  datatype CfgKey =
    | CfgActiveMinimumChannelTime | CfgActiveMaximumChannelTime | CfgJoinFailureTimeout
    | CfgAssociationFailureTimeout | CfgReassociationFailureTimeout | CfgAddtsRspTimeout
    | CfgAuthenticateFailureTimeout | CfgBeaconInterval | CfgProbeAfterHbFailTimeout
    | CfgBackgroundScanPeriod | CfgKeepaliveTimeout | CfgWtCnfTimeout | CfgMaxNumPreAuth
    | CfgOlbcDetectTimeout | CfgHeartBeatThreshold | CfgAuthenticateRspTimeout

  /** The configuration store: a key is absent when wlan_cfgGetInt fails. */
  type Config = map<CfgKey, U32>

  /**
   * wlan_cfgGetInt into a variable that already holds `current`: on success
   * the variable takes the stored value, on failure it keeps what it held.
   */
  function CfgRead(cfg: Config, key: CfgKey, current: U32): U32
  {
    if key in cfg then cfg[key] else current
  }

  /** gLimSystemRole; only the AP role changes the layer's behaviour. */
  datatype Role = ApRole | StaRole | StaInIbssRole

  /** The optional features compiled into the build. */
  datatype Build = Build(softAp: bool, fastTransition: bool, p2p: bool)

  /** gpLimMlmScanReq's channel times, in milliseconds. */
  datatype ScanReq = ScanReq(minChannelTime: U32, maxChannelTime: U32)

  /**
   * Protocol state owned by the engine and only read here: quiet-period
   * state and duration (already in ticks), the quiet timeout (ms), the scan
   * request if a scan is in progress, and the channel-switch timeout (ticks).
   */
  datatype ProtocolState = ProtocolState(
    quietRunning: bool,
    triggerBackgroundScanDuringQuietBss: bool,
    quietDuration: U32,
    quietTimeoutValue: U32,
    scanReq: Option<ScanReq>,
    switchTimeoutValue: U32)

  /** The parts of a PE session the layer reads. */
  datatype Session = Session(peSessionId: nat, beaconInterval: U32)
}
