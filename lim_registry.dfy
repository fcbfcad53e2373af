/*
 * The catalogue of LIM timers: for each singleton timer, the callback and
 * expiration input it is created with, whether it is periodic and whether
 * it is armed at creation; which timers a role and a build instantiate;
 * which creation failures abort limCreateTimers; and the message each
 * expiry callback posts.
 */
module TimerRegistry {
  import opened LimTypes

  /** A catalogue entry: what tx_timer_create is given for the timer. */
  datatype TimerDef = TimerDef(handler: Handler, param: Word, periodic: bool, autoStart: bool)

  /**
   * The singleton timers limCreateTimers creates. Per-station timers (CNF
   * wait, auth response) and the timers of AP product builds have no entry.
   */
  function Def(id: TimerId, role: Role): Option<TimerDef>
  {
    match id
    case MinChannel => Some(TimerDef(TimerHandler, Code(MinChannelTimeout), false, false))
    case MaxChannel => Some(TimerDef(TimerHandler, Code(MaxChannelTimeout), false, false))
    case ChannelSwitch => Some(TimerDef(ChannelSwitchTimerHandler, Num(0), false, false))
    case Quiet => Some(TimerDef(QuietTimerHandler, Code(QuietTimeout), false, false))
    case QuietBss => Some(TimerDef(QuietBssTimerHandler, Code(QuietBssTimeout), false, false))
    case JoinFail => Some(TimerDef(TimerHandler, Code(JoinFailTimeout), false, false))
    case AssocFail => Some(TimerDef(AssocFailureTimerHandler, LimAssoc, false, false))
    case ReassocFail => Some(TimerDef(AssocFailureTimerHandler, LimReassoc, false, false))
    case AddtsRsp => Some(TimerDef(AddtsResponseTimerHandler, Code(AddtsRspTimeout), false, false))
    case AuthFail => Some(TimerDef(TimerHandler, Code(AuthFailTimeout), false, false))
    case HeartBeat => Some(TimerDef(TimerHandler, Code(HeartBeatTimeout), false, false))
    case ProbeAfterHb => Some(TimerDef(TimerHandler, Code(ProbeHbFailureTimeout), false, false))
    case BackgroundScan => Some(TimerDef(TimerHandler, Code(ChannelScanTimeout), true, false))
    case DisassocThreshold =>
      Some(TimerDef(SendDisassocFrameThresholdHandler, Code(HashMissThresTimeout), true, true))
    case Keepalive => Some(TimerDef(KeepaliveTimerHandler, Num(0), true, role == ApRole))
    case OlbcCache =>
      Some(TimerDef(UpdateOlbcCacheTimerHandler, Code(UpdateOlbcCacheTimeout), true, true))
    case FtPreauthRsp => Some(TimerDef(TimerHandler, Code(FtPreauthRspTimeout), false, false))
    case RemainOnChannel => Some(TimerDef(TimerHandler, Code(RemainChnTimeout), false, false))
    case _ => None
  }

  /** The timers created only outside the AP role. */
  const STATION_TIMERS: set<TimerId> :=
    {ChannelSwitch, Quiet, QuietBss, JoinFail, AssocFail, ReassocFail, AddtsRsp, AuthFail,
     HeartBeat, ProbeAfterHb, BackgroundScan}

  /** The timers created in every role and build. */
  const COMMON_TIMERS: set<TimerId> := {MinChannel, MaxChannel, DisassocThreshold, Keepalive}

  predicate StationOnly(id: TimerId)
  {
    id in STATION_TIMERS
  }

  /**
   * Whether limCreateTimers creates the singleton timer in this role and
   * build: the common timers always, the station timers outside the AP
   * role, and each feature timer when its feature is built in.
   */
  predicate Applicable(id: TimerId, role: Role, build: Build)
  {
    id in COMMON_TIMERS || (id in STATION_TIMERS && role != ApRole) ||
    (id == OlbcCache && build.softAp) || (id == FtPreauthRsp && build.fastTransition) ||
    (id == RemainOnChannel && build.p2p)
  }

  /** The timers whose creation failure makes limCreateTimers return at once. */
  predicate Fatal(id: TimerId)
  {
    match id
    case MinChannel | MaxChannel | ChannelSwitch | Quiet | QuietBss | JoinFail | AssocFail
       | ReassocFail | AddtsRsp | AuthFail | FtPreauthRsp | RemainOnChannel => true
    case _ => false
  }

  /**
   * The message an expiry callback posts when the substrate hands it the
   * timer's expiration input. Only limTimerHandler takes the message type
   * from the input; the others post a fixed type and carry the input, or 0,
   * in the body. A timer without a callback posts nothing.
   */
  function Expiry(h: Handler, param: Word): Option<Msg>
  {
    match h
    case NoCallback => None
    case TimerHandler => Some(Msg(Truncate16(param), Num(0)))
    case AddtsResponseTimerHandler => Some(Msg(Code(AddtsRspTimeout), param))
    case AuthResponseTimerHandler => Some(Msg(Code(AuthRspTimeout), param))
    case AssocFailureTimerHandler => Some(Msg(Code(AssocFailTimeout), param))
    case UpdateOlbcCacheTimerHandler => Some(Msg(Code(UpdateOlbcCacheTimeout), Num(0)))
    case SendDisassocFrameThresholdHandler => Some(Msg(Code(HashMissThresTimeout), Num(0)))
    case CnfWaitTimerHandler => Some(Msg(Code(CnfWaitTimeout), param))
    case KeepaliveTimerHandler => Some(Msg(Code(KeepaliveTimeout), param))
    case ChannelSwitchTimerHandler => Some(Msg(Code(ChannelSwitchTimeout), param))
    case QuietTimerHandler => Some(Msg(Code(QuietTimeout), param))
    case QuietBssTimerHandler => Some(Msg(Code(QuietBssTimeout), param))
  }

  /** The reason code each timer's expiry is meant to deliver to the engine. */
  function ReasonCode(id: TimerId): Option<MsgType>
  {
    match id
    case MinChannel => Some(MinChannelTimeout)
    case MaxChannel => Some(MaxChannelTimeout)
    case JoinFail => Some(JoinFailTimeout)
    case AuthFail => Some(AuthFailTimeout)
    case AssocFail => Some(AssocFailTimeout)
    case ReassocFail => Some(AssocFailTimeout)
    case AddtsRsp => Some(AddtsRspTimeout)
    case HeartBeat => Some(HeartBeatTimeout)
    case ProbeAfterHb => Some(ProbeHbFailureTimeout)
    case BackgroundScan => Some(ChannelScanTimeout)
    case Keepalive => Some(KeepaliveTimeout)
    case ChannelSwitch => Some(ChannelSwitchTimeout)
    case Quiet => Some(QuietTimeout)
    case QuietBss => Some(QuietBssTimeout)
    case DisassocThreshold => Some(HashMissThresTimeout)
    case OlbcCache => Some(UpdateOlbcCacheTimeout)
    case FtPreauthRsp => Some(FtPreauthRspTimeout)
    case RemainOnChannel => Some(RemainChnTimeout)
    case CnfWait => Some(CnfWaitTimeout)
    case AuthRsp => Some(AuthRspTimeout)
    case _ => None
  }

  /**
   * Dispatch is consistent with the catalogue: every singleton timer, on
   * expiry, posts exactly one message whose type is the timer's own reason
   * code.
   */
  lemma ExpiryPostsReasonCode(id: TimerId, role: Role)
    requires Def(id, role).Some?
    ensures var d := Def(id, role).value;
      Expiry(d.handler, d.param).Some? && ReasonCode(id).Some? &&
      Expiry(d.handler, d.param).value.msgType == Code(ReasonCode(id).value)
  {
  }

  /**
   * Association and reassociation failures share one callback and one
   * message type; the engine tells them apart by the body, LIM_ASSOC or
   * LIM_REASSOC.
   */
  lemma AssocReassocDistinguished(role: Role)
    ensures var a := Def(AssocFail, role).value;
            var r := Def(ReassocFail, role).value;
      a.handler == r.handler &&
      Expiry(a.handler, a.param) == Some(Msg(Code(AssocFailTimeout), LimAssoc)) &&
      Expiry(r.handler, r.param) == Some(Msg(Code(AssocFailTimeout), LimReassoc))
  {
  }

  /**
   * The CNF-wait callback reports the station index it was created with,
   * so expiries of different slots are different messages.
   */
  lemma CnfExpiryCarriesIndex(i: U32, j: U32)
    ensures Expiry(CnfWaitTimerHandler, Num(i)) == Some(Msg(Code(CnfWaitTimeout), Num(i)))
    ensures i != j ==> Expiry(CnfWaitTimerHandler, Num(i)) != Expiry(CnfWaitTimerHandler, Num(j))
  {
  }

  /**
   * Only three timers are armed at creation: the disassociation throttle,
   * the OLBC cache timer, and the keepalive timer in the AP role.
   */
  lemma AutoStartedTimers(id: TimerId, role: Role)
    requires Def(id, role).Some?
    ensures Def(id, role).value.autoStart <==>
      id == DisassocThreshold || id == OlbcCache || (id == Keepalive && role == ApRole)
  {
  }

  /** The periodic timers are exactly the housekeeping ones and the background scan. */
  lemma PeriodicTimers(id: TimerId, role: Role)
    requires Def(id, role).Some?
    ensures Def(id, role).value.periodic <==>
      id in {BackgroundScan, DisassocThreshold, Keepalive, OlbcCache}
  {
  }

  /** In the AP role no station-only timer is created, whatever the build. */
  lemma ApRoleCreatesNoStationTimer(id: TimerId, build: Build)
    requires Applicable(id, ApRole, build)
    ensures !StationOnly(id)
  {
  }

  /** Every timer the layer can create has a catalogue entry. */
  lemma ApplicableHasDef(id: TimerId, role: Role, build: Build)
    requires Applicable(id, role, build)
    ensures Def(id, role).Some?
  {
  }
}
