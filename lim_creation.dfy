/*
 * What limCreateTimers computes before it calls the substrate: the tick
 * values it hands to tx_timer_create (one local, cfgValue, threaded through
 * every configuration read, so a failed read reuses the previous value),
 * the order of the creation steps, and which failed step ends the function
 * early.
 */
module TimerCreation {
  import opened LimTypes
  import opened DurationResolver
  import opened TimerRegistry
  import opened TimerSubstrate

  /**
   * The outcome of the foreign calls limCreateTimers makes: the
   * configuration store, the garbage cfgValue holds before the first read,
   * the singleton timers and CNF slots whose creation the substrate refuses,
   * and whether the pre-auth table allocation succeeds.
   */
  datatype CreateInputs = CreateInputs(
    cfg: Config,
    uninit: U32,
    failing: set<TimerId>,
    cnfFailing: set<nat>,
    allocOk: bool)

  /** The successive values of cfgValue that limCreateTimers passes on. */
  datatype Plan = Plan(
    minTicks: U32, maxTicks: U32, joinTicks: U32, assocTicks: U32, reassocTicks: U32,
    addtsTicks: U32, authTicks: U32, beaconTicks: U32, probeTicks: U32,
    backgroundScanRaw: U32, backgroundScanTicks: U32, hashMissTicks: U32,
    keepaliveRaw: U32, keepaliveTicks: U32, cnfTicks: U32, numPreAuth: U32,
    olbcTicks: U32, fixedTicks: U32)

  /**
   * The cfgValue chain. Outside the AP role the station block continues the
   * chain from the max-channel value; the disassociation throttle then
   * overwrites cfgValue, so everything after it is the same in every role.
   */
  function PlanOf(cfg: Config, uninit: U32, tickMs: nat, hashMissMs: U32): Plan
    requires tickMs > 0
  {
    var minT := MsToTicks(CfgRead(cfg, CfgActiveMinimumChannelTime, uninit), tickMs);
    var maxT := MsToTicks(CfgRead(cfg, CfgActiveMaximumChannelTime, minT), tickMs);
    var joinT := MsToTicks(CfgRead(cfg, CfgJoinFailureTimeout, maxT), tickMs);
    var assocT := MsToTicks(CfgRead(cfg, CfgAssociationFailureTimeout, joinT), tickMs);
    var reassocT := MsToTicks(CfgRead(cfg, CfgReassociationFailureTimeout, assocT), tickMs);
    var addtsT := MsToTicks(CfgRead(cfg, CfgAddtsRspTimeout, reassocT), tickMs);
    var authT := MsToTicks(CfgRead(cfg, CfgAuthenticateFailureTimeout, addtsT), tickMs);
    var beaconT := MsToTicks(CfgRead(cfg, CfgBeaconInterval, authT), tickMs);
    var probeT := MsToTicks(CfgRead(cfg, CfgProbeAfterHbFailTimeout, beaconT), tickMs);
    var bgRaw := CfgRead(cfg, CfgBackgroundScanPeriod, probeT);
    var bgT := MsToTicks(BackgroundScanPeriodMs(bgRaw), tickMs);
    var hashT := MsToTicks(hashMissMs, tickMs);
    var kaRaw := CfgRead(cfg, CfgKeepaliveTimeout, hashT);
    var kaT := KeepaliveTicks(KeepaliveMs(kaRaw), tickMs);
    var cnfT := MsToTicks(CfgRead(cfg, CfgWtCnfTimeout, kaT), tickMs);
    var numPreAuth := CfgRead(cfg, CfgMaxNumPreAuth, cnfT);
    var olbcT := MsToTicks(CfgRead(cfg, CfgOlbcDetectTimeout, numPreAuth), tickMs);
    Plan(minT, maxT, joinT, assocT, reassocT, addtsT, authT, beaconT, probeT, bgRaw, bgT,
         hashT, kaRaw, kaT, cnfT, numPreAuth, olbcT, MsToTicks(FIXED_RESPONSE_MS, tickMs))
  }

  /** The scan block's links of the cfgValue chain. */
  ghost predicate ScanChain(p: Plan, cfg: Config, uninit: U32, tickMs: nat)
    requires tickMs > 0
  {
    p.minTicks == MsToTicks(CfgRead(cfg, CfgActiveMinimumChannelTime, uninit), tickMs) &&
    p.maxTicks == MsToTicks(CfgRead(cfg, CfgActiveMaximumChannelTime, p.minTicks), tickMs)
  }

  /** The association block's links: each failed read keeps the previous ticks. */
  ghost predicate AssociationChain(p: Plan, cfg: Config, tickMs: nat)
    requires tickMs > 0
  {
    p.joinTicks == MsToTicks(CfgRead(cfg, CfgJoinFailureTimeout, p.maxTicks), tickMs) &&
    p.assocTicks == MsToTicks(CfgRead(cfg, CfgAssociationFailureTimeout, p.joinTicks), tickMs) &&
    p.reassocTicks ==
      MsToTicks(CfgRead(cfg, CfgReassociationFailureTimeout, p.assocTicks), tickMs) &&
    p.addtsTicks == MsToTicks(CfgRead(cfg, CfgAddtsRspTimeout, p.reassocTicks), tickMs) &&
    p.authTicks == MsToTicks(CfgRead(cfg, CfgAuthenticateFailureTimeout, p.addtsTicks), tickMs)
  }

  /** The link-monitoring block's links. */
  ghost predicate LinkMonitorChain(p: Plan, cfg: Config, tickMs: nat)
    requires tickMs > 0
  {
    p.beaconTicks == MsToTicks(CfgRead(cfg, CfgBeaconInterval, p.authTicks), tickMs) &&
    p.probeTicks == MsToTicks(CfgRead(cfg, CfgProbeAfterHbFailTimeout, p.beaconTicks), tickMs) &&
    p.backgroundScanRaw == CfgRead(cfg, CfgBackgroundScanPeriod, p.probeTicks) &&
    p.backgroundScanTicks == MsToTicks(BackgroundScanPeriodMs(p.backgroundScanRaw), tickMs)
  }

  /** The housekeeping block restarts the chain from the hash-miss threshold. */
  ghost predicate HousekeepingChain(p: Plan, cfg: Config, tickMs: nat, hashMissMs: U32)
    requires tickMs > 0
  {
    p.hashMissTicks == MsToTicks(hashMissMs, tickMs) &&
    p.keepaliveRaw == CfgRead(cfg, CfgKeepaliveTimeout, p.hashMissTicks) &&
    p.keepaliveTicks == KeepaliveTicks(KeepaliveMs(p.keepaliveRaw), tickMs)
  }

  /** The CNF-wait and pre-auth links. */
  ghost predicate TableChain(p: Plan, cfg: Config, tickMs: nat)
    requires tickMs > 0
  {
    p.cnfTicks == MsToTicks(CfgRead(cfg, CfgWtCnfTimeout, p.keepaliveTicks), tickMs) &&
    p.numPreAuth == CfgRead(cfg, CfgMaxNumPreAuth, p.cnfTicks)
  }

  /** The feature timers' links. */
  ghost predicate FeatureChain(p: Plan, cfg: Config, tickMs: nat)
    requires tickMs > 0
  {
    p.olbcTicks == MsToTicks(CfgRead(cfg, CfgOlbcDetectTimeout, p.numPreAuth), tickMs) &&
    p.fixedTicks == MsToTicks(FIXED_RESPONSE_MS, tickMs)
  }

  /** Every link of the chain, in the order limCreateTimers runs them. */
  ghost predicate Chained(p: Plan, cfg: Config, uninit: U32, tickMs: nat, hashMissMs: U32)
    requires tickMs > 0
  {
    ScanChain(p, cfg, uninit, tickMs) && AssociationChain(p, cfg, tickMs) &&
    LinkMonitorChain(p, cfg, tickMs) && HousekeepingChain(p, cfg, tickMs, hashMissMs) &&
    TableChain(p, cfg, tickMs) && FeatureChain(p, cfg, tickMs)
  }

  /** PlanOf is the one plan that follows every link of the chain. */
  lemma PlanIsTheChain(p: Plan, cfg: Config, uninit: U32, tickMs: nat, hashMissMs: U32)
    requires tickMs > 0
    ensures Chained(p, cfg, uninit, tickMs, hashMissMs) <==>
      p == PlanOf(cfg, uninit, tickMs, hashMissMs)
  {
  }

  /** The initial ticks tx_timer_create is given for a singleton timer. */
  function InitTicks(id: TimerId, p: Plan): U32
  {
    match id
    case MinChannel => p.minTicks
    case MaxChannel => p.maxTicks
    case ChannelSwitch => CHANNEL_SWITCH_TIMER_TICKS
    case Quiet => QUIET_TIMER_TICKS
    case QuietBss => QUIET_BSS_TIMER_TICKS
    case JoinFail => p.joinTicks
    case AssocFail => p.assocTicks
    case ReassocFail => p.reassocTicks
    case AddtsRsp => p.addtsTicks
    case AuthFail => p.authTicks
    case HeartBeat => p.beaconTicks
    case ProbeAfterHb => p.probeTicks
    case BackgroundScan => p.backgroundScanTicks
    case DisassocThreshold => p.hashMissTicks
    case Keepalive => p.keepaliveTicks
    case OlbcCache => p.olbcTicks
    case FtPreauthRsp => p.fixedTicks
    case RemainOnChannel => p.fixedTicks
    case _ => 0
  }

  const CNF_STAGE: nat := 15
  const ALLOC_STAGE: nat := 16
  const END_STAGE: nat := 20

  /** The position of a timer's creation step in limCreateTimers. */
  function Stage(id: TimerId): nat
  {
    match id
    case MinChannel => 0
    case MaxChannel => 1
    case ChannelSwitch => 2
    case Quiet => 3
    case QuietBss => 4
    case JoinFail => 5
    case AssocFail => 6
    case ReassocFail => 7
    case AddtsRsp => 8
    case AuthFail => 9
    case HeartBeat => 10
    case ProbeAfterHb => 11
    case BackgroundScan => 12
    case DisassocThreshold => 13
    case Keepalive => 14
    case CnfWait => CNF_STAGE
    case OlbcCache => 17
    case FtPreauthRsp => 18
    case RemainOnChannel => 19
    case _ => END_STAGE + 1
  }

  /** The timer whose creation is step k, if any. */
  function StageTimer(k: nat): Option<TimerId>
  {
    if k == 0 then Some(MinChannel)
    else if k == 1 then Some(MaxChannel)
    else if k == 2 then Some(ChannelSwitch)
    else if k == 3 then Some(Quiet)
    else if k == 4 then Some(QuietBss)
    else if k == 5 then Some(JoinFail)
    else if k == 6 then Some(AssocFail)
    else if k == 7 then Some(ReassocFail)
    else if k == 8 then Some(AddtsRsp)
    else if k == 9 then Some(AuthFail)
    else if k == 10 then Some(HeartBeat)
    else if k == 11 then Some(ProbeAfterHb)
    else if k == 12 then Some(BackgroundScan)
    else if k == 13 then Some(DisassocThreshold)
    else if k == 14 then Some(Keepalive)
    else if k == CNF_STAGE then Some(CnfWait)
    else if k == 17 then Some(OlbcCache)
    else if k == 18 then Some(FtPreauthRsp)
    else if k == 19 then Some(RemainOnChannel)
    else None
  }

  /** Whether step k fails in a way that makes limCreateTimers return. */
  predicate Aborts(k: nat, role: Role, build: Build, inputs: CreateInputs)
  {
    if k == ALLOC_STAGE then !inputs.allocOk
    else
      StageTimer(k).Some? &&
      var id := StageTimer(k).value;
      Fatal(id) && Applicable(id, role, build) && id in inputs.failing
  }

  /** The first of steps 0..k-1 that aborts, or k when none of them does. */
  function Halt(k: nat, role: Role, build: Build, inputs: CreateInputs): (h: nat)
    ensures h <= k
    ensures h < k ==> Aborts(h, role, build, inputs)
  {
    if k == 0 then 0
    else
      var h := Halt(k - 1, role, build, inputs);
      if h < k - 1 then h
      else if Aborts(k - 1, role, build, inputs) then k - 1
      else k
  }

  /** Whether limCreateTimers gets as far as step k. */
  predicate Reached(k: nat, role: Role, build: Build, inputs: CreateInputs)
  {
    Halt(k, role, build, inputs) == k
  }

  /** Whether limCreateTimers calls tx_timer_create for the singleton timer. */
  predicate Attempted(id: TimerId, role: Role, build: Build, inputs: CreateInputs)
  {
    Def(id, role).Some? && Applicable(id, role, build) && Reached(Stage(id), role, build, inputs)
  }

  /** The singleton timer after limCreateTimers. */
  function Outcome(id: TimerId, t: Timer, role: Role, build: Build, inputs: CreateInputs,
                   p: Plan): Timer
  {
    if Attempted(id, role, build, inputs) then
      var d := Def(id, role).value;
      var ticks := InitTicks(id, p);
      Created(t, d.handler, d.param, ticks, if d.periodic then ticks else 0, d.autoStart,
              id !in inputs.failing)
    else t
  }

  lemma StageTimerInverse(id: TimerId)
    ensures Stage(id) <= END_STAGE ==> StageTimer(Stage(id)) == Some(id)
    ensures Stage(id) != ALLOC_STAGE
  {
  }

  /** Getting to a step means getting to every earlier one. */
  lemma {:induction false} ReachedMonotone(j: nat, k: nat, role: Role, build: Build,
                                           inputs: CreateInputs)
    requires j <= k && Reached(k, role, build, inputs)
    ensures Reached(j, role, build, inputs)
    decreases k - j
  {
    if j < k {
      ReachedMonotone(j, k - 1, role, build, inputs);
    }
  }

  /** Once a step is missed, no later step is reached. */
  lemma NotReachedBeyond(k: nat, role: Role, build: Build, inputs: CreateInputs)
    requires !Reached(k, role, build, inputs)
    ensures forall j: nat :: j >= k ==> !Reached(j, role, build, inputs)
  {
    forall j: nat | j >= k
      ensures !Reached(j, role, build, inputs)
    {
      if Reached(j, role, build, inputs) {
        ReachedMonotone(k, j, role, build, inputs);
      }
    }
  }

  /** Once a step is missed, a given later step is not reached either. */
  lemma NotReachedLater(k: nat, j: nat, role: Role, build: Build, inputs: CreateInputs)
    requires k <= j && !Reached(k, role, build, inputs)
    ensures !Reached(j, role, build, inputs)
  {
    if Reached(j, role, build, inputs) {
      ReachedMonotone(k, j, role, build, inputs);
    }
  }

  /** Once a step is missed, no timer created at or after it is touched. */
  lemma NotAttemptedBeyond(k: nat, role: Role, build: Build, inputs: CreateInputs, p: Plan)
    requires !Reached(k, role, build, inputs)
    ensures forall id, t :: Stage(id) >= k ==>
      Outcome(id, t, role, build, inputs, p) == t
  {
    NotReachedBeyond(k, role, build, inputs);
  }

  /**
   * Creation steps lo..hi-1 have been carried out on the singleton timers:
   * each timer of those steps has its outcome, every other timer is as it
   * was.
   */
  ghost predicate StepsDone(before: map<TimerId, Timer>, after: map<TimerId, Timer>, lo: nat,
                            hi: nat, role: Role, build: Build, inputs: CreateInputs, p: Plan)
  {
    (forall id :: id in before) && (forall id :: id in after) &&
    forall id {:trigger after[id]} ::
      after[id] == (if lo <= Stage(id) < hi
                    then Outcome(id, before[id], role, build, inputs, p)
                    else before[id])
  }

  /** A single creation step, carried out on the timer it creates. */
  lemma SingleStep(before: map<TimerId, Timer>, after: map<TimerId, Timer>, id: TimerId,
                   role: Role, build: Build, inputs: CreateInputs, p: Plan)
    requires Stage(id) < END_STAGE && forall j :: j in before
    requires after == before[id := Outcome(id, before[id], role, build, inputs, p)]
    ensures StepsDone(before, after, Stage(id), Stage(id) + 1, role, build, inputs, p)
  {
    forall j | Stage(j) == Stage(id)
      ensures j == id
    {
      StageTimerInverse(j);
      StageTimerInverse(id);
    }
  }

  /** No step carried out yet. */
  lemma NoSteps(m: map<TimerId, Timer>, k: nat, role: Role, build: Build, inputs: CreateInputs,
                p: Plan)
    requires forall id :: id in m
    ensures StepsDone(m, m, k, k, role, build, inputs, p)
  {
  }

  /** A step whose timer this role or build does not have changes nothing. */
  lemma StepLeftOut(m: map<TimerId, Timer>, id: TimerId, role: Role, build: Build,
                    inputs: CreateInputs, p: Plan)
    requires Stage(id) < END_STAGE && forall j :: j in m
    requires !Applicable(id, role, build)
    ensures StepsDone(m, m, Stage(id), Stage(id) + 1, role, build, inputs, p)
  {
    forall j | Stage(j) == Stage(id)
      ensures j == id
    {
      StageTimerInverse(j);
      StageTimerInverse(id);
    }
  }

  /** Two adjacent runs of steps make one. */
  lemma StepsCompose(m0: map<TimerId, Timer>, m1: map<TimerId, Timer>, m2: map<TimerId, Timer>,
                     lo: nat, mid: nat, hi: nat, role: Role, build: Build, inputs: CreateInputs,
                     p: Plan)
    requires lo <= mid <= hi
    requires StepsDone(m0, m1, lo, mid, role, build, inputs, p)
    requires StepsDone(m1, m2, mid, hi, role, build, inputs, p)
    ensures StepsDone(m0, m2, lo, hi, role, build, inputs, p)
  {
  }

  /** Steps that are never reached change nothing. */
  lemma StepsSkipped(m: map<TimerId, Timer>, lo: nat, hi: nat, role: Role, build: Build,
                     inputs: CreateInputs, p: Plan)
    requires !Reached(lo, role, build, inputs)
    requires forall id :: id in m
    ensures StepsDone(m, m, lo, hi, role, build, inputs, p)
  {
    NotAttemptedBeyond(lo, role, build, inputs, p);
  }

  /** In the AP role the station block's steps change nothing. */
  lemma StationStepsSkippedInApRole(m: map<TimerId, Timer>, build: Build, inputs: CreateInputs,
                                    p: Plan)
    requires forall id :: id in m
    ensures StepsDone(m, m, 2, 13, ApRole, build, inputs, p)
  {
    forall id | 2 <= Stage(id) < 13
      ensures !Applicable(id, ApRole, build)
    {
      StationStages(id);
    }
  }

  /** Steps 2 to 12 are exactly the station-only timers. */
  lemma StationStages(id: TimerId)
    ensures 2 <= Stage(id) < 13 <==> id in STATION_TIMERS
  {
  }

  /** The CNF-wait and allocation steps create no singleton timer. */
  lemma TableStepsLeaveSingletons(m: map<TimerId, Timer>, role: Role, build: Build,
                                  inputs: CreateInputs, p: Plan)
    requires forall id :: id in m
    ensures StepsDone(m, m, CNF_STAGE, ALLOC_STAGE + 1, role, build, inputs, p)
  {
    forall id | CNF_STAGE <= Stage(id) <= ALLOC_STAGE
      ensures id == CnfWait
    {
      StageTimerInverse(id);
    }
  }

  /**
   * Once the steps up to k are done and step k is not reached, or every
   * step is done, each singleton timer has its outcome.
   */
  lemma CreationFinished(m0: map<TimerId, Timer>, m1: map<TimerId, Timer>, k: nat, role: Role,
                         build: Build, inputs: CreateInputs, p: Plan)
    requires k <= END_STAGE
    requires k == END_STAGE || !Reached(k, role, build, inputs)
    requires StepsDone(m0, m1, 0, k, role, build, inputs, p)
    ensures forall id :: m1[id] == Outcome(id, m0[id], role, build, inputs, p)
  {
    if k < END_STAGE {
      StepsSkipped(m1, k, END_STAGE, role, build, inputs, p);
      StepsCompose(m0, m1, m1, 0, k, END_STAGE, role, build, inputs, p);
    }
  }

  /** In the AP role the station block is skipped and cannot abort. */
  lemma {:induction false} ApRoleSkipsStationBlock(k: nat, build: Build, inputs: CreateInputs)
    requires 2 <= k <= 13 && Reached(2, ApRole, build, inputs)
    ensures Reached(k, ApRole, build, inputs)
  {
    if k > 2 {
      ApRoleSkipsStationBlock(k - 1, build, inputs);
    }
  }

  /**
   * limCreateTimers runs to the end (and sets gLimTimersCreated) exactly
   * when the pre-auth table is allocated and no timer whose creation failure
   * is fatal, among those this role and build create, is refused.
   */
  lemma {:induction false} CompletesIff(role: Role, build: Build, inputs: CreateInputs)
    ensures Reached(END_STAGE, role, build, inputs) <==>
      inputs.allocOk &&
      forall id :: Fatal(id) && Applicable(id, role, build) ==> id !in inputs.failing
  {
    if Reached(END_STAGE, role, build, inputs) {
      ReachedMonotone(ALLOC_STAGE + 1, END_STAGE, role, build, inputs);
      forall id | Fatal(id) && Applicable(id, role, build)
        ensures id !in inputs.failing
      {
        StageTimerInverse(id);
        ReachedMonotone(Stage(id) + 1, END_STAGE, role, build, inputs);
      }
    } else {
      var k := FirstAbort(END_STAGE, role, build, inputs);
      if k != ALLOC_STAGE {
        var id := StageTimer(k).value;
        assert Fatal(id) && Applicable(id, role, build) && id in inputs.failing;
      }
    }
  }

  /** A step that aborts, below k, when step k is not reached. */
  lemma {:induction false} FirstAbort(k: nat, role: Role, build: Build, inputs: CreateInputs)
    returns (j: nat)
    requires !Reached(k, role, build, inputs)
    ensures j < k && Aborts(j, role, build, inputs)
  {
    if Reached(k - 1, role, build, inputs) {
      j := k - 1;
    } else {
      j := FirstAbort(k - 1, role, build, inputs);
    }
  }

  /**
   * When every key is in the store, the chain carries no stale value: each
   * timer's ticks are its own configured value converted once, and the
   * garbage cfgValue starts with does not matter.
   */
  lemma PlanFromConfigAlone(cfg: Config, u1: U32, u2: U32, tickMs: nat, hashMissMs: U32)
    requires tickMs > 0
    requires forall key: CfgKey :: key in cfg
    ensures PlanOf(cfg, u1, tickMs, hashMissMs) == PlanOf(cfg, u2, tickMs, hashMissMs)
    ensures var p := PlanOf(cfg, u1, tickMs, hashMissMs);
      p.joinTicks == MsToTicks(cfg[CfgJoinFailureTimeout], tickMs) &&
      p.cnfTicks == MsToTicks(cfg[CfgWtCnfTimeout], tickMs) &&
      p.numPreAuth == cfg[CfgMaxNumPreAuth]
  {
  }

  /**
   * A failed read keeps the previous step's value, which is already in
   * ticks, and converts it again.
   */
  lemma FailedReadReconvertsPrevious(cfg: Config, uninit: U32, tickMs: nat, hashMissMs: U32)
    requires tickMs > 0
    ensures var p := PlanOf(cfg, uninit, tickMs, hashMissMs);
      (CfgActiveMaximumChannelTime !in cfg ==> p.maxTicks == MsToTicks(p.minTicks, tickMs)) &&
      (CfgWtCnfTimeout !in cfg ==> p.cnfTicks == MsToTicks(p.keepaliveTicks, tickMs)) &&
      (CfgMaxNumPreAuth !in cfg ==> p.numPreAuth == p.cnfTicks)
  {
  }

  /**
   * Creation and later reconfiguration agree: with the keys present, the
   * ticks limCreateTimers gives the failure, probe, keepalive and
   * background-scan timers are the ones limDeactivateAndChangeTimer sets.
   */
  lemma CreationAgreesWithReconfiguration(id: TimerId, cfg: Config, uninit: U32, tickMs: nat,
                                          hashMissMs: U32, env: ProtocolState, role: Role,
                                          build: Build)
    requires tickMs > 0
    requires id in {JoinFail, AssocFail, ReassocFail, AuthFail, ProbeAfterHb, Keepalive,
                    BackgroundScan}
    requires forall key: CfgKey :: key in cfg
    ensures Resolve(id, cfg, env, role, build, tickMs) ==
      var ticks := InitTicks(id, PlanOf(cfg, uninit, tickMs, hashMissMs));
      var d := Def(id, role).value;
      DeactivateAndChange(ticks, if d.periodic then ticks else 0)
  {
  }

  /**
   * The heartbeat timer is the exception: it is created with the beacon
   * interval alone, and only reconfiguration multiplies by the threshold.
   */
  lemma HeartBeatCreationUsesBeaconIntervalOnly(cfg: Config, uninit: U32, tickMs: nat,
                                                hashMissMs: U32, env: ProtocolState, role: Role,
                                                build: Build)
    requires tickMs > 0 && CfgBeaconInterval in cfg && CfgHeartBeatThreshold in cfg
    ensures InitTicks(HeartBeat, PlanOf(cfg, uninit, tickMs, hashMissMs)) ==
      MsToTicks(cfg[CfgBeaconInterval], tickMs)
    ensures Resolve(HeartBeat, cfg, env, role, build, tickMs) ==
      DeactivateAndChange(HeartBeatTicks(cfg[CfgBeaconInterval], cfg[CfgHeartBeatThreshold], tickMs), 0)
  {
  }

  /** With a 100 ms beacon interval and a threshold of 3: 100 ticks at creation, 300 after. */
  lemma HeartBeatCreationExample(cfg: Config, uninit: U32, hashMissMs: U32, env: ProtocolState,
                                 role: Role, build: Build)
    requires cfg == map[CfgBeaconInterval := 100, CfgHeartBeatThreshold := 3]
    ensures InitTicks(HeartBeat, PlanOf(cfg, uninit, 1, hashMissMs)) == 100
    ensures Resolve(HeartBeat, cfg, env, role, build, 1) == DeactivateAndChange(300, 0)
  {
    HeartBeatCreationUsesBeaconIntervalOnly(cfg, uninit, 1, hashMissMs, env, role, build);
  }
}
