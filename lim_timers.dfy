/*
 * The LIM timer layer as the state it updates in place: the singleton
 * timers, the per-station CNF-wait table, the pre-auth nodes' timers, the
 * flags and counter the reconfiguration touches, and the LIM message queue
 * the expiry callbacks post to.
 */
module LimTimers {
  import opened LimTypes
  import opened TimerSubstrate
  import opened DurationResolver
  import opened TimerRegistry
  import opened TimerCreation

  /** The status limActivateHearBeatTimer returns. */
  datatype TxStatus = TxSuccess | TxTimerError | TxActivateError

  /**
   * limReactivateHeartBeatTimer's effect on the heartbeat timer: disarm,
   * change to the new duration, and arm only when the resulting initial
   * time is nonzero.
   */
  function ReactivatedHeartBeat(t: Timer, ticks: U32, deactivateOk: bool, changeOk: bool,
                                activateOk: bool): Timer
  {
    var changed := Changed(Deactivated(t, deactivateOk), ticks, 0, changeOk);
    if changed.initTicks > 0 then Activated(changed, activateOk) else changed
  }

  /**
   * A zero beacon interval or threshold leaves the heartbeat timer idle:
   * the change to 0 ticks is applied and the arm step is skipped.
   */
  lemma HeartBeatZeroFactorLeavesIdle(t: Timer, beaconIntervalMs: U32, threshold: U32, tickMs: nat,
                                      activateOk: bool)
    requires tickMs > 0 && t.created
    requires beaconIntervalMs == 0 || threshold == 0
    ensures var after := ReactivatedHeartBeat(t, HeartBeatTicks(beaconIntervalMs, threshold, tickMs),
                                              true, true, activateOk);
      !after.active && after.initTicks == 0
  {
  }

  /** Beacon interval 100 ms and threshold 3 arm the timer for 300 ms worth of ticks. */
  lemma HeartBeatArmedForProduct(t: Timer, tickMs: nat)
    requires 0 < tickMs <= 300 && t.created
    ensures var after := ReactivatedHeartBeat(t, HeartBeatTicks(100, 3, tickMs), true, true, true);
      after.active && after.initTicks == MsToTicks(300, tickMs) && after.reloadTicks == 0
  {
    assert MsToTicks(300, tickMs) * tickMs > 300 - tickMs;
  }

  /**
   * Reactivating twice in a row leaves the timer with the second call's
   * duration, armed when that duration is nonzero and the substrate
   * accepts the calls.
   */
  lemma ReactivateTwiceSecondWins(t: Timer, first: U32, second: U32,
                                  d1: bool, c1: bool, a1: bool)
    requires t.created
    ensures var after := ReactivatedHeartBeat(ReactivatedHeartBeat(t, first, d1, c1, a1),
                                              second, true, true, true);
      after.initTicks == second && after.reloadTicks == 0 && (after.active <==> second > 0)
  {
  }

  class Lim {
    /** SYS_TICK_DUR_MS */
    const tickMs: nat
    /** LIM_HASH_MISS_TIMER_MS */
    const hashMissMs: U32
    /** The features compiled in. */
    const build: Build
    /** gLimSystemRole */
    var role: Role
    /** pMac->lim.limTimers: every singleton timer, by identifier. */
    var timers: map<TimerId, Timer>
    /** gpLimCnfWaitTimer, maxStation slots. */
    const cnfWait: array<Timer>
    /** The timers of the pre-auth nodes limGetPreAuthNodeFromIndex resolves. */
    var preAuthTable: map<nat, Timer>
    /** gLimPreAuthTimerTable.numEntry */
    var preAuthNumEntry: U32
    /** gLimBackgroundScanDisable */
    var backgroundScanDisable: bool
    /** sch.keepAlive */
    var keepAlive: bool
    /** gLimAddtsRspTimerCount */
    var addtsRspTimerCount: nat
    /** gLimTimersCreated */
    var timersCreated: bool
    /** The LIM message queue, as limPostMsgApi appends to it. */
    var msgQ: seq<Msg>

    ghost predicate Valid()
      reads this
    {
      tickMs > 0 && (forall id :: id in timers) && cnfWait.Length < U32_LIMIT
    }

    constructor (tickMs: nat, hashMissMs: U32, build: Build, role: Role, maxStation: nat)
      requires tickMs > 0 && maxStation < U32_LIMIT
      ensures Valid()
      ensures this.tickMs == tickMs && this.hashMissMs == hashMissMs && this.build == build
      ensures this.role == role
      ensures forall id :: timers[id] == Unset
      ensures fresh(cnfWait) && cnfWait.Length == maxStation
      ensures forall i :: 0 <= i < maxStation ==> cnfWait[i] == Unset
      ensures preAuthTable == map[] && preAuthNumEntry == 0
      ensures !backgroundScanDisable && !keepAlive && addtsRspTimerCount == 0
      ensures !timersCreated && msgQ == []
    {
      this.tickMs := tickMs;
      this.hashMissMs := hashMissMs;
      this.build := build;
      this.role := role;
      timers := map id | id in AllTimerIds :: Unset;
      cnfWait := new Timer[maxStation](_ => Unset);
      preAuthTable := map[];
      preAuthNumEntry := 0;
      backgroundScanDisable := false;
      keepAlive := false;
      addtsRspTimerCount := 0;
      timersCreated := false;
      msgQ := [];
      new;
      forall id: TimerId
        ensures id in timers
      {
        AllTimerIdsListed(id);
      }
    }

    // ---- the substrate calls on singleton timers ----

    /** tx_timer_create; `ok` is the substrate's verdict, which is also returned. */
    method TxTimerCreate(id: TimerId, handler: Handler, param: Word, initTicks: U32,
                         reloadTicks: U32, autoActivate: bool, ok: bool) returns (success: bool)
      requires Valid()
      modifies this`timers
      ensures Valid() && success == ok
      ensures timers == old(timers)[id := Created(old(timers)[id], handler, param, initTicks,
                                                  reloadTicks, autoActivate, ok)]
    {
      timers := timers[id := Created(timers[id], handler, param, initTicks, reloadTicks,
                                     autoActivate, ok)];
      success := ok;
    }

    /** tx_timer_deactivate; success means TX_SUCCESS. */
    method TxTimerDeactivate(id: TimerId, ok: bool) returns (success: bool)
      requires Valid()
      modifies this`timers
      ensures Valid() && success == Accepted(old(timers)[id], ok)
      ensures timers == old(timers)[id := Deactivated(old(timers)[id], ok)]
    {
      success := Accepted(timers[id], ok);
      timers := timers[id := Deactivated(timers[id], ok)];
    }

    /** tx_timer_change */
    method TxTimerChange(id: TimerId, initTicks: U32, reloadTicks: U32, ok: bool)
      returns (success: bool)
      requires Valid()
      modifies this`timers
      ensures Valid() && success == Accepted(old(timers)[id], ok)
      ensures timers == old(timers)[id := Changed(old(timers)[id], initTicks, reloadTicks, ok)]
    {
      success := Accepted(timers[id], ok);
      timers := timers[id := Changed(timers[id], initTicks, reloadTicks, ok)];
    }

    /** tx_timer_activate */
    method TxTimerActivate(id: TimerId, ok: bool) returns (success: bool)
      requires Valid()
      modifies this`timers
      ensures Valid() && success == Accepted(old(timers)[id], ok)
      ensures timers == old(timers)[id := Activated(old(timers)[id], ok)]
    {
      success := Accepted(timers[id], ok);
      timers := timers[id := Activated(timers[id], ok)];
    }

    // ---- limCreateTimers ----

    /**
     * limCreateTimers: creates the timers of the role and build, each with
     * its catalogue callback and input and the tick value of the cfgValue
     * chain, arms the auto-start ones, fills the CNF-wait table, records the
     * pre-auth table size and the two feature flags, and marks the timers
     * created when it runs to the end.
     */
    method CreateTimers(inputs: CreateInputs)
      requires Valid()
      modifies this`timers, cnfWait, this`backgroundScanDisable, this`keepAlive,
               this`preAuthNumEntry, this`timersCreated
      ensures Valid()
      ensures var p := PlanOf(inputs.cfg, inputs.uninit, tickMs, hashMissMs);
        forall id :: timers[id] == Outcome(id, old(timers)[id], role, build, inputs, p)
      ensures var p := PlanOf(inputs.cfg, inputs.uninit, tickMs, hashMissMs);
        forall i ::
          0 <= i < cnfWait.Length ==>
                                 cnfWait[i] == (if Reached(CNF_STAGE, role, build, inputs)
                                                then Created(old(cnfWait[i]), CnfWaitTimerHandler,
                                                             Num(i), p.cnfTicks, 0, false,
                                                             i !in inputs.cnfFailing)
                                                else old(cnfWait[i]))
      ensures backgroundScanDisable ==
        if role != ApRole && Reached(Stage(BackgroundScan), role, build, inputs)
        then PlanOf(inputs.cfg, inputs.uninit, tickMs, hashMissMs).backgroundScanRaw == 0
        else old(backgroundScanDisable)
      ensures keepAlive ==
        if Reached(Stage(Keepalive), role, build, inputs)
        then PlanOf(inputs.cfg, inputs.uninit, tickMs, hashMissMs).keepaliveRaw != 0
        else old(keepAlive)
      ensures preAuthNumEntry ==
        if Reached(ALLOC_STAGE, role, build, inputs)
        then PlanOf(inputs.cfg, inputs.uninit, tickMs, hashMissMs).numPreAuth
        else old(preAuthNumEntry)
      ensures timersCreated == (old(timersCreated) || Reached(END_STAGE, role, build, inputs))
    {
      ghost var before := timers;
      ghost var p := PlanOf(inputs.cfg, inputs.uninit, tickMs, hashMissMs);
      PlanIsTheChain(p, inputs.cfg, inputs.uninit, tickMs, hashMissMs);
      NoSteps(before, 0, role, build, inputs, p);
      var cont, cfgValue := CreateScanTimers(inputs, p, before);
      ghost var done := 2;
      if cont {
        cont := CreateStationTimers(inputs, cfgValue, p, before);
        done := 13;
      } else {
        NotReachedLater(2, Stage(BackgroundScan), role, build, inputs);
      }
      if cont {
        cont := CreateLateTimers(inputs, p, before);
        done := END_STAGE;
      } else {
        NotReachedLater(done, Stage(Keepalive), role, build, inputs);
        NotReachedLater(done, CNF_STAGE, role, build, inputs);
        NotReachedLater(done, ALLOC_STAGE, role, build, inputs);
        NotReachedLater(done, END_STAGE, role, build, inputs);
      }
      CreationFinished(before, timers, done, role, build, inputs, p);
      if cont {
        timersCreated := true;
      }
    }

    /**
     * One creation step of limCreateTimers: tx_timer_create with the
     * timer's catalogue entry and the tick value of the cfgValue chain.
     * `cont` is the substrate's verdict; limCreateTimers goes on to the
     * next step unless the creation failed and that failure is fatal.
     * Given that steps 0..k-1 have been carried out on the timers, steps
     * 0..k have afterwards.
     */
    method CreateStep(id: TimerId, d: TimerDef, initTicks: U32, reloadTicks: U32,
                      inputs: CreateInputs, ghost p: Plan, ghost before: map<TimerId, Timer>,
                      ghost k: nat)
      returns (cont: bool)
      requires k == Stage(id) && Valid()
      requires Reached(k, role, build, inputs) && Applicable(id, role, build)
      requires Def(id, role) == Some(d) && initTicks == InitTicks(id, p)
      requires reloadTicks == (if d.periodic then initTicks else 0)
      requires StepsDone(before, timers, 0, k, role, build, inputs, p)
      modifies this`timers
      ensures Valid() && cont == (id !in inputs.failing)
      ensures Reached(k + 1, role, build, inputs) <==> cont || !Fatal(id)
      ensures StepsDone(before, timers, 0, k + 1, role, build, inputs, p)
    {
      StageTimerInverse(id);
      ghost var m := timers;
      cont := TxTimerCreate(id, d.handler, d.param, initTicks, reloadTicks, d.autoStart,
                            id !in inputs.failing);
      SingleStep(m, timers, id, role, build, inputs, p);
      StepsCompose(before, m, timers, 0, k, k + 1, role, build, inputs, p);
    }

    /** A step whose timer this role or build does not create: nothing happens. */
    lemma SkipStep(id: TimerId, p: Plan, before: map<TimerId, Timer>, k: nat, inputs: CreateInputs)
      requires k == Stage(id) && k < END_STAGE && Valid() && !Applicable(id, role, build)
      requires Reached(k, role, build, inputs)
      requires StepsDone(before, timers, 0, k, role, build, inputs, p)
      ensures Reached(k + 1, role, build, inputs)
      ensures StepsDone(before, timers, 0, k + 1, role, build, inputs, p)
    {
      StageTimerInverse(id);
      StepLeftOut(timers, id, role, build, inputs, p);
      StepsCompose(before, timers, timers, 0, k, k + 1, role, build, inputs, p);
    }

    /**
     * A creation that returns early: steps 0..k-1 are done and step k is
     * not reached, so steps 0..hi-1 are done and hi is not reached either.
     */
    lemma Abandon(p: Plan, before: map<TimerId, Timer>, k: nat, hi: nat, inputs: CreateInputs)
      requires Valid() && k <= hi && !Reached(k, role, build, inputs)
      requires StepsDone(before, timers, 0, k, role, build, inputs, p)
      ensures StepsDone(before, timers, 0, hi, role, build, inputs, p)
      ensures !Reached(hi, role, build, inputs)
    {
      StepsSkipped(timers, k, hi, role, build, inputs, p);
      StepsCompose(before, timers, timers, 0, k, hi, role, build, inputs, p);
      NotReachedBeyond(k, role, build, inputs);
    }

    /** The min and max channel timers; a refused creation ends limCreateTimers. */
    method CreateScanTimers(inputs: CreateInputs, ghost p: Plan, ghost before: map<TimerId, Timer>)
      returns (cont: bool, cfgValue: U32)
      requires Valid()
      requires ScanChain(p, inputs.cfg, inputs.uninit, tickMs)
      requires StepsDone(before, timers, 0, 0, role, build, inputs, p)
      modifies this`timers
      ensures Valid()
      ensures cont == Reached(2, role, build, inputs) && cfgValue == p.maxTicks
      ensures StepsDone(before, timers, 0, 2, role, build, inputs, p)
    {
      cfgValue := MsToTicks(CfgRead(inputs.cfg, CfgActiveMinimumChannelTime, inputs.uninit), tickMs);
      cont := CreateStep(MinChannel, TimerDef(TimerHandler, Code(MinChannelTimeout), false, false),
                         cfgValue, 0, inputs, p, before, 0);
      cfgValue := MsToTicks(CfgRead(inputs.cfg, CfgActiveMaximumChannelTime, cfgValue), tickMs);
      if !cont {
        Abandon(p, before, 1, 2, inputs);
        return;
      }
      cont := CreateStep(MaxChannel, TimerDef(TimerHandler, Code(MaxChannelTimeout), false, false),
                         cfgValue, 0, inputs, p, before, 1);
    }

    /**
     * The station block of limCreateTimers (skipped in the AP role): the
     * channel-switch and quiet timers, the association timers and the
     * link-monitoring timers.
     */
    method CreateStationTimers(inputs: CreateInputs, maxTicks: U32, ghost p: Plan,
                               ghost before: map<TimerId, Timer>)
      returns (cont: bool)
      requires Valid()
      requires AssociationChain(p, inputs.cfg, tickMs) &&
               LinkMonitorChain(p, inputs.cfg, tickMs)
      requires Reached(2, role, build, inputs) && maxTicks == p.maxTicks
      requires StepsDone(before, timers, 0, 2, role, build, inputs, p)
      modifies this`timers, this`backgroundScanDisable
      ensures Valid()
      ensures cont == Reached(13, role, build, inputs)
      ensures StepsDone(before, timers, 0, 13, role, build, inputs, p)
      ensures backgroundScanDisable ==
        if role != ApRole && Reached(Stage(BackgroundScan), role, build, inputs)
        then p.backgroundScanRaw == 0
        else old(backgroundScanDisable)
    {
      if role == ApRole {
        ApRoleSkipsStationBlock(13, build, inputs);
        StationStepsSkippedInApRole(timers, build, inputs, p);
        StepsCompose(before, timers, timers, 0, 2, 13, role, build, inputs, p);
        return true;
      }
      cont := CreateSwitchAndQuietTimers(inputs, p, before);
      if !cont {
        Abandon(p, before, 5, 13, inputs);
        return;
      }
      var cfgValue;
      cont, cfgValue := CreateAssociationTimers(inputs, maxTicks, p, before);
      if !cont {
        Abandon(p, before, 10, 13, inputs);
        return;
      }
      CreateLinkMonitorTimers(inputs, cfgValue, p, before);
    }

    /** The channel-switch, quiet and quiet-BSS timers (fixed tick values). */
    method CreateSwitchAndQuietTimers(inputs: CreateInputs, ghost p: Plan,
                                      ghost before: map<TimerId, Timer>)
      returns (cont: bool)
      requires Valid()
      requires role != ApRole && Reached(2, role, build, inputs)
      requires StepsDone(before, timers, 0, 2, role, build, inputs, p)
      modifies this`timers
      ensures Valid()
      ensures cont == Reached(5, role, build, inputs)
      ensures StepsDone(before, timers, 0, 5, role, build, inputs, p)
    {
      cont := CreateStep(ChannelSwitch, TimerDef(ChannelSwitchTimerHandler, Num(0), false, false),
                         CHANNEL_SWITCH_TIMER_TICKS, 0, inputs, p, before, 2);
      if !cont {
        Abandon(p, before, 3, 5, inputs);
        return;
      }
      cont := CreateStep(Quiet, TimerDef(QuietTimerHandler, Code(QuietTimeout), false, false),
                         QUIET_TIMER_TICKS, 0, inputs, p, before, 3);
      if !cont {
        Abandon(p, before, 4, 5, inputs);
        return;
      }
      cont := CreateStep(QuietBss, TimerDef(QuietBssTimerHandler, Code(QuietBssTimeout), false, false),
                         QUIET_BSS_TIMER_TICKS, 0, inputs, p, before, 4);
    }

    /** The join, association, reassociation, ADDTS and authentication timers. */
    method CreateAssociationTimers(inputs: CreateInputs, maxTicks: U32, ghost p: Plan,
                                   ghost before: map<TimerId, Timer>)
      returns (cont: bool, cfgValue: U32)
      requires Valid()
      requires AssociationChain(p, inputs.cfg, tickMs)
      requires role != ApRole && Reached(5, role, build, inputs) && maxTicks == p.maxTicks
      requires StepsDone(before, timers, 0, 5, role, build, inputs, p)
      modifies this`timers
      ensures Valid()
      ensures cont == Reached(10, role, build, inputs)
      ensures cont ==> cfgValue == p.authTicks
      ensures StepsDone(before, timers, 0, 10, role, build, inputs, p)
    {
      var cfg := inputs.cfg;
      cfgValue := MsToTicks(CfgRead(cfg, CfgJoinFailureTimeout, maxTicks), tickMs);
      cont := CreateStep(JoinFail, TimerDef(TimerHandler, Code(JoinFailTimeout), false, false),
                         cfgValue, 0, inputs, p, before, 5);
      cfgValue := MsToTicks(CfgRead(cfg, CfgAssociationFailureTimeout, cfgValue), tickMs);
      if !cont {
        Abandon(p, before, 6, 10, inputs);
        return;
      }
      cont := CreateStep(AssocFail, TimerDef(AssocFailureTimerHandler, LimAssoc, false, false),
                         cfgValue, 0, inputs, p, before, 6);
      cfgValue := MsToTicks(CfgRead(cfg, CfgReassociationFailureTimeout, cfgValue), tickMs);
      if !cont {
        Abandon(p, before, 7, 10, inputs);
        return;
      }
      cont := CreateStep(ReassocFail, TimerDef(AssocFailureTimerHandler, LimReassoc, false, false),
                         cfgValue, 0, inputs, p, before, 7);
      cfgValue := MsToTicks(CfgRead(cfg, CfgAddtsRspTimeout, cfgValue), tickMs);
      if !cont {
        Abandon(p, before, 8, 10, inputs);
        return;
      }
      cont := CreateStep(AddtsRsp,
                         TimerDef(AddtsResponseTimerHandler, Code(AddtsRspTimeout), false, false),
                         cfgValue, 0, inputs, p, before, 8);
      cfgValue := MsToTicks(CfgRead(cfg, CfgAuthenticateFailureTimeout, cfgValue), tickMs);
      if !cont {
        Abandon(p, before, 9, 10, inputs);
        return;
      }
      cont := CreateStep(AuthFail, TimerDef(TimerHandler, Code(AuthFailTimeout), false, false),
                         cfgValue, 0, inputs, p, before, 9);
    }

    /**
     * The heartbeat, probe-after-heartbeat and background-scan timers; their
     * creation failures are only logged. A background-scan period of 0 sets
     * gLimBackgroundScanDisable and the default period is used.
     */
    method CreateLinkMonitorTimers(inputs: CreateInputs, authTicks: U32, ghost p: Plan,
                                   ghost before: map<TimerId, Timer>)
      requires Valid()
      requires LinkMonitorChain(p, inputs.cfg, tickMs)
      requires role != ApRole && Reached(10, role, build, inputs) && authTicks == p.authTicks
      requires StepsDone(before, timers, 0, 10, role, build, inputs, p)
      modifies this`timers, this`backgroundScanDisable
      ensures Valid()
      ensures Reached(13, role, build, inputs)
      ensures backgroundScanDisable == (p.backgroundScanRaw == 0)
      ensures StepsDone(before, timers, 0, 13, role, build, inputs, p)
    {
      var cfg := inputs.cfg;
      var cfgValue := MsToTicks(CfgRead(cfg, CfgBeaconInterval, authTicks), tickMs);
      var created := CreateStep(HeartBeat,
                                TimerDef(TimerHandler, Code(HeartBeatTimeout), false, false),
                                cfgValue, 0, inputs, p, before, 10);
      cfgValue := MsToTicks(CfgRead(cfg, CfgProbeAfterHbFailTimeout, cfgValue), tickMs);
      created := CreateStep(ProbeAfterHb,
                            TimerDef(TimerHandler, Code(ProbeHbFailureTimeout), false, false),
                            cfgValue, 0, inputs, p, before, 11);
      cfgValue := CfgRead(cfg, CfgBackgroundScanPeriod, cfgValue);
      if cfgValue == 0 {
        cfgValue := BACKGROUND_SCAN_PERIOD_DEFAULT_MS;
        backgroundScanDisable := true;
      } else {
        backgroundScanDisable := false;
      }
      cfgValue := MsToTicks(cfgValue, tickMs);
      created := CreateStep(BackgroundScan,
                            TimerDef(TimerHandler, Code(ChannelScanTimeout), true, false),
                            cfgValue, cfgValue, inputs, p, before, 12);
    }

    /**
     * The rest of limCreateTimers, which every role runs: the housekeeping
     * timers, the CNF-wait table, the pre-auth table size and allocation,
     * and the feature timers.
     */
    method CreateLateTimers(inputs: CreateInputs, ghost p: Plan, ghost before: map<TimerId, Timer>)
      returns (cont: bool)
      requires Valid()
      requires HousekeepingChain(p, inputs.cfg, tickMs, hashMissMs) &&
               TableChain(p, inputs.cfg, tickMs) &&
               FeatureChain(p, inputs.cfg, tickMs)
      requires Reached(13, role, build, inputs)
      requires StepsDone(before, timers, 0, 13, role, build, inputs, p)
      modifies this`timers, cnfWait, this`keepAlive, this`preAuthNumEntry
      ensures Valid()
      ensures cont == Reached(END_STAGE, role, build, inputs)
      ensures StepsDone(before, timers, 0, END_STAGE, role, build, inputs, p)
      ensures forall i ::
          0 <= i < cnfWait.Length ==>
                                 cnfWait[i] == Created(old(cnfWait[i]), CnfWaitTimerHandler, Num(i),
                                                       p.cnfTicks, 0, false, i !in inputs.cnfFailing)
      ensures Reached(Stage(Keepalive), role, build, inputs) && Reached(CNF_STAGE, role, build, inputs)
      ensures Reached(ALLOC_STAGE, role, build, inputs)
      ensures keepAlive == (p.keepaliveRaw != 0) && preAuthNumEntry == p.numPreAuth
    {
      var cfgValue := CreateHousekeepingTimers(inputs, p, before);
      assert Reached(CNF_STAGE, role, build, inputs);

      cfgValue := MsToTicks(CfgRead(inputs.cfg, CfgWtCnfTimeout, cfgValue), tickMs);
      CreateCnfTimers(cfgValue, inputs.cnfFailing);

      cfgValue := CfgRead(inputs.cfg, CfgMaxNumPreAuth, cfgValue);
      assert Reached(ALLOC_STAGE, role, build, inputs);
      preAuthNumEntry := cfgValue;
      TableStepsLeaveSingletons(timers, role, build, inputs, p);
      StepsCompose(before, timers, timers, 0, CNF_STAGE, ALLOC_STAGE + 1, role, build, inputs, p);
      if !inputs.allocOk {
        Abandon(p, before, ALLOC_STAGE + 1, END_STAGE, inputs);
        return false;
      }
      cont := CreateFeatureTimers(inputs, cfgValue, p, before);
    }

    /**
     * The disassociation throttle (periodic, armed at once) and the
     * keepalive timer (periodic, rounded up to whole ticks, armed at once in
     * the AP role); a keepalive timeout of 0 clears sch.keepAlive.
     */
    method CreateHousekeepingTimers(inputs: CreateInputs, ghost p: Plan,
                                    ghost before: map<TimerId, Timer>)
      returns (cfgValue: U32)
      requires Valid()
      requires HousekeepingChain(p, inputs.cfg, tickMs, hashMissMs)
      requires Reached(13, role, build, inputs)
      requires StepsDone(before, timers, 0, 13, role, build, inputs, p)
      modifies this`timers, this`keepAlive
      ensures Valid()
      ensures cfgValue == p.keepaliveTicks && keepAlive == (p.keepaliveRaw != 0)
      ensures Reached(14, role, build, inputs) && Reached(15, role, build, inputs)
      ensures StepsDone(before, timers, 0, 15, role, build, inputs, p)
    {
      cfgValue := MsToTicks(hashMissMs, tickMs);
      var created := CreateStep(DisassocThreshold,
                                TimerDef(SendDisassocFrameThresholdHandler,
                                         Code(HashMissThresTimeout), true, true),
                                cfgValue, cfgValue, inputs, p, before, 13);
      cfgValue := CfgRead(inputs.cfg, CfgKeepaliveTimeout, cfgValue);
      if cfgValue == 0 {
        cfgValue := KEEPALIVE_TIMER_MS;
        keepAlive := false;
      } else {
        keepAlive := true;
      }
      cfgValue := MsToTicks(Wrap32(cfgValue + tickMs - 1), tickMs);
      created := CreateStep(Keepalive, TimerDef(KeepaliveTimerHandler, Num(0), true, role == ApRole),
                            cfgValue, cfgValue, inputs, p, before, 14);
    }

    /** One CNF-wait timer per station slot, each reporting its own index. */
    method CreateCnfTimers(cfgValue: U32, cnfFailing: set<nat>)
      requires Valid()
      modifies cnfWait
      ensures forall i :: 0 <= i < cnfWait.Length ==>
        cnfWait[i] == Created(old(cnfWait[i]), CnfWaitTimerHandler, Num(i), cfgValue, 0, false,
                              i !in cnfFailing)
    {
      var i := 0;
      while i < cnfWait.Length
        invariant 0 <= i <= cnfWait.Length
        invariant forall k :: 0 <= k < i ==>
          cnfWait[k] == Created(old(cnfWait[k]), CnfWaitTimerHandler, Num(k), cfgValue, 0, false,
                                k !in cnfFailing)
        invariant forall k :: i <= k < cnfWait.Length ==> cnfWait[k] == old(cnfWait[k])
      {
        cnfWait[i] := Created(cnfWait[i], CnfWaitTimerHandler, Num(i), cfgValue, 0, false,
                              i !in cnfFailing);
        i := i + 1;
      }
    }

    /**
     * The OLBC cache timer, in soft-AP builds only: periodic, armed at once,
     * its failure only logged.
     */
    method CreateOlbcTimer(inputs: CreateInputs, numPreAuth: U32, ghost p: Plan,
                           ghost before: map<TimerId, Timer>)
      returns (cfgValue: U32)
      requires Valid()
      requires FeatureChain(p, inputs.cfg, tickMs)
      requires Reached(17, role, build, inputs) && numPreAuth == p.numPreAuth
      requires StepsDone(before, timers, 0, 17, role, build, inputs, p)
      modifies this`timers
      ensures Valid()
      ensures Reached(18, role, build, inputs)
      ensures StepsDone(before, timers, 0, 18, role, build, inputs, p)
    {
      cfgValue := numPreAuth;
      if build.softAp {
        cfgValue := MsToTicks(CfgRead(inputs.cfg, CfgOlbcDetectTimeout, cfgValue), tickMs);
        var created := CreateStep(OlbcCache,
                                  TimerDef(UpdateOlbcCacheTimerHandler,
                                           Code(UpdateOlbcCacheTimeout), true, true),
                                  cfgValue, cfgValue, inputs, p, before, 17);
      } else {
        SkipStep(OlbcCache, p, before, 17, inputs);
      }
    }

    /**
     * The FT pre-auth response timer, in fast-transition builds only; a
     * refused creation ends limCreateTimers.
     */
    method CreateFtPreauthTimer(inputs: CreateInputs, ghost p: Plan,
                                ghost before: map<TimerId, Timer>)
      returns (cont: bool)
      requires Valid()
      requires FeatureChain(p, inputs.cfg, tickMs)
      requires Reached(18, role, build, inputs)
      requires StepsDone(before, timers, 0, 18, role, build, inputs, p)
      modifies this`timers
      ensures Valid()
      ensures cont == Reached(19, role, build, inputs)
      ensures StepsDone(before, timers, 0, 19, role, build, inputs, p)
    {
      if build.fastTransition {
        cont := CreateStep(FtPreauthRsp,
                           TimerDef(TimerHandler, Code(FtPreauthRspTimeout), false, false),
                           MsToTicks(FIXED_RESPONSE_MS, tickMs), 0, inputs, p, before, 18);
      } else {
        SkipStep(FtPreauthRsp, p, before, 18, inputs);
        cont := true;
      }
    }

    /** The OLBC cache timer (soft AP), then the FT pre-auth and remain-on-channel timers. */
    method CreateFeatureTimers(inputs: CreateInputs, numPreAuth: U32, ghost p: Plan,
                               ghost before: map<TimerId, Timer>)
      returns (cont: bool)
      requires Valid()
      requires FeatureChain(p, inputs.cfg, tickMs)
      requires Reached(17, role, build, inputs) && numPreAuth == p.numPreAuth
      requires StepsDone(before, timers, 0, 17, role, build, inputs, p)
      modifies this`timers
      ensures Valid()
      ensures cont == Reached(END_STAGE, role, build, inputs)
      ensures StepsDone(before, timers, 0, END_STAGE, role, build, inputs, p)
    {
      var cfgValue := CreateOlbcTimer(inputs, numPreAuth, p, before);
      cont := CreateFtPreauthTimer(inputs, p, before);
      if !cont {
        Abandon(p, before, 19, END_STAGE, inputs);
        return;
      }
      if build.p2p {
        cfgValue := MsToTicks(FIXED_RESPONSE_MS, tickMs);
        cont := CreateStep(RemainOnChannel,
                           TimerDef(TimerHandler, Code(RemainChnTimeout), false, false),
                           cfgValue, 0, inputs, p, before, 19);
      } else {
        SkipStep(RemainOnChannel, p, before, 19, inputs);
        cont := true;
      }
    }

    // ---- limDeactivateAndChangeTimer ----

    /**
     * limDeactivateAndChangeTimer: applies the reconfiguration policy for
     * the timer to that timer alone; the ADDTS case also counts the call,
     * and the background-scan and keepalive cases set their feature flags
     * from the configured value. A failed read leaves the value at 0.
     */
    method DeactivateAndChangeTimer(timerId: TimerId, cfg: Config, env: ProtocolState,
                                    deactivateOk: bool, changeOk: bool)
      requires Valid()
      modifies this`timers, this`backgroundScanDisable, this`keepAlive, this`addtsRspTimerCount
      ensures Valid()
      ensures timers == old(timers)[timerId := Reconfigured(old(timers)[timerId],
        Resolve(timerId, cfg, env, role, build, tickMs), deactivateOk, changeOk)]
      ensures addtsRspTimerCount ==
        old(addtsRspTimerCount) + (if timerId == AddtsRsp then 1 else 0)
      ensures backgroundScanDisable ==
        if timerId == BackgroundScan then CfgRead(cfg, CfgBackgroundScanPeriod, 0) == 0
        else old(backgroundScanDisable)
      ensures keepAlive ==
        if timerId == Keepalive then CfgRead(cfg, CfgKeepaliveTimeout, 0) != 0 else old(keepAlive)
    {
      match timerId {
        case AddtsRsp =>
          addtsRspTimerCount := addtsRspTimerCount + 1;
          var ok := TxTimerDeactivate(AddtsRsp, deactivateOk);
        case MinChannel | MaxChannel =>
          ReconfigureChannelTimer(timerId, env, deactivateOk, changeOk);
        case JoinFail | AuthFail | AssocFail | ReassocFail | ProbeAfterHb =>
          ReconfigureFailureTimer(timerId, cfg, env, deactivateOk, changeOk);
        case Keepalive | BackgroundScan =>
          ReconfigurePeriodicTimer(timerId, cfg, env, deactivateOk, changeOk);
        case HeartBeat | ChannelSwitch | QuietBss | Quiet | FtPreauthRsp | RemainOnChannel =>
          ReconfigureProtocolTimer(timerId, cfg, env, deactivateOk, changeOk);
        case _ =>
      }
    }

    /**
     * The scan-channel cases: a quiet period that allows background scans
     * gives its duration, otherwise the pending scan request's channel time
     * is converted; with neither the timer is left disarmed. In the AP role
     * the max-channel timer keeps the value 0.
     */
    method ReconfigureChannelTimer(timerId: TimerId, env: ProtocolState, deactivateOk: bool,
                                   changeOk: bool)
      requires Valid() && timerId in {MinChannel, MaxChannel}
      modifies this`timers
      ensures Valid()
      ensures timers == old(timers)[timerId := Reconfigured(old(timers)[timerId],
        Resolve(timerId, map[], env, role, build, tickMs), deactivateOk, changeOk)]
    {
      var val: U32 := 0;
      var ok := TxTimerDeactivate(timerId, deactivateOk);
      if timerId == MinChannel || role != ApRole {
        if env.quietRunning && env.triggerBackgroundScanDuringQuietBss {
          val := env.quietDuration;
        } else if env.scanReq.Some? {
          val := MsToTicks(if timerId == MinChannel then env.scanReq.value.minChannelTime
                           else env.scanReq.value.maxChannelTime, tickMs);
        } else {
          return;
        }
      }
      ok := TxTimerChange(timerId, val, 0, changeOk);
    }

    /**
     * The failure and probe timers: their configured timeout converted to
     * ticks, 0 when the read fails; a refused disarm does not stop the
     * change.
     */
    method ReconfigureFailureTimer(timerId: TimerId, cfg: Config, env: ProtocolState,
                                   deactivateOk: bool, changeOk: bool)
      requires Valid() && timerId in {JoinFail, AuthFail, AssocFail, ReassocFail, ProbeAfterHb}
      modifies this`timers
      ensures Valid()
      ensures timers == old(timers)[timerId := Reconfigured(old(timers)[timerId],
        Resolve(timerId, cfg, env, role, build, tickMs), deactivateOk, changeOk)]
    {
      var ok := TxTimerDeactivate(timerId, deactivateOk);
      var key := match timerId
        case JoinFail => CfgJoinFailureTimeout
        case AuthFail => CfgAuthenticateFailureTimeout
        case AssocFail => CfgAssociationFailureTimeout
        case ReassocFail => CfgReassociationFailureTimeout
        case _ => CfgProbeAfterHbFailTimeout;
      var val := MsToTicks(CfgRead(cfg, key, 0), tickMs);
      ok := TxTimerChange(timerId, val, 0, changeOk);
    }

    /**
     * The keepalive and background-scan timers: periodic, and a configured
     * 0 selects the default period and clears (keepalive) or sets
     * (background scan) the feature flag.
     */
    method ReconfigurePeriodicTimer(timerId: TimerId, cfg: Config, env: ProtocolState,
                                    deactivateOk: bool, changeOk: bool)
      requires Valid() && timerId in {Keepalive, BackgroundScan}
      modifies this`timers, this`backgroundScanDisable, this`keepAlive
      ensures Valid()
      ensures timers == old(timers)[timerId := Reconfigured(old(timers)[timerId],
        Resolve(timerId, cfg, env, role, build, tickMs), deactivateOk, changeOk)]
      ensures backgroundScanDisable ==
        if timerId == BackgroundScan then CfgRead(cfg, CfgBackgroundScanPeriod, 0) == 0
        else old(backgroundScanDisable)
      ensures keepAlive ==
        if timerId == Keepalive then CfgRead(cfg, CfgKeepaliveTimeout, 0) != 0 else old(keepAlive)
    {
      var ok := TxTimerDeactivate(timerId, deactivateOk);
      var val: U32;
      if timerId == Keepalive {
        val := CfgRead(cfg, CfgKeepaliveTimeout, 0);
        if val == 0 {
          val := 3000;
          keepAlive := false;
        } else {
          keepAlive := true;
        }
        val := MsToTicks(Wrap32(val + tickMs - 1), tickMs);
      } else {
        val := CfgRead(cfg, CfgBackgroundScanPeriod, 0);
        if val == 0 {
          val := BACKGROUND_SCAN_PERIOD_DEFAULT_MS;
          backgroundScanDisable := true;
        } else {
          backgroundScanDisable := false;
        }
        val := MsToTicks(val, tickMs);
      }
      ok := TxTimerChange(timerId, val, val, changeOk);
    }

    /**
     * The heartbeat, channel-switch, quiet and feature timers. The
     * heartbeat takes the beacon interval times the threshold; the channel
     * switch is changed only after an accepted disarm; the feature timers
     * exist only in builds with the feature.
     */
    method ReconfigureProtocolTimer(timerId: TimerId, cfg: Config, env: ProtocolState,
                                    deactivateOk: bool, changeOk: bool)
      requires Valid()
      requires timerId in {HeartBeat, ChannelSwitch, QuietBss, Quiet, FtPreauthRsp, RemainOnChannel}
      modifies this`timers
      ensures Valid()
      ensures timers == old(timers)[timerId := Reconfigured(old(timers)[timerId],
        Resolve(timerId, cfg, env, role, build, tickMs), deactivateOk, changeOk)]
    {
      var ok: bool;
      match timerId {
        case HeartBeat =>
          ok := TxTimerDeactivate(HeartBeat, deactivateOk);
          var val: U32 := CfgRead(cfg, CfgBeaconInterval, 0);
          var val1: U32 := CfgRead(cfg, CfgHeartBeatThreshold, 0);
          val := MsToTicks(Wrap32(val * val1), tickMs);
          ok := TxTimerChange(HeartBeat, val, 0, changeOk);
        case ChannelSwitch =>
          ok := TxTimerDeactivate(ChannelSwitch, deactivateOk);
          if !ok {
            return;
          }
          ok := TxTimerChange(ChannelSwitch, env.switchTimeoutValue, 0, changeOk);
        case QuietBss =>
          ok := TxTimerDeactivate(QuietBss, deactivateOk);
          ok := TxTimerChange(QuietBss, env.quietDuration, 0, changeOk);
        case Quiet =>
          ok := TxTimerDeactivate(Quiet, deactivateOk);
          ok := TxTimerChange(Quiet, MsToTicks(env.quietTimeoutValue, tickMs), 0, changeOk);
        case FtPreauthRsp =>
          if build.fastTransition {
            ok := TxTimerDeactivate(FtPreauthRsp, deactivateOk);
            ok := TxTimerChange(FtPreauthRsp, MsToTicks(FIXED_RESPONSE_MS, tickMs), 0, changeOk);
          }
        case RemainOnChannel =>
          if build.p2p {
            ok := TxTimerDeactivate(RemainOnChannel, deactivateOk);
            ok := TxTimerChange(RemainOnChannel, MsToTicks(FIXED_RESPONSE_MS, tickMs), 0, changeOk);
          }
      }
    }

    // ---- the heartbeat timer ----

    /**
     * limHeartBeatDeactivateAndChangeTimer: the heartbeat timer takes the
     * session's beacon interval times the configured threshold, converted
     * once to ticks; a failed threshold read leaves `uninit`.
     */
    method HeartBeatDeactivateAndChangeTimer(session: Session, cfg: Config, uninit: U32,
                                             deactivateOk: bool, changeOk: bool)
      requires Valid()
      modifies this`timers
      ensures Valid()
      ensures timers == old(timers)[HeartBeat := Changed(Deactivated(old(timers)[HeartBeat],
        deactivateOk), HeartBeatTicks(session.beaconInterval, CfgRead(cfg, CfgHeartBeatThreshold,
        uninit), tickMs), 0, changeOk)]
    {
      var ok := TxTimerDeactivate(HeartBeat, deactivateOk);
      var val: U32 := session.beaconInterval;
      var val1 := CfgRead(cfg, CfgHeartBeatThreshold, uninit);
      val := MsToTicks(Wrap32(val * val1), tickMs);
      ok := TxTimerChange(HeartBeat, val, 0, changeOk);
    }

    /**
     * limReactivateHeartBeatTimer: reconfigures the heartbeat timer and arms
     * it only if its initial time is then nonzero; `hbCountReset` reports
     * whether limResetHBPktCount is called.
     */
    method ReactivateHeartBeatTimer(session: Session, cfg: Config, uninit: U32,
                                    deactivateOk: bool, changeOk: bool, activateOk: bool)
      returns (hbCountReset: bool)
      requires Valid()
      modifies this`timers
      ensures Valid()
      ensures var ticks := HeartBeatTicks(session.beaconInterval,
                                          CfgRead(cfg, CfgHeartBeatThreshold, uninit), tickMs);
        timers == old(timers)[HeartBeat := ReactivatedHeartBeat(old(timers)[HeartBeat], ticks,
                                                                deactivateOk, changeOk, activateOk)]
      ensures hbCountReset == (timers[HeartBeat].initTicks > 0)
    {
      HeartBeatDeactivateAndChangeTimer(session, cfg, uninit, deactivateOk, changeOk);
      hbCountReset := false;
      if timers[HeartBeat].initTicks > 0 {
        var ok := TxTimerActivate(HeartBeat, activateOk);
        hbCountReset := true;
      }
    }

    /**
     * limActivateHearBeatTimer: an invalid timer is an error; a zero
     * interval is success without arming; otherwise the activation's status.
     */
    method ActivateHeartBeatTimer(activateOk: bool) returns (status: TxStatus)
      requires Valid()
      modifies this`timers
      ensures Valid()
      ensures var t := old(timers)[HeartBeat];
        status == (if !t.created then TxTimerError
                   else if t.initTicks == 0 || activateOk then TxSuccess
                   else TxActivateError)
      ensures var t := old(timers)[HeartBeat];
        timers == old(timers)[HeartBeat := if t.created && t.initTicks != 0
                                           then Activated(t, activateOk) else t]
    {
      status := TxTimerError;
      if timers[HeartBeat].created {
        if timers[HeartBeat].initTicks != 0 {
          var ok := TxTimerActivate(HeartBeat, activateOk);
          status := if ok then TxSuccess else TxActivateError;
        } else {
          status := TxSuccess;
        }
      }
    }

    // ---- per-station timers ----

    /**
     * limDeactivateAndChangePerStaIdTimer: a CNF-wait slot gets the
     * converted WT_CNF timeout as both initial and reload time; an
     * auth-response timer is reconfigured only when the index resolves to a
     * pre-auth node; any other identifier changes nothing. A failed read
     * leaves `uninit`.
     */
    method DeactivateAndChangePerStaIdTimer(timerId: TimerId, staId: U16, cfg: Config,
                                            uninit: U32, deactivateOk: bool, changeOk: bool)
      requires Valid()
      requires timerId == CnfWait ==> staId < cnfWait.Length
      modifies cnfWait, this`preAuthTable
      ensures Valid()
      ensures var v := MsToTicks(CfgRead(cfg, CfgWtCnfTimeout, uninit), tickMs);
        cnfWait[..] ==
          if timerId == CnfWait
          then old(cnfWait[..])[staId := Changed(Deactivated(old(cnfWait[staId]), deactivateOk),
                                                 v, v, changeOk)]
          else old(cnfWait[..])
      ensures var v := MsToTicks(CfgRead(cfg, CfgAuthenticateRspTimeout, uninit), tickMs);
        preAuthTable ==
          if timerId == AuthRsp && staId as nat in old(preAuthTable)
          then old(preAuthTable)[staId as nat := Changed(Deactivated(old(preAuthTable)[staId as nat],
                                                                     deactivateOk), v, 0, changeOk)]
          else old(preAuthTable)
    {
      var val: U32;
      match timerId {
        case CnfWait =>
          cnfWait[staId] := Deactivated(cnfWait[staId], deactivateOk);
          val := MsToTicks(CfgRead(cfg, CfgWtCnfTimeout, uninit), tickMs);
          cnfWait[staId] := Changed(cnfWait[staId], val, val, changeOk);
        case AuthRsp =>
          if staId as nat !in preAuthTable {
            return;
          }
          var node := staId as nat;
          preAuthTable := preAuthTable[node := Deactivated(preAuthTable[node], deactivateOk)];
          val := MsToTicks(CfgRead(cfg, CfgAuthenticateRspTimeout, uninit), tickMs);
          preAuthTable := preAuthTable[node := Changed(preAuthTable[node], val, 0, changeOk)];
        case _ =>
      }
    }

    /** limActivateCnfTimer: records the session on the slot, then arms it. */
    method ActivateCnfTimer(staId: U16, session: Session, activateOk: bool)
      requires Valid() && staId < cnfWait.Length
      modifies cnfWait
      ensures Valid()
      ensures cnfWait[..] == old(cnfWait[..])[staId :=
        Activated(old(cnfWait[staId]).(sessionId := session.peSessionId), activateOk)]
    {
      cnfWait[staId] := cnfWait[staId].(sessionId := session.peSessionId);
      cnfWait[staId] := Activated(cnfWait[staId], activateOk);
    }

    /** limActivateAuthRspTimer: arms the pre-auth node's timer. */
    method ActivateAuthRspTimer(node: nat, activateOk: bool)
      requires Valid() && node in preAuthTable
      modifies this`preAuthTable
      ensures Valid()
      ensures preAuthTable == old(preAuthTable)[node := Activated(old(preAuthTable)[node], activateOk)]
    {
      preAuthTable := preAuthTable[node := Activated(preAuthTable[node], activateOk)];
    }

    // ---- expiry callbacks: each posts one message and touches nothing else ----

    /** limTimerHandler: the input, cast to 16 bits, is the message type. */
    method TimerExpired(param: Word)
      modifies this`msgQ
      ensures msgQ == old(msgQ) + [Msg(Truncate16(param), Num(0))]
    {
      msgQ := msgQ + [Msg(Truncate16(param), Num(0))];
    }

    /** limAddtsResponseTimerHandler */
    method AddtsResponseExpired(param: Word)
      modifies this`msgQ
      ensures msgQ == old(msgQ) + [Msg(Code(AddtsRspTimeout), param)]
    {
      msgQ := msgQ + [Msg(Code(AddtsRspTimeout), param)];
    }

    /** limAuthResponseTimerHandler */
    method AuthResponseExpired(param: Word)
      modifies this`msgQ
      ensures msgQ == old(msgQ) + [Msg(Code(AuthRspTimeout), param)]
    {
      msgQ := msgQ + [Msg(Code(AuthRspTimeout), param)];
    }

    /** limAssocFailureTimerHandler: the input says association or reassociation. */
    method AssocFailureExpired(param: Word)
      modifies this`msgQ
      ensures msgQ == old(msgQ) + [Msg(Code(AssocFailTimeout), param)]
    {
      msgQ := msgQ + [Msg(Code(AssocFailTimeout), param)];
    }

    /** limUpdateOlbcCacheTimerHandler */
    method UpdateOlbcCacheExpired(param: Word)
      modifies this`msgQ
      ensures msgQ == old(msgQ) + [Msg(Code(UpdateOlbcCacheTimeout), Num(0))]
    {
      msgQ := msgQ + [Msg(Code(UpdateOlbcCacheTimeout), Num(0))];
    }

    /** limSendDisassocFrameThresholdHandler */
    method SendDisassocFrameThresholdExpired(param: Word)
      modifies this`msgQ
      ensures msgQ == old(msgQ) + [Msg(Code(HashMissThresTimeout), Num(0))]
    {
      msgQ := msgQ + [Msg(Code(HashMissThresTimeout), Num(0))];
    }

    /** limCnfWaitTmerHandler: the input is the station index. */
    method CnfWaitExpired(param: Word)
      modifies this`msgQ
      ensures msgQ == old(msgQ) + [Msg(Code(CnfWaitTimeout), param)]
    {
      msgQ := msgQ + [Msg(Code(CnfWaitTimeout), param)];
    }

    /** limKeepaliveTmerHandler */
    method KeepaliveExpired(param: Word)
      modifies this`msgQ
      ensures msgQ == old(msgQ) + [Msg(Code(KeepaliveTimeout), param)]
    {
      msgQ := msgQ + [Msg(Code(KeepaliveTimeout), param)];
    }

    /** limChannelSwitchTimerHandler */
    method ChannelSwitchExpired(param: Word)
      modifies this`msgQ
      ensures msgQ == old(msgQ) + [Msg(Code(ChannelSwitchTimeout), param)]
    {
      msgQ := msgQ + [Msg(Code(ChannelSwitchTimeout), param)];
    }

    /** limQuietTimerHandler */
    method QuietExpired(param: Word)
      modifies this`msgQ
      ensures msgQ == old(msgQ) + [Msg(Code(QuietTimeout), param)]
    {
      msgQ := msgQ + [Msg(Code(QuietTimeout), param)];
    }

    /** limQuietBssTimerHandler */
    method QuietBssExpired(param: Word)
      modifies this`msgQ
      ensures msgQ == old(msgQ) + [Msg(Code(QuietBssTimeout), param)]
    {
      msgQ := msgQ + [Msg(Code(QuietBssTimeout), param)];
    }

    /**
     * The substrate firing a timer: it calls the registered callback with
     * the registered input, which posts the catalogue's expiry message.
     */
    method Fire(t: Timer)
      modifies this`msgQ
      ensures msgQ == old(msgQ) +
        (if Expiry(t.handler, t.param).Some? then [Expiry(t.handler, t.param).value] else [])
    {
      match t.handler {
        case NoCallback =>
        case TimerHandler => TimerExpired(t.param);
        case AddtsResponseTimerHandler => AddtsResponseExpired(t.param);
        case AuthResponseTimerHandler => AuthResponseExpired(t.param);
        case AssocFailureTimerHandler => AssocFailureExpired(t.param);
        case UpdateOlbcCacheTimerHandler => UpdateOlbcCacheExpired(t.param);
        case SendDisassocFrameThresholdHandler => SendDisassocFrameThresholdExpired(t.param);
        case CnfWaitTimerHandler => CnfWaitExpired(t.param);
        case KeepaliveTimerHandler => KeepaliveExpired(t.param);
        case ChannelSwitchTimerHandler => ChannelSwitchExpired(t.param);
        case QuietTimerHandler => QuietExpired(t.param);
        case QuietBssTimerHandler => QuietBssExpired(t.param);
      }
    }
  }
}
