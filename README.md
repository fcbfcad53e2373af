# LIM timers and the QDSS clock reference count

This project models two pieces of a WLAN/SoC kernel tree in Dafny and proves properties of them.

**The LIM timer layer** (`limTimerUtils.c` of the Prima WLAN driver) is the code that the link-management engine uses to create, reconfigure and arm its protocol timers, and whose expiry callbacks post messages to the LIM queue.
- `limCreateTimers` creates every timer the role and the build call for. Each timer gets its callback, its expiration input and a duration read from the configuration store and converted to scheduler ticks.
- `limDeactivateAndChangeTimer`, `limHeartBeatDeactivateAndChangeTimer` and `limDeactivateAndChangePerStaIdTimer` disarm a timer and give it new durations.
- `limReactivateHeartBeatTimer`, `limActivateHearBeatTimer`, `limActivateCnfTimer` and `limActivateAuthRspTimer` arm timers.
- The `*Handler` callbacks each post one message.

The layer's state is a class, `LimTimers.Lim`:
- the singleton timers form a total `map<TimerId, Timer>`;
- the CNF-wait timers form an `array<Timer>` with one slot per station;
- the pre-auth nodes' timers form a `map<nat, Timer>`;
- the flags and the counter that the source sets are fields;
- the message queue is a `seq<Msg>` that the callbacks append to.

The scheduling substrate (`tx_timer_create`, `_deactivate`, `_change`, `_activate`) is modelled as state updates of one timer record (module `TimerSubstrate`), and each call's success is an input. Each method is proved against specification functions:
- `DurationResolver.Resolve` gives the reconfiguration policy for each timer;
- `TimerRegistry.Def` is the catalogue of how each timer is created;
- `TimerCreation.Outcome` gives each timer's state after `limCreateTimers`. It is built on `PlanOf` (the chain of configuration reads that `cfgValue` carries through creation) and on `Reached` (how far creation gets before a fatal failure).

The build is the client product: `ANI_PRODUCT_TYPE_CLIENT` is defined; `ANI_PRODUCT_TYPE_AP`, `ANI_AP_SDK_OPT` and RTAI are not. The soft-AP, 802.11r (fast transition) and P2P features are the flags of a `Build` value.

**The QDSS clock reference count** (`qdss.c` of the MSM platform code) covers `qdss_clk_enable` and `qdss_clk_disable` over the `clk_count` and `max_clk` fields.
- The clocks are voted on through the RPM only on the 0→1 and 1→0 transitions.
- The "on" level depends on `max_clk`.
- A disable at 0 is refused.
- The count is an 8-bit field and wraps.

The RPM call is modelled as a logged request whose status is an input. The model also tracks the level the RPM holds, which changes only when a request is accepted. The context is the class `Qdss.QdssCtx`, whose methods are proved against the pure functions `Qdss.Enable` and `Qdss.Disable`. Sequences of calls are the function `Qdss.Run`.

Three behaviours of the code break a general rule that a caller of the layer would expect. The model follows the code as written:
- **Creation is not best-effort.** Most failed creations in `limCreateTimers` are logged and creation goes on. A failure of the scan, channel-switch, quiet, association, ADDTS, authentication, FT or P2P timer (`TimerRegistry.Fatal`) instead returns at once, e.g. `limTimerUtils.c:99-101` and `:152-154`. The remaining timers are then never created and `gLimTimersCreated` stays unset. Failures of the link-monitoring, housekeeping, CNF-wait and OLBC timers are only logged.
- **A refused disarm can stop a reconfiguration.** Every other case of `limDeactivateAndChangeTimer` logs a refused disarm and goes on to the change, e.g. the join case at `limTimerUtils.c:984-1020`. The channel-switch case returns instead (`limTimerUtils.c:1356-1360`).
- **Station indices are not checked.** Neither `limDeactivateAndChangePerStaIdTimer` (`limTimerUtils.c:1779`, `:1801`) nor `limActivateCnfTimer` (`:1919-1920`) compares `staId` with `maxStation` before indexing `gpLimCnfWaitTimer`. The model therefore requires the index to be in range.

## Model

Paths are relative to the repository root. `limTimerUtils.c` is `drivers/staging/prima/CORE/MAC/src/pe/lim/limTimerUtils.c`.

| member | source | states |
|---|---|---|
| LimTypes.MsToTicksBounds | drivers/staging/prima/CORE/MAC/src/pe/lim/limTimerUtils.c:88 | SYS_MS_TO_TICKS truncates: the ticks cover the milliseconds to less than one tick |
| DurationResolver.KeepaliveRoundsUp | drivers/staging/prima/CORE/MAC/src/pe/lim/limTimerUtils.c:478 | adding one tick less one ms before converting rounds the keepalive period up, so a nonzero period is never 0 ticks |
| DurationResolver.HeartBeatTicksBounds | drivers/staging/prima/CORE/MAC/src/pe/lim/limTimerUtils.c:1133-1150 | the heartbeat duration is beacon interval × threshold truncated to ticks; a zero factor gives 0; the duration is nonzero iff the 32-bit product reaches one tick |
| DurationResolver.HeartBeatExample | drivers/staging/prima/CORE/MAC/src/pe/lim/limTimerUtils.c:1133-1150 | 100 ms × 3 gives 300 ms worth of ticks (30 at 10 ms per tick) |
| DurationResolver.AttemptAnyway | drivers/staging/prima/CORE/MAC/src/pe/lim/limTimerUtils.c:984-1284 | for the failure, heartbeat, probe, keepalive, background-scan and quiet timers, a refused disarm still leads to the change, and the timer ends with the resolved durations |
| DurationResolver.ChannelSwitchStopsOnRefusedDisarm | drivers/staging/prima/CORE/MAC/src/pe/lim/limTimerUtils.c:1355-1369 | a refused disarm leaves the channel-switch timer untouched; an accepted one sets the switch timeout, unconverted, as a one-shot |
| DurationResolver.QuietPeriodOverridesScan | drivers/staging/prima/CORE/MAC/src/pe/lim/limTimerUtils.c:871-955 | during a quiet period with background scan enabled, both channel timers take the quiet duration (the max timer only outside the AP role) |
| DurationResolver.ScanRequestSetsChannelTimes | drivers/staging/prima/CORE/MAC/src/pe/lim/limTimerUtils.c:871-955 | otherwise the pending scan request's min/max channel times are converted to ticks |
| DurationResolver.NoScanRequestSkipsChange | drivers/staging/prima/CORE/MAC/src/pe/lim/limTimerUtils.c:871-955 | with neither, the channel timers are only disarmed and keep their schedule |
| DurationResolver.BackgroundScanDefaultPeriod | drivers/staging/prima/CORE/MAC/src/pe/lim/limTimerUtils.c:1243-1284 | a period of 0, configured or left by a failed read, gives 5000 ms; otherwise the configured value; initial equals reload |
| DurationResolver.KeepaliveDefaultPeriod | drivers/staging/prima/CORE/MAC/src/pe/lim/limTimerUtils.c:1198-1241 | a 0, configured or left by a failed read, gives 3000 ms; the period is rounded up to ticks; initial equals reload |
| DurationResolver.AddtsOnlyDisarms | drivers/staging/prima/CORE/MAC/src/pe/lim/limTimerUtils.c:860-869 | the ADDTS case only disarms the timer |
| DurationResolver.NoCaseNoAction | drivers/staging/prima/CORE/MAC/src/pe/lim/limTimerUtils.c:1543-1547 | identifiers without a case in this build leave the timer alone |
| DurationResolver.ReconfigureInPlace | drivers/staging/prima/CORE/MAC/src/pe/lim/limTimerUtils.c:852-1548 | a reconfiguration never creates, re-targets or arms a timer; the callback, input and session are kept |
| DurationResolver.SecondReconfigurationWins | drivers/staging/prima/CORE/MAC/src/pe/lim/limTimerUtils.c:852-1548 | after two reconfigurations, an accepted second change leaves exactly the second call's durations |
| TimerRegistry.ExpiryPostsReasonCode | drivers/staging/prima/CORE/MAC/src/pe/lim/limTimerUtils.c:659-826 | every singleton timer, created with its catalogue callback and input, posts exactly one message of its own reason code on expiry |
| TimerRegistry.AssocReassocDistinguished | drivers/staging/prima/CORE/MAC/src/pe/lim/limTimerUtils.c:236-270 | association and reassociation failure share a callback and a message type, and differ in the body (LIM_ASSOC vs LIM_REASSOC) |
| TimerRegistry.CnfExpiryCarriesIndex | drivers/staging/prima/CORE/MAC/src/pe/lim/limTimerUtils.c:2015-2029 | a CNF-wait expiry reports its station index, so different slots post different messages |
| TimerRegistry.AutoStartedTimers | drivers/staging/prima/CORE/MAC/src/pe/lim/limTimerUtils.c:73-628 | exactly the disassociation throttle, the OLBC cache timer and (AP role) the keepalive timer are armed at creation |
| TimerRegistry.PeriodicTimers | drivers/staging/prima/CORE/MAC/src/pe/lim/limTimerUtils.c:73-628 | exactly the background-scan, throttle, keepalive and OLBC timers are periodic |
| TimerRegistry.ApRoleCreatesNoStationTimer | drivers/staging/prima/CORE/MAC/src/pe/lim/limTimerUtils.c:142-427 | in the AP role no station-only timer is created |
| TimerCreation.PlanIsTheChain | drivers/staging/prima/CORE/MAC/src/pe/lim/limTimerUtils.c:79-612 | the creation plan is the one set of tick values in which each read falls back to the previous value of `cfgValue` |
| TimerCreation.PlanFromConfigAlone | drivers/staging/prima/CORE/MAC/src/pe/lim/limTimerUtils.c:79-545 | with every key present, the initial garbage in `cfgValue` does not matter; the join and CNF ticks are their own keys converted once, and the pre-auth size is its key |
| TimerCreation.FailedReadReconvertsPrevious | drivers/staging/prima/CORE/MAC/src/pe/lim/limTimerUtils.c:110-545 | a failed read keeps the previous value, which is already in ticks, and converts it again |
| TimerCreation.CreationAgreesWithReconfiguration | drivers/staging/prima/CORE/MAC/src/pe/lim/limTimerUtils.c:193-419 | with the keys present, creation and later reconfiguration give the failure, probe, keepalive and background-scan timers the same durations |
| TimerCreation.HeartBeatCreationUsesBeaconIntervalOnly | drivers/staging/prima/CORE/MAC/src/pe/lim/limTimerUtils.c:326-350 | for every configuration holding both keys and every tick length, the heartbeat timer is created with the beacon interval alone converted to ticks, while reconfiguration uses beacon interval × threshold |
| TimerCreation.HeartBeatCreationExample | drivers/staging/prima/CORE/MAC/src/pe/lim/limTimerUtils.c:326-350 | with 100 ms and threshold 3 at 1 ms per tick: 100 ticks at creation, 300 after reconfiguration |
| TimerCreation.CompletesIff | drivers/staging/prima/CORE/MAC/src/pe/lim/limTimerUtils.c:73-628 | creation runs to the end iff the pre-auth table is allocated and no fatal timer that the role and build create is refused |
| TimerCreation.ApRoleSkipsStationBlock | drivers/staging/prima/CORE/MAC/src/pe/lim/limTimerUtils.c:142-427 | in the AP role the station block cannot abort creation |
| LimTimers.HeartBeatZeroFactorLeavesIdle | drivers/staging/prima/CORE/MAC/src/pe/lim/limTimerUtils.c:1597-1613 | a zero beacon interval or threshold leaves the reactivated heartbeat timer disarmed at 0 ticks |
| LimTimers.HeartBeatArmedForProduct | drivers/staging/prima/CORE/MAC/src/pe/lim/limTimerUtils.c:1597-1613 | 100 ms × 3 arms the heartbeat timer one-shot for 300 ms worth of ticks |
| LimTimers.ReactivateTwiceSecondWins | drivers/staging/prima/CORE/MAC/src/pe/lim/limTimerUtils.c:1597-1613 | reactivating twice leaves the second duration, armed iff it is nonzero |
| LimTimers.Lim.CreateTimers | drivers/staging/prima/CORE/MAC/src/pe/lim/limTimerUtils.c:73-628 | every singleton timer ends as `Outcome` says; CNF slots, the pre-auth size and the two flags are set iff creation got that far; `gLimTimersCreated` is set iff it ran to the end |
| LimTimers.Lim.CreateStep | drivers/staging/prima/CORE/MAC/src/pe/lim/limTimerUtils.c:91-101 | one creation carries out its step, and creation goes on iff it succeeded or its failure is not fatal |
| LimTimers.Lim.CreateScanTimers | drivers/staging/prima/CORE/MAC/src/pe/lim/limTimerUtils.c:79-132 | the min/max channel steps; it goes on iff both succeed, carrying the max-channel ticks |
| LimTimers.Lim.CreateStationTimers | drivers/staging/prima/CORE/MAC/src/pe/lim/limTimerUtils.c:142-427 | the station block, skipped in the AP role; the background-scan flag is set iff the block reaches that timer |
| LimTimers.Lim.CreateSwitchAndQuietTimers | drivers/staging/prima/CORE/MAC/src/pe/lim/limTimerUtils.c:143-190 | channel-switch, quiet and quiet-BSS steps, with fixed tick values |
| LimTimers.Lim.CreateAssociationTimers | drivers/staging/prima/CORE/MAC/src/pe/lim/limTimerUtils.c:193-320 | join, association, reassociation, ADDTS and authentication steps, each failure fatal, carrying the auth ticks on |
| LimTimers.Lim.CreateLinkMonitorTimers | drivers/staging/prima/CORE/MAC/src/pe/lim/limTimerUtils.c:326-426 | heartbeat, probe and background-scan steps, never fatal; a period of 0 sets `gLimBackgroundScanDisable` |
| LimTimers.Lim.CreateLateTimers | drivers/staging/prima/CORE/MAC/src/pe/lim/limTimerUtils.c:430-627 | housekeeping timers, the CNF table, the pre-auth size, and the feature timers unless allocation fails |
| LimTimers.Lim.CreateHousekeepingTimers | drivers/staging/prima/CORE/MAC/src/pe/lim/limTimerUtils.c:430-495 | throttle and keepalive steps; a keepalive of 0 clears `sch.keepAlive` |
| LimTimers.Lim.CreateCnfTimers | drivers/staging/prima/CORE/MAC/src/pe/lim/limTimerUtils.c:498-529 | every CNF-wait slot is created with the WT_CNF ticks and its own index as input |
| LimTimers.Lim.CreateOlbcTimer | drivers/staging/prima/CORE/MAC/src/pe/lim/limTimerUtils.c:557-589 | the OLBC cache step in soft-AP builds, never fatal |
| LimTimers.Lim.CreateFtPreauthTimer | drivers/staging/prima/CORE/MAC/src/pe/lim/limTimerUtils.c:590-609 | the FT pre-auth step in 802.11r builds, fatal on failure |
| LimTimers.Lim.CreateFeatureTimers | drivers/staging/prima/CORE/MAC/src/pe/lim/limTimerUtils.c:557-626 | the OLBC, FT and P2P steps; creation completes iff none of the fatal ones fails |
| LimTimers.Lim.DeactivateAndChangeTimer | drivers/staging/prima/CORE/MAC/src/pe/lim/limTimerUtils.c:852-1548 | only the named timer changes, to `Reconfigured(…, Resolve(…))`; the ADDTS count, keepalive and background-scan flags change only in their own cases |
| LimTimers.Lim.ReconfigureChannelTimer | drivers/staging/prima/CORE/MAC/src/pe/lim/limTimerUtils.c:871-983 | the min/max channel cases, as `Resolve` says |
| LimTimers.Lim.ReconfigureFailureTimer | drivers/staging/prima/CORE/MAC/src/pe/lim/limTimerUtils.c:984-1197 | the join, auth, assoc, reassoc and probe cases, as `Resolve` says |
| LimTimers.Lim.ReconfigurePeriodicTimer | drivers/staging/prima/CORE/MAC/src/pe/lim/limTimerUtils.c:1198-1284 | the keepalive and background-scan cases and their flags |
| LimTimers.Lim.ReconfigureProtocolTimer | drivers/staging/prima/CORE/MAC/src/pe/lim/limTimerUtils.c:1123-1542 | the heartbeat, channel-switch, quiet, FT and P2P cases, as `Resolve` says |
| LimTimers.Lim.HeartBeatDeactivateAndChangeTimer | drivers/staging/prima/CORE/MAC/src/pe/lim/limTimerUtils.c:1562-1584 | the heartbeat timer takes the session's beacon interval × threshold; nothing else changes |
| LimTimers.Lim.ReactivateHeartBeatTimer | drivers/staging/prima/CORE/MAC/src/pe/lim/limTimerUtils.c:1597-1613 | reconfigure, then arm and reset the HB count iff the new initial time is nonzero |
| LimTimers.Lim.ActivateHeartBeatTimer | drivers/staging/prima/CORE/MAC/src/pe/lim/limTimerUtils.c:1720-1743 | an invalid timer is an error; a zero interval is success without arming; otherwise the activation's status |
| LimTimers.Lim.DeactivateAndChangePerStaIdTimer | drivers/staging/prima/CORE/MAC/src/pe/lim/limTimerUtils.c:1770-1893 | a CNF slot gets the WT_CNF ticks as both times; an auth-response timer changes only when its node resolves; nothing else changes |
| LimTimers.Lim.ActivateCnfTimer | drivers/staging/prima/CORE/MAC/src/pe/lim/limTimerUtils.c:1916-1926 | records the session on the slot, then arms it; other slots are untouched |
| LimTimers.Lim.ActivateAuthRspTimer | drivers/staging/prima/CORE/MAC/src/pe/lim/limTimerUtils.c:1948-1958 | arms the node's timer only |
| LimTimers.Lim.TimerExpired | drivers/staging/prima/CORE/MAC/src/pe/lim/limTimerUtils.c:659-675 | posts one message whose type is the input cast to 16 bits, with body 0 |
| LimTimers.Lim.AddtsResponseExpired | drivers/staging/prima/CORE/MAC/src/pe/lim/limTimerUtils.c:700-712 | posts one ADDTS-timeout message carrying the input |
| LimTimers.Lim.AuthResponseExpired | drivers/staging/prima/CORE/MAC/src/pe/lim/limTimerUtils.c:737-749 | posts one auth-response-timeout message carrying the input |
| LimTimers.Lim.AssocFailureExpired | drivers/staging/prima/CORE/MAC/src/pe/lim/limTimerUtils.c:776-788 | posts one assoc-failure message carrying its input, LIM_ASSOC or LIM_REASSOC |
| LimTimers.Lim.UpdateOlbcCacheExpired | drivers/staging/prima/CORE/MAC/src/pe/lim/limTimerUtils.c:814-826 | posts one OLBC-cache message with body 0 |
| LimTimers.Lim.SendDisassocFrameThresholdExpired | drivers/staging/prima/CORE/MAC/src/pe/lim/limTimerUtils.c:1980-1994 | posts one hash-miss-threshold message with body 0 |
| LimTimers.Lim.CnfWaitExpired | drivers/staging/prima/CORE/MAC/src/pe/lim/limTimerUtils.c:2015-2029 | posts one CNF-wait message carrying the station index |
| LimTimers.Lim.KeepaliveExpired | drivers/staging/prima/CORE/MAC/src/pe/lim/limTimerUtils.c:2050-2064 | posts one keepalive message carrying the input |
| LimTimers.Lim.ChannelSwitchExpired | drivers/staging/prima/CORE/MAC/src/pe/lim/limTimerUtils.c:2067-2080 | posts one channel-switch message carrying the input |
| LimTimers.Lim.QuietExpired | drivers/staging/prima/CORE/MAC/src/pe/lim/limTimerUtils.c:2083-2095 | posts one quiet-timeout message carrying the input |
| LimTimers.Lim.QuietBssExpired | drivers/staging/prima/CORE/MAC/src/pe/lim/limTimerUtils.c:2098-2109 | posts one quiet-BSS-timeout message carrying the input |
| LimTimers.Lim.Fire | drivers/staging/prima/CORE/MAC/src/pe/lim/limTimerUtils.c:659-2109 | when the substrate fires a timer, the queue grows by exactly the message its callback posts for its input, or by nothing if it has no callback |
| Qdss.OnLevel | arch/arm/mach-msm/qdss.c:68-71 | the on level is high-speed debug iff `max_clk` is nonzero, and never off |
| Qdss.Inc8 | arch/arm/mach-msm/qdss.c:76 | `clk_count++` on a `uint8_t` is +1 modulo 256 |
| Qdss.Enable | arch/arm/mach-msm/qdss.c:60-82 | one RPM on-request iff the count was 0; a refused request returns the RPM error with the count and level unchanged; otherwise the count goes up and 0 is returned; keeps the count and the RPM in step unless the count wraps |
| Qdss.Disable | arch/arm/mach-msm/qdss.c:94-111 | at 0 nothing changes; at 1 one off-request and the count drops to 0 whatever the RPM answers; above 1 only a decrement; keeps the count and the RPM in step when the RPM accepts |
| Qdss.EnableThenDisable | arch/arm/mach-msm/qdss.c:60-111 | a successful enable followed by a disable restores the count; the RPM sees an on and an off request iff the count started at 0 |
| Qdss.Run | arch/arm/mach-msm/qdss.c:60-111 | a sequence of calls keeps `max_clk` and only appends to the RPM request log |
| Qdss.RunKeepsRpmInSync | arch/arm/mach-msm/qdss.c:60-111 | in any order of calls, with the RPM accepting and no wrap, the clocks are on (at the `max_clk` level) iff the count is nonzero |
| Qdss.NestedEnableDisable | arch/arm/mach-msm/qdss.c:60-111 | n enables then n disables restore the count and the RPM level; the RPM sees one on and one off request iff the count started at 0 |
| Qdss.EnableAtLimitWraps | arch/arm/mach-msm/qdss.c:76 | the 256th nested enable wraps the count to 0 with no RPM call, leaving the clocks on at count 0 |
| Qdss.QdssCtx.ClkEnable | arch/arm/mach-msm/qdss.c:60-82 | the context and the return value are exactly `Enable` of the old context |
| Qdss.QdssCtx.ClkDisable | arch/arm/mach-msm/qdss.c:94-111 | the context is exactly `Disable` of the old context |

## Left out

- The substrate's internals (tick counting, expiry scheduling, the RTAI expiry lists) are foreign calls. Each call is a state update of one timer record, and whether it succeeds is an input.
- Logging, tracing and `WARN` have no effect on state and are not modelled.
- Code under `#if 0` is not modelled: the WPS-overlap case and the note on a generic `limReactivateTimer`.
- The AP-product cases of `limDeactivateAndChangeTimer` (pre-auth cleanup, learn interval, learn duration) are compiled out of the client build. In the model those identifiers take no action (`DurationResolver.NoCaseNoAction`). The `ANI_AP_SDK_OPT` clamp on the pre-auth table size is compiled out likewise.
- The RTAI-only registration of timers in an expiry list is compiled out of this build.
- `palAllocateMemory` and `limInitPreAuthTimerTable` are external. Allocation success is an input, and the pre-auth node lookup is a partial map from index to timer.
- The consumer of the LIM message queue is not modelled. `limPostMsgApi` appends to a sequence.
- The configuration store is a map from key to value. A failed `wlan_cfgGetInt` is a missing key. Each call site's fallback is modelled as the code has it: 0 in `limDeactivateAndChangeTimer`, the stale `cfgValue` in `limCreateTimers`, and an arbitrary `uninit` value where the source leaves the variable uninitialised.
- `LIM_HASH_MISS_TIMER_MS` and `SYS_TICK_DUR_MS` are parameters of the `Lim` class, because their definitions are not part of this model.
- The substrate keeps a timer's durations in milliseconds (`initScheduleTimeInMsecs`). The timer record keeps them in ticks (`initTicks`, `reloadTicks`). The tests of `limReactivateHeartBeatTimer` and `limActivateHearBeatTimer` for a zero initial time (`limTimerUtils.c:1605`, `:1727`) are therefore tests of the tick count. The two differ only if ticks × tick length wrapped 32 bits inside the substrate.
- `LimTimers.Lim.DeactivateAndChangePerStaIdTimer`, `LimTimers.Lim.ActivateCnfTimer`: require the station index to be below the CNF table's size, because the source indexes the table without a check.
- The QDSS sysfs, kobject and module init/exit code is not modelled, nor is the `max_clk_store`/`max_clk_show` parsing. `max_clk` is a field that only those callbacks write.
- The `clk_mutex` is not modelled. Each enable or disable is modelled as atomic, which is what the mutex guarantees.
- `msm_rpmrs_set` is foreign. Its status is an input, and the model keeps a log of the requests and the level the RPM last accepted.
- `Qdss.QdssCtx.constructor` starts the RPM at the off level. The RPM's state at boot is outside the source.
