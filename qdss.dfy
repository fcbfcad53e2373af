/**
 * The QDSS clock reference count: qdss_clk_enable and qdss_clk_disable.
 * The clocks are voted on through the RPM only on the 0 -> 1 and 1 -> 0
 * transitions of an 8-bit use count; every other call only moves the count.
 * The RPM is outside the model: each request it is sent is logged, its
 * status is an input, and the level it holds changes only when it accepts
 * a request.
 */
module Qdss {

  type U8 = x: int | 0 <= x < 256

  /** The RPM clock levels (QDSS_CLK_OFF, QDSS_CLK_ON_DBG, QDSS_CLK_ON_HSDBG). */
  datatype ClkLevel = ClkOff | ClkOnDbg | ClkOnHsdbg

  /** The clock context, together with the RPM's side of the conversation. */
  datatype ClockState = ClockState(maxClk: U8, clkCount: U8, requests: seq<ClkLevel>,
                                   rpmLevel: ClkLevel)

  /** What qdss_clk_enable leaves behind and returns. */
  datatype Enabled = Enabled(state: ClockState, ret: int)

  /** The level an enable asks for: high-speed debug when max_clk is set. */
  function OnLevel(maxClk: U8): (level: ClkLevel)
    ensures level != ClkOff
    ensures level == ClkOnHsdbg <==> maxClk != 0
  {
    if maxClk != 0 then ClkOnHsdbg else ClkOnDbg
  }

  /** The uint8_t increment of clk_count, which wraps at 256. */
  function Inc8(c: U8): (r: U8)
    ensures r == (c + 1) % 256
    ensures c < 255 ==> r > c
  {
    if c == 255 then 0 else c + 1
  }

  /** One msm_rpmrs_set call: logged, and held by the RPM only if accepted. */
  function RpmSet(s: ClockState, level: ClkLevel, rpmStatus: int): ClockState
  {
    s.(requests := s.requests + [level], rpmLevel := if rpmStatus == 0 then level else s.rpmLevel)
  }

  /**
   * The count and the RPM agree: the clocks are voted on, at the level
   * max_clk selects, exactly while someone holds a reference.
   */
  predicate Synced(s: ClockState)
  {
    s.rpmLevel == if s.clkCount > 0 then OnLevel(s.maxClk) else ClkOff
  }

  /**
   * qdss_clk_enable. From 0 it asks the RPM for the on level and, if the
   * RPM refuses, returns its error with the count unchanged; otherwise, and
   * from any nonzero count without an RPM call, the count goes up by one
   * and 0 is returned.
   */
  function Enable(s: ClockState, rpmStatus: int): (r: Enabled)
    ensures r.state.maxClk == s.maxClk
    ensures s.clkCount == 0 ==> r.state.requests == s.requests + [OnLevel(s.maxClk)]
    ensures s.clkCount != 0 ==> r.state.requests == s.requests && r.state.rpmLevel == s.rpmLevel
    ensures r.ret == 0 <==> s.clkCount != 0 || rpmStatus == 0
    ensures r.ret != 0 ==> r.ret == rpmStatus && r.state.clkCount == s.clkCount &&
                           r.state.rpmLevel == s.rpmLevel
    ensures r.ret == 0 ==> r.state.clkCount == Inc8(s.clkCount)
    ensures Synced(s) && r.ret == 0 && s.clkCount < 255 ==> Synced(r.state)
  {
    if s.clkCount == 0 then
      var t := RpmSet(s, OnLevel(s.maxClk), rpmStatus);
      if rpmStatus != 0 then Enabled(t, rpmStatus) else Enabled(t.(clkCount := Inc8(0)), 0)
    else
      Enabled(s.(clkCount := Inc8(s.clkCount)), 0)
  }

  /**
   * qdss_clk_disable. At 0 the call is unbalanced and changes nothing. At 1
   * it asks the RPM for the off level and drops to 0 whatever the RPM
   * answers; above 1 it only drops the count.
   */
  function Disable(s: ClockState, rpmStatus: int): (r: ClockState)
    ensures r.maxClk == s.maxClk
    ensures s.clkCount == 0 ==> r == s
    ensures s.clkCount == 1 ==> r.clkCount == 0 && r.requests == s.requests + [ClkOff] &&
                                r.rpmLevel == (if rpmStatus == 0 then ClkOff else s.rpmLevel)
    ensures s.clkCount > 1 ==> r.clkCount == s.clkCount - 1 && r.requests == s.requests &&
                               r.rpmLevel == s.rpmLevel
    ensures Synced(s) && (s.clkCount != 1 || rpmStatus == 0) ==> Synced(r)
  {
    if s.clkCount == 0 then s
    else
      var t := if s.clkCount == 1 then RpmSet(s, ClkOff, rpmStatus) else s;
      t.(clkCount := t.clkCount - 1)
  }

  /**
   * A use of the clocks that gets its reference and gives it back leaves
   * the count where it was; the RPM hears of it only when that use is the
   * first.
   */
  lemma EnableThenDisable(s: ClockState, onStatus: int, offStatus: int)
    requires s.clkCount < 255 && Enable(s, onStatus).ret == 0
    ensures var r := Disable(Enable(s, onStatus).state, offStatus);
      r.clkCount == s.clkCount &&
      r.requests == s.requests + (if s.clkCount == 0 then [OnLevel(s.maxClk), ClkOff] else [])
  {
  }

  /** A caller's request to the clock context. */
  datatype Op = EnableOp(rpmStatus: int) | DisableOp(rpmStatus: int)

  function Apply(s: ClockState, op: Op): ClockState
  {
    match op
    case EnableOp(status) => Enable(s, status).state
    case DisableOp(status) => Disable(s, status)
  }

  /** A sequence of calls, each atomic under clk_mutex, in the order they run. */
  function Run(s: ClockState, ops: seq<Op>): (r: ClockState)
    ensures r.maxClk == s.maxClk
    ensures |s.requests| <= |r.requests| && r.requests[..|s.requests|] == s.requests
    decreases |ops|
  {
    if |ops| == 0 then s else Run(Apply(s, ops[0]), ops[1..])
  }

  lemma {:induction false} RunAppend(s: ClockState, a: seq<Op>, b: seq<Op>)
    ensures Run(s, a + b) == Run(Run(s, a), b)
    decreases |a|
  {
    if |a| > 0 {
      assert (a + b)[1..] == a[1..] + b;
      RunAppend(Apply(s, a[0]), a[1..], b);
    } else {
      assert a + b == b;
    }
  }

  predicate RpmAlwaysAccepts(ops: seq<Op>)
  {
    forall i :: 0 <= i < |ops| ==> ops[i].rpmStatus == 0
  }

  /**
   * While the RPM accepts every request and the count cannot wrap, the
   * clocks are on, at the max_clk level, exactly while the count is
   * nonzero, whatever order the calls come in (unbalanced disables
   * included).
   */
  lemma {:induction false} RunKeepsRpmInSync(s: ClockState, ops: seq<Op>)
    requires Synced(s) && RpmAlwaysAccepts(ops) && s.clkCount + |ops| < 256
    ensures Synced(Run(s, ops))
    decreases |ops|
  {
    if |ops| > 0 {
      assert ops[0].rpmStatus == 0;
      assert RpmAlwaysAccepts(ops[1..]) by {
        forall i | 0 <= i < |ops[1..]|
          ensures ops[1..][i].rpmStatus == 0
        {
          assert ops[1..][i] == ops[i + 1];
        }
      }
      RunKeepsRpmInSync(Apply(s, ops[0]), ops[1..]);
    }
  }

  function Enables(n: nat): (ops: seq<Op>)
    ensures |ops| == n && forall i :: 0 <= i < n ==> ops[i] == EnableOp(0)
  {
    seq(n, _ => EnableOp(0))
  }

  function Disables(n: nat): (ops: seq<Op>)
    ensures |ops| == n && forall i :: 0 <= i < n ==> ops[i] == DisableOp(0)
  {
    seq(n, _ => DisableOp(0))
  }

  /** n enables from count c: one on request if c is 0, and the count is c + n. */
  lemma {:induction false} EnablesRun(s: ClockState, n: nat)
    requires s.clkCount + n < 256
    ensures var r := Run(s, Enables(n));
      r.clkCount == s.clkCount + n &&
      r.requests == s.requests + (if s.clkCount == 0 && n > 0 then [OnLevel(s.maxClk)] else []) &&
      r.rpmLevel == (if s.clkCount == 0 && n > 0 then OnLevel(s.maxClk) else s.rpmLevel)
    decreases n
  {
    if n > 0 {
      assert Enables(n)[1..] == Enables(n - 1);
      EnablesRun(Apply(s, EnableOp(0)), n - 1);
    }
  }

  /** n disables from count c >= n: one off request if they reach 0, and the count is c - n. */
  lemma {:induction false} DisablesRun(s: ClockState, n: nat)
    requires n <= s.clkCount
    ensures var r := Run(s, Disables(n));
      r.clkCount == s.clkCount - n &&
      r.requests == s.requests + (if n > 0 && n == s.clkCount then [ClkOff] else []) &&
      r.rpmLevel == (if n > 0 && n == s.clkCount then ClkOff else s.rpmLevel)
    decreases n
  {
    if n > 0 {
      assert Disables(n)[1..] == Disables(n - 1);
      DisablesRun(Apply(s, DisableOp(0)), n - 1);
    }
  }

  /**
   * Nested users: n enables followed by n disables restore the count and
   * the RPM's level, and the RPM sees one on and one off request exactly
   * when the count started at 0.
   */
  lemma NestedEnableDisable(s: ClockState, n: nat)
    requires Synced(s) && s.clkCount + n < 256
    ensures var r := Run(s, Enables(n) + Disables(n));
      r.clkCount == s.clkCount && r.rpmLevel == s.rpmLevel &&
      r.requests == s.requests +
        (if s.clkCount == 0 && n > 0 then [OnLevel(s.maxClk), ClkOff] else [])
  {
    RunAppend(s, Enables(n), Disables(n));
    EnablesRun(s, n);
    DisablesRun(Run(s, Enables(n)), n);
  }

  /**
   * The 8-bit count wraps: the 256th nested enable brings it back to 0
   * without an RPM call, with the clocks still on.
   */
  lemma EnableAtLimitWraps(s: ClockState, rpmStatus: int)
    requires s.clkCount == 255 && Synced(s)
    ensures var r := Enable(s, rpmStatus);
      r.ret == 0 && r.state.clkCount == 0 && r.state.requests == s.requests &&
      r.state.rpmLevel != ClkOff && !Synced(r.state)
  {
  }

  /** The qdss context: max_clk, clk_count, and the RPM this driver talks to. */
  class QdssCtx {
    var maxClk: U8
    var clkCount: U8
    /** Every request sent to the RPM, in order. */
    var requests: seq<ClkLevel>
    /** The level the RPM holds for the QDSS clocks. */
    var rpmLevel: ClkLevel

    function State(): ClockState
      reads this
    {
      ClockState(maxClk, clkCount, requests, rpmLevel)
    }

    /** The zero-initialised static context; the clocks start off. */
    constructor ()
      ensures State() == ClockState(0, 0, [], ClkOff) && Synced(State())
    {
      maxClk := 0;
      clkCount := 0;
      requests := [];
      rpmLevel := ClkOff;
    }

    /** msm_rpmrs_set on MSM_RPM_ID_QDSS_CLK; its status is an input. */
    method RpmRequest(level: ClkLevel, rpmStatus: int) returns (ret: int)
      modifies this`requests, this`rpmLevel
      ensures requests == old(requests) + [level] && ret == rpmStatus
      ensures rpmLevel == if rpmStatus == 0 then level else old(rpmLevel)
    {
      requests := requests + [level];
      if rpmStatus == 0 {
        rpmLevel := level;
      }
      ret := rpmStatus;
    }

    method ClkEnable(rpmStatus: int) returns (ret: int)
      modifies this`clkCount, this`requests, this`rpmLevel
      ensures Enabled(State(), ret) == Enable(old(State()), rpmStatus)
    {
      if clkCount == 0 {
        var level := if maxClk != 0 then ClkOnHsdbg else ClkOnDbg;
        ret := RpmRequest(level, rpmStatus);
        if ret != 0 {
          return;
        }
      }
      clkCount := if clkCount == 255 then 0 else clkCount + 1;
      ret := 0;
    }

    method ClkDisable(rpmStatus: int)
      modifies this`clkCount, this`requests, this`rpmLevel
      ensures State() == Disable(old(State()), rpmStatus)
    {
      if clkCount == 0 {
        return;
      }
      if clkCount == 1 {
        var ret := RpmRequest(ClkOff, rpmStatus);
      }
      clkCount := clkCount - 1;
    }
  }
}
