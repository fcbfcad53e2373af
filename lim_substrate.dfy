/*
 * The scheduling substrate's effect on one timer record. The substrate
 * itself (tick counting, callback invocation) is foreign: each call here
 * takes whether the substrate accepted it as an input. A timer that was
 * never created refuses every operation, as a timer without a valid
 * signature does.
 */
module TimerSubstrate {
  import opened LimTypes

  /** tx_timer_create: on success the record is (re)initialised. */
  function Created(t: Timer, handler: Handler, param: Word, initTicks: U32, reloadTicks: U32,
                   autoActivate: bool, ok: bool): Timer
  {
    if ok then Timer(true, handler, param, autoActivate, initTicks, reloadTicks, t.sessionId) else t
  }

  /** Whether tx_timer_deactivate reports TX_SUCCESS. */
  predicate Accepted(t: Timer, ok: bool)
  {
    ok && t.created
  }

  /** tx_timer_deactivate: disarms the timer. */
  function Deactivated(t: Timer, ok: bool): Timer
  {
    if Accepted(t, ok) then t.(active := false) else t
  }

  /** tx_timer_change: new initial and reschedule times, activity untouched. */
  function Changed(t: Timer, initTicks: U32, reloadTicks: U32, ok: bool): Timer
  {
    if Accepted(t, ok) then t.(initTicks := initTicks, reloadTicks := reloadTicks) else t
  }

  /** tx_timer_activate: arms the timer with its current schedule. */
  function Activated(t: Timer, ok: bool): Timer
  {
    if Accepted(t, ok) then t.(active := true) else t
  }
}
