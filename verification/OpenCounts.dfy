/** The open-pull-request-count coalescer: fire and forget, failures swallowed. */
module OpenCounts {
  import opened Debts
  import opened DebtLogs

  /** `passes` counts the live loops, each parked at the `await` of one invalidation. */
  datatype State = State(aborted: bool, pending: bool, refresh: bool, passes: nat, log: Log)

  /** From the head of the loop to the next invalidation, or through the `finally` block. */
  function Continue(s: State): State
    requires s.passes > 0
  {
    if s.pending && !s.aborted then s.(pending := false, log := Log(s.log, Started))
    else s.(refresh := false, passes := s.passes - 1)
  }

  function Schedule(s: State): State {
    if s.aborted then s
    else
      var t := s.(pending := true, log := Log(s.log, Asked));
      if t.refresh then t else Continue(t.(passes := t.passes + 1)).(refresh := true)
  }

  function PassSettles(s: State, ok: bool): State
    requires s.passes > 0
  {
    Continue(s.(log := Log(s.log, if ok then Succeeded else Failed)))
  }

  function Abort(s: State): State {
    s.(aborted := true, pending := false)
  }

  datatype Event = OnRequest | OnPass(ok: bool) | OnAbort

  predicate Enabled(s: State, e: Event) {
    match e
    case OnRequest => true
    case OnPass(_) => s.passes > 0
    case OnAbort => !s.aborted
  }

  function Next(s: State, e: Event): State
    requires Enabled(s, e)
  {
    match e
    case OnRequest => Schedule(s)
    case OnPass(ok) => PassSettles(s, ok)
    case OnAbort => Abort(s)
  }

  function Init(): State { State(false, false, false, 0, Empty) }

  ghost predicate IsRun(states: seq<State>, events: seq<Event>) {
    && |states| == |events| + 1 && states[0] == Init()
    && forall i :: 0 <= i < |events| ==> Enabled(states[i], events[i]) && states[i + 1] == Next(states[i], events[i])
  }

  ghost predicate Inv(s: State) {
    && s.passes <= 1 && (s.refresh <==> s.passes == 1)
    && (s.pending ==> s.passes == 1 && !s.aborted)
    && (!s.aborted ==> (s.pending <==> Unserved(s.log)))
  }

  /** One invalidation at a time, and every request is followed by the start of one, or a live loop holds it pending. */
  lemma {:induction false} NoRequestIsLost(states: seq<State>, events: seq<Event>, i: nat)
    requires IsRun(states, events) && i < |states|
    ensures Inv(states[i])
  {
    if i > 0 {
      NoRequestIsLost(states, events, i - 1);
      assert Enabled(states[i - 1], events[i - 1]) && states[i] == Next(states[i - 1], events[i - 1]);
    }
  }

  /** The reschedule in the `finally` block is never taken. */
  lemma TrailingRescheduleUnreachable(s: State, ok: bool)
    requires Inv(s) && s.passes == 1
    ensures PassSettles(s, ok).passes == 0 <==> !s.pending
    ensures PassSettles(s, ok).passes == 0 ==> !PassSettles(s, ok).pending
  {
  }
}
