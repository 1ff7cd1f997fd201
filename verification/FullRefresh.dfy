/** The full-refresh coalescer: a tab that becomes visible is retried until a whole refresh succeeds. */
module FullRefresh {
  import opened Debts
  import opened DebtLogs

  /**
   * A live loop, parked at the `await` of the full refresh, which awaits the count refresh `promise`
   * among other fetches, or at the retry delay.
   */
  datatype Pass = Refreshing(promise: nat) | Delaying

  datatype State = State(aborted: bool, pending: bool, retryLoop: bool, passes: seq<Pass>, log: Log)

  /** The `finally` block. */
  function Close(s: State, i: nat): State
    requires i < |s.passes|
  {
    s.(retryLoop := false, passes := s.passes[..i] + s.passes[i + 1..])
  }

  /** The head of the loop; `promise` is the count refresh that the full refresh started here will await. */
  function Continue(s: State, i: nat, promise: nat): State
    requires i < |s.passes|
  {
    if s.aborted then Close(s, i)
    else s.(pending := false, passes := s.passes[i := Refreshing(promise)], log := Log(s.log, Started))
  }

  function Schedule(s: State, promise: nat): State {
    if s.aborted then s
    else
      var t := s.(pending := true, log := Log(s.log, Asked));
      if t.retryLoop then t
      else Begin(t, promise)
  }

  /** A new loop: its body runs up to its first `await` before the handle is assigned. */
  function Begin(s: State, promise: nat): State {
    Continue(s.(passes := s.passes + [Delaying]), |s.passes|, promise).(retryLoop := true)
  }

  function PassSettles(s: State, i: nat, ok: bool, promise: nat): State
    requires i < |s.passes|
  {
    var t := s.(log := Log(s.log, if ok then Succeeded else Failed));
    if !ok then t.(passes := t.passes[i := Delaying])
    else if !t.pending || t.aborted then Close(t, i)
    else Continue(t, i, promise)
  }

  function Abort(s: State): State {
    s.(aborted := true, pending := false)
  }

  /** `promise` is used if the event starts a full refresh. */
  datatype Event =
    | OnVisible(promise: nat)
    | OnPass(pass: nat, ok: bool, promise: nat)
    | OnDelay(pass: nat, promise: nat)
    | OnAbort

  predicate Enabled(s: State, e: Event) {
    match e
    case OnVisible(_) => true
    case OnPass(i, _, _) => i < |s.passes| && s.passes[i].Refreshing?
    case OnDelay(i, _) => i < |s.passes| && s.passes[i] == Delaying
    case OnAbort => !s.aborted
  }

  function Next(s: State, e: Event): State
    requires Enabled(s, e)
  {
    match e
    case OnVisible(promise) => Schedule(s, promise)
    case OnPass(i, ok, promise) => PassSettles(s, i, ok, promise)
    case OnDelay(i, promise) => Continue(s, i, promise)
    case OnAbort => Abort(s)
  }

  function Init(): State { State(false, false, false, [], Empty) }

  ghost predicate IsRun(states: seq<State>, events: seq<Event>) {
    && |states| == |events| + 1 && states[0] == Init()
    && forall i :: 0 <= i < |events| ==> Enabled(states[i], events[i]) && states[i + 1] == Next(states[i], events[i])
  }

  /** What is owed is bound to be served: by a pending re-check behind the open pass, or after the delay. */
  ghost predicate Inv(s: State) {
    && |s.passes| <= 1 && (s.retryLoop <==> |s.passes| == 1)
    && (s.pending ==> |s.passes| == 1 && !s.aborted)
    && (!s.aborted ==>
          match DebtOf(s.log)
          case Owed => |s.passes| == 1 && (s.pending || s.passes[0] == Delaying)
          case Serving => |s.passes| == 1 && s.passes[0].Refreshing? && !s.pending
          case _ => s.passes == [] && !s.pending)
  }

  lemma StepKeeps(s: State, e: Event)
    requires Enabled(s, e) && Inv(s)
    ensures Inv(Next(s, e))
  {
    match e
    case OnVisible(_) => assert DebtOf(Log(Log(s.log, Asked), Started)) == Serving;
    case OnPass(_, ok, _) =>
      var signal := if ok then Succeeded else Failed;
      assert DebtOf(Log(Log(s.log, signal), Started)) == After(After(DebtOf(s.log), signal), Started);
    case OnDelay(_, _) => assert DebtOf(Log(s.log, Started)) == After(DebtOf(s.log), Started);
    case OnAbort =>
  }

  lemma {:induction false} RunKeeps(states: seq<State>, events: seq<Event>, i: nat)
    requires IsRun(states, events) && i < |states|
    ensures Inv(states[i])
  {
    if i > 0 {
      RunKeeps(states, events, i - 1);
      assert Enabled(states[i - 1], events[i - 1]) && states[i] == Next(states[i - 1], events[i - 1]);
      StepKeeps(states[i - 1], events[i - 1]);
    }
  }

  /**
   * In every run one full refresh is open at most, and until the last request has been followed by a
   * full refresh that started later and succeeded, the loop is alive; it is idle only when all is paid.
   */
  lemma RetriedUntilSuccess(states: seq<State>, events: seq<Event>, i: nat)
    requires IsRun(states, events) && i < |states| && !states[i].aborted
    ensures var s := states[i];
      && |s.passes| <= 1
      && (s.passes == [] <==> DebtOf(s.log) in {Unasked, Paid})
      && (s.retryLoop <==> s.passes != [])
  {
    RunKeeps(states, events, i);
  }

  /** The loop never ends with a request pending, so the reschedule in its `finally` block is never taken. */
  lemma TrailingRescheduleUnreachable(s: State, e: Event)
    requires Enabled(s, e) && Inv(s) && s.passes != [] && Next(s, e).passes == []
    ensures !Next(s, e).pending
  {
  }
}
