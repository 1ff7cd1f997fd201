/** What a coalescer still owes its callers: a request is paid by the success of a pass that started after it. */
module Debts {
  datatype Signal = Asked | Started | Succeeded | Failed

  datatype Debt = Unasked | Owed | Serving | Paid

  function After(d: Debt, s: Signal): Debt {
    match s
    case Asked => Owed
    case Started => if d == Owed then Serving else d
    case Succeeded => if d == Serving then Paid else d
    case Failed => if d == Serving then Owed else d
  }
}

/** The history of one coalescer: its requests, pass starts and pass ends. */
module DebtLogs {
  import opened Debts

  /** Newest signal outermost. */
  datatype Log = Empty | Log(before: Log, last: Signal)

  function DebtOf(log: Log): Debt {
    if log.Empty? then Unasked else After(DebtOf(log.before), log.last)
  }

  /** The debt after one more signal, and after two. */
  lemma Appended(log: Log, a: Signal, b: Signal)
    ensures DebtOf(Log(log, a)) == After(DebtOf(log), a)
    ensures DebtOf(Log(Log(log, a), b)) == After(After(DebtOf(log), a), b)
  {
  }

  function Signals(log: Log): seq<Signal> {
    if log.Empty? then [] else Signals(log.before) + [log.last]
  }

  /** `Unasked`: no request; otherwise `r` is the last one, `start` a later start and `done` a later success. */
  lemma {:induction false} DebtMeaning(log: Log) returns (r: nat, start: nat, done: nat)
    ensures DebtOf(log) == Unasked <==> Asked !in Signals(log)
    ensures DebtOf(log) != Unasked ==> var es := Signals(log);
      r < |es| && es[r] == Asked && Asked !in es[r + 1..]
    ensures DebtOf(log) in {Serving, Paid} ==> r < start < |Signals(log)| && Signals(log)[start] == Started
    ensures DebtOf(log) == Paid ==> start < done < |Signals(log)| && Signals(log)[done] == Succeeded
  {
    r, start, done := 0, 0, 0;
    if log.Log? {
      r, start, done := DebtMeaning(log.before);
      var es := Signals(log.before);
      match log.last
      case Asked => r := |es|;
      case Started => if DebtOf(log.before) == Owed { start := |es|; }
      case Succeeded => if DebtOf(log.before) == Serving { done := |es|; }
      case Failed =>
      if r < |es| {
        assert (es + [log.last])[r + 1..] == es[r + 1..] + [log.last];
      }
    }
  }

  function Starts(log: Log): nat {
    if log.Empty? then 0 else Starts(log.before) + if log.last == Started then 1 else 0
  }

  /** No pass has started since the last request. */
  function Unserved(log: Log): bool {
    if log.Empty? then false
    else match log.last
         case Asked => true
         case Started => false
         case _ => Unserved(log.before)
  }
}
