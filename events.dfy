/** What the logger does to its handlers, recorded as a trace of calls: each
    event names the position of the handler called and the call made. */
module Events {
  import opened Records

  /** The three calls a logger makes on a handler. */
  datatype Call = Log(record: Record) | Reload | Close

  datatype Event = Event(handler: nat, call: Call)

  /** What one handler's `Reload` returns: nil or an error. */
  datatype Status = Ok | Fail(reason: nat)

  /** One round of a call over the first `n` handlers: `call` made once on
      each, in list order. */
  function Round(call: Call, n: nat): (e: seq<Event>)
    ensures |e| == n
    ensures forall i :: 0 <= i < n ==> e[i] == Event(i, call)
  {
    if n == 0 then [] else Round(call, n - 1) + [Event(n - 1, call)]
  }

  /** In a round each of the `n` handlers is called exactly once, and no
      other handler and no other call appears. */
  lemma {:induction false} RoundOnceEach(call: Call, n: nat, ev: Event)
    ensures multiset(Round(call, n))[ev] == if ev.call == call && ev.handler < n then 1 else 0
  {
    if n > 0 {
      RoundOnceEach(call, n - 1, ev);
      assert Round(call, n) == Round(call, n - 1) + [Event(n - 1, call)];
    }
  }

  /** The result of a `Reload` over `n` handlers whose own reloads return
      `status(0)`, `status(1)`, ...: the error returned and how many handlers
      were reloaded. */
  datatype ReloadOutcome = ReloadOutcome(err: Status, reloaded: nat)

  /** Reloading handlers i, i+1, ... up to n, stopping at the first error. */
  function ReloadFrom(status: nat -> Status, i: nat, n: nat): (o: ReloadOutcome)
    requires i <= n
    decreases n - i
    ensures i <= o.reloaded <= n
    ensures o.err.Ok? <==> forall j :: i <= j < n ==> status(j).Ok?
    ensures o.err.Ok? ==> o.reloaded == n
    ensures o.err.Fail? ==>
      && i < o.reloaded
      && o.err == status(o.reloaded - 1)
      && forall j :: i <= j < o.reloaded - 1 ==> status(j).Ok?
  {
    if i == n then ReloadOutcome(Ok, n)
    else if status(i).Fail? then ReloadOutcome(status(i), i + 1)
    else ReloadFrom(status, i + 1, n)
  }

  /** If handler i is the first whose reload fails, handlers 0..i are
      reloaded, none after i, and i's error is returned. */
  lemma FirstFailureStops(status: nat -> Status, n: nat, i: nat)
    requires i < n && status(i).Fail?
    requires forall j :: 0 <= j < i ==> status(j).Ok?
    ensures ReloadFrom(status, 0, n) == ReloadOutcome(status(i), i + 1)
  {
  }
}
