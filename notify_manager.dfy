/** `NotifyManager` (src/core/notifyManager.js): a batching scheduler made of
    a queue of callbacks and a nesting counter of open transactions.

    `scheduleMicrotask` is abstract: scheduling a microtask appends a `Task` to
    the manager's `pending` list, and what a task does when the event loop
    later runs it is `ExecuteTask`, which reads the hooks installed at that
    time.  A callback passed to `batch` is arbitrary code; the model gives it
    as a script of the manager calls it makes (`Op`) together with the value
    it returns. */
module Notify {
  import opened JsValues

  /** A notification hook: the default `(callback) => { callback() }`, or a
      function a host installed through one of the setters. */
  datatype Hook = Direct | Host(fn: JsValue)

  /** A callback handed to `schedule`: a function given directly, or the
      closure `() => { callback(...args) }` that a `batchCalls` wrapper makes. */
  datatype Thunk = Plain(fn: JsValue) | Applied(fn: JsValue, args: seq<JsValue>)

  /** A microtask that `scheduleMicrotask` queued: `() => this.notifyFn(callback)`
      from `schedule`, or the batch notification from `flush` over the queue it
      took. */
  datatype Task = NotifyOne(callback: Thunk) | NotifyBatch(callbacks: seq<Thunk>)

  /** What running a task does: a callback invoked, a callback handed to a
      host notify hook, or the batch closure handed to a host batch hook. */
  datatype Effect =
    | Invoke(callback: Thunk)
    | ToNotifyHook(hook: JsValue, callback: Thunk)
    | ToBatchHook(hook: JsValue, callbacks: seq<Thunk>)

  /** What a batch callback does with the manager, in order. */
  datatype Op =
    | ScheduleOp(callback: Thunk)                   // notifyManager.schedule(callback)
    | CallBatchedOp(fn: JsValue, args: seq<JsValue>) // calling notifyManager.batchCalls(fn) with args
    | BatchOp(body: seq<Op>)                         // a nested notifyManager.batch(...)

  /** The manager's scheduling state: `queue`, `transactions`, and the
      microtasks scheduled so far. */
  datatype Sched = Sched(queue: seq<Thunk>, transactions: nat, pending: seq<Task>)

  /** The queue is only filled inside a transaction, and the last
      transaction to close empties it. */
  predicate Quiet(s: Sched) {
    s.transactions == 0 ==> s.queue == []
  }

  /** `schedule(callback)`. */
  function ScheduleSpec(s: Sched, callback: Thunk): (r: Sched)
    ensures r.transactions == s.transactions
    ensures s.transactions > 0 ==> r.queue == s.queue + [callback] && r.pending == s.pending
    ensures s.transactions == 0 ==> r.queue == s.queue && r.pending == s.pending + [NotifyOne(callback)]
  {
    if s.transactions > 0 then s.(queue := s.queue + [callback])
    else s.(pending := s.pending + [NotifyOne(callback)])
  }

  /** `flush()`. */
  function FlushSpec(s: Sched): (r: Sched)
    ensures r.queue == [] && r.transactions == s.transactions
    ensures s.queue != [] ==> r.pending == s.pending + [NotifyBatch(s.queue)]
    ensures s.queue == [] ==> r.pending == s.pending
  {
    Sched([], s.transactions, if s.queue != [] then s.pending + [NotifyBatch(s.queue)] else s.pending)
  }

  /** The effect of one op of a batch callback. */
  function Step(s: Sched, op: Op): (r: Sched)
    ensures r.transactions == s.transactions
    decreases op
  {
    match op
    case ScheduleOp(callback) => ScheduleSpec(s, callback)
    case CallBatchedOp(fn, args) => ScheduleSpec(s, Applied(fn, args))
    case BatchOp(body) =>
      var inner := Run(s.(transactions := s.transactions + 1), body);
      var closed := inner.(transactions := inner.transactions - 1);
      if closed.transactions == 0 then FlushSpec(closed) else closed
  }

  /** The effect of a whole script, op by op. */
  function Run(s: Sched, ops: seq<Op>): (r: Sched)
    ensures r.transactions == s.transactions
    decreases ops
  {
    if ops == [] then s else Step(Run(s, ops[..|ops| - 1]), ops[|ops| - 1])
  }

  /** Every callback a script schedules, nested batches included, in order. */
  function Scheduled(ops: seq<Op>): seq<Thunk>
    decreases ops
  {
    if ops == [] then []
    else
      var last := ops[|ops| - 1];
      Scheduled(ops[..|ops| - 1]) +
      match last
      case ScheduleOp(callback) => [callback]
      case CallBatchedOp(fn, args) => [Applied(fn, args)]
      case BatchOp(body) => Scheduled(body)
  }

  /** Inside an open transaction nothing reaches the microtask queue: every
      callback, however deeply nested its batch, is appended to `queue` in
      order, and nested batches do not flush. */
  lemma {:induction false} InsideTransaction(s: Sched, ops: seq<Op>)
    requires s.transactions > 0
    ensures Run(s, ops) == Sched(s.queue + Scheduled(ops), s.transactions, s.pending)
    decreases ops, 1
  {
    if ops != [] {
      var init := ops[..|ops| - 1];
      InsideTransaction(s, init);
      StepInsideTransaction(Run(s, init), ops[|ops| - 1]);
    }
  }

  lemma {:induction false} StepInsideTransaction(s: Sched, op: Op)
    requires s.transactions > 0
    ensures Step(s, op) == Sched(s.queue + Scheduled([op]), s.transactions, s.pending)
    decreases op, 0
  {
    assert [op][..0] == [];
    match op
    case ScheduleOp(_) =>
    case CallBatchedOp(_, _) =>
    case BatchOp(body) =>
      InsideTransaction(s.(transactions := s.transactions + 1), body);
  }

  /** A top-level `batch` (no transaction open) ends with an empty queue and
      at most one new microtask: the batch notification over everything its
      callback scheduled, in order, and none when it scheduled nothing. */
  lemma TopLevelBatch(s: Sched, body: seq<Op>)
    requires s.transactions == 0 && Quiet(s)
    ensures Step(s, BatchOp(body)).queue == [] && Step(s, BatchOp(body)).transactions == 0
    ensures Scheduled(body) != [] ==>
      Step(s, BatchOp(body)).pending == s.pending + [NotifyBatch(Scheduled(body))]
    ensures Scheduled(body) == [] ==> Step(s, BatchOp(body)).pending == s.pending
  {
    var inner := s.(transactions := 1);
    InsideTransaction(inner, body);
    assert inner.queue + Scheduled(body) == Scheduled(body);
  }

  /** A nested `batch` (a transaction already open) flushes nothing: its
      callbacks just join the queue. */
  lemma NestedBatchDoesNotFlush(s: Sched, body: seq<Op>)
    requires s.transactions > 0
    ensures Step(s, BatchOp(body)) == Sched(s.queue + Scheduled(body), s.transactions, s.pending)
  {
    InsideTransaction(s.(transactions := s.transactions + 1), body);
  }

  /** Ops keep the queue empty outside transactions: a top-level batch
      flushes what it queued before it returns. */
  lemma {:induction false} RunKeepsQuiet(s: Sched, ops: seq<Op>)
    requires Quiet(s)
    ensures Quiet(Run(s, ops))
    decreases ops
  {
    if ops != [] {
      RunKeepsQuiet(s, ops[..|ops| - 1]);
    }
  }

  /** How a notify hook delivers one callback. */
  function NotifyEffect(notifyFn: Hook, callback: Thunk): Effect {
    match notifyFn
    case Direct => Invoke(callback)
    case Host(h) => ToNotifyHook(h, callback)
  }

  /** The closure the batch notification builds:
      `queue.forEach((callback) => { this.notifyFn(callback) })`. */
  function NotifyEach(notifyFn: Hook, callbacks: seq<Thunk>): (r: seq<Effect>)
    ensures |r| == |callbacks|
    ensures forall i :: 0 <= i < |callbacks| ==> r[i] == NotifyEffect(notifyFn, callbacks[i])
  {
    if callbacks == [] then []
    else NotifyEach(notifyFn, callbacks[..|callbacks| - 1]) + [NotifyEffect(notifyFn, callbacks[|callbacks| - 1])]
  }

  /** What a microtask does when it runs, with the hooks installed then. */
  function TaskEffects(task: Task, notifyFn: Hook, batchNotifyFn: Hook): (r: seq<Effect>)
    ensures task.NotifyOne? ==> r == [NotifyEffect(notifyFn, task.callback)]
    ensures task.NotifyBatch? && batchNotifyFn.Direct? ==>
      |r| == |task.callbacks| &&
      forall i :: 0 <= i < |task.callbacks| ==> r[i] == NotifyEffect(notifyFn, task.callbacks[i])
    ensures task.NotifyBatch? && batchNotifyFn.Host? ==> r == [ToBatchHook(batchNotifyFn.fn, task.callbacks)]
  {
    match task
    case NotifyOne(callback) => [NotifyEffect(notifyFn, callback)]
    case NotifyBatch(callbacks) =>
      match batchNotifyFn
      case Direct => NotifyEach(notifyFn, callbacks)
      case Host(h) => [ToBatchHook(h, callbacks)]
  }

  /** With the default hooks, a top-level batch's notification calls every
      callback its body scheduled, each once, in the order scheduled. */
  lemma DefaultHooksInvokeInOrder(s: Sched, body: seq<Op>)
    requires s.transactions == 0 && Quiet(s) && Scheduled(body) != []
    ensures var r := Step(s, BatchOp(body));
      |r.pending| == |s.pending| + 1 &&
      var effects := TaskEffects(r.pending[|r.pending| - 1], Direct, Direct);
      |effects| == |Scheduled(body)| &&
      forall i :: 0 <= i < |effects| ==> effects[i] == Invoke(Scheduled(body)[i])
  {
    TopLevelBatch(s, body);
  }

  class NotifyManager {
    var queue: seq<Thunk>
    var transactions: nat
    var notifyFn: Hook
    var batchNotifyFn: Hook
    /** Microtasks scheduled and not yet run by the event loop. */
    var pending: seq<Task>

    function State(): Sched
      reads this
    {
      Sched(queue, transactions, pending)
    }

    /** `new NotifyManager()`: both hooks default to calling the callback. */
    constructor ()
      ensures queue == [] && transactions == 0 && pending == []
      ensures notifyFn == Direct && batchNotifyFn == Direct
    {
      queue := [];
      transactions := 0;
      notifyFn := Direct;
      batchNotifyFn := Direct;
      pending := [];
    }

    /** `schedule(callback)`. */
    method Schedule(callback: Thunk)
      modifies this`queue, this`pending
      ensures State() == ScheduleSpec(old(State()), callback)
    {
      if transactions > 0 {
        queue := queue + [callback];
      } else {
        pending := pending + [NotifyOne(callback)];
      }
    }

    /** Calling the wrapper `batchCalls(callback)` with `args`: the callback
        is not run now, a closure applying it to `args` is scheduled. */
    method CallBatched(callback: JsValue, args: seq<JsValue>)
      modifies this`queue, this`pending
      ensures State() == ScheduleSpec(old(State()), Applied(callback, args))
    {
      Schedule(Applied(callback, args));
    }

    /** `flush()`. */
    method Flush()
      modifies this`queue, this`pending
      ensures State() == FlushSpec(old(State()))
    {
      var taken := queue;
      queue := [];
      if |taken| > 0 {
        pending := pending + [NotifyBatch(taken)];
      }
    }

    /** `batch(callback)`, for a callback that performs `body` and then
        returns `result` normally. */
    method Batch(body: seq<Op>, result: JsValue) returns (r: JsValue)
      modifies this`queue, this`transactions, this`pending
      ensures r == result
      ensures State() == Step(old(State()), BatchOp(body))
      ensures transactions == old(transactions)
      ensures Quiet(old(State())) ==> Quiet(State())
      decreases body, 1
    {
      transactions := transactions + 1;
      Perform(body);
      transactions := transactions - 1;
      if transactions == 0 {
        Flush();
      }
      r := result;
      if Quiet(old(State())) {
        RunKeepsQuiet(old(State()), [BatchOp(body)]);
        assert [BatchOp(body)][..0] == [];
      }
    }

    /** The batch callback's own calls into the manager, in order. */
    method Perform(ops: seq<Op>)
      modifies this`queue, this`transactions, this`pending
      ensures State() == Run(old(State()), ops)
      decreases ops, 0
    {
      var i := 0;
      while i < |ops|
        invariant 0 <= i <= |ops|
        invariant State() == Run(old(State()), ops[..i])
      {
        assert ops[..i + 1][..i] == ops[..i];
        match ops[i] {
          case ScheduleOp(callback) => Schedule(callback);
          case CallBatchedOp(fn, args) => CallBatched(fn, args);
          case BatchOp(body) =>
            var _ := Batch(body, Null);
        }
        i := i + 1;
      }
      assert ops[..|ops|] == ops;
    }

    /** The closure the batch notification hands to `batchNotifyFn`, run
        with the notify hook installed at that moment. */
    method NotifyQueue(callbacks: seq<Thunk>) returns (effects: seq<Effect>)
      ensures effects == NotifyEach(notifyFn, callbacks)
    {
      effects := [];
      var i := 0;
      while i < |callbacks|
        invariant 0 <= i <= |callbacks|
        invariant effects == NotifyEach(notifyFn, callbacks[..i])
      {
        assert callbacks[..i + 1][..i] == callbacks[..i];
        match notifyFn {
          case Direct => effects := effects + [Invoke(callbacks[i])];
          case Host(h) => effects := effects + [ToNotifyHook(h, callbacks[i])];
        }
        i := i + 1;
      }
      assert callbacks[..|callbacks|] == callbacks;
    }

    /** A scheduled microtask when the event loop runs it. */
    method ExecuteTask(task: Task) returns (effects: seq<Effect>)
      ensures effects == TaskEffects(task, notifyFn, batchNotifyFn)
    {
      match task {
        case NotifyOne(callback) =>
          effects := [NotifyEffect(notifyFn, callback)];
        case NotifyBatch(callbacks) =>
          match batchNotifyFn {
            case Direct => effects := NotifyQueue(callbacks);
            case Host(h) => effects := [ToBatchHook(h, callbacks)];
          }
      }
    }

    /** `setNotifyFunction(fn)`. */
    method SetNotifyFunction(fn: Hook)
      modifies this`notifyFn
      ensures notifyFn == fn
    {
      notifyFn := fn;
    }

    /** `setBatchNotifyFunction(fn)`. */
    method SetBatchNotifyFunction(fn: Hook)
      modifies this`batchNotifyFn
      ensures batchNotifyFn == fn
    {
      batchNotifyFn := fn;
    }
  }
}
