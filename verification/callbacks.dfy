/**
 Callback queues of a batch (`on_success`, `on_failure`, `on_ensure`) and the
 `run_*_callbacks` dispatch loop of lib/batchy/batch.rb.

 A callback is a Ruby block. Its body is not modelled: a callback either
 returns or raises, and it does the same every time it is called. A
 registration made without a block appends `nil` to the queue, and calling
 that entry raises `NoMethodError`.
 */
module Callbacks {
  import opened Wrappers

  type BatchId = nat
  type CallbackId = nat

  /** A raised Ruby exception: its message and the backtrace taken when it was raised. */
  datatype Exception = Exception(message: string, backtrace: seq<string>)

  /** What `nil.call(batch)` raises. */
  const NoMethodError := Exception("undefined method `call' for nil:NilClass", [])

  /** A queue entry: a block with an identity and the exception it raises (if any), or `nil`. */
  datatype Callback = Proc(id: CallbackId, raises: Option<Exception>) | NilCallback

  datatype QueueKind = SuccessQueue | FailureQueue | EnsureQueue

  /** Observable events of a run, in the order they happen. */
  datatype Event =
    | Called(queue: QueueKind, batch: BatchId, callback: CallbackId)
    | SawCurrent(current: Option<BatchId>)

  /** The exception raised by calling one entry, if any. */
  function Invoke(cb: Callback): Option<Exception>
  {
    match cb
    case Proc(_, raises) => raises
    case NilCallback => Some(NoMethodError)
  }

  /** No entry of the queue raises when called. */
  predicate Quiet(q: seq<Callback>)
  {
    forall i :: 0 <= i < |q| ==> Invoke(q[i]).None?
  }

  /** The events of calling every entry of `q` once, in order; a `nil` entry runs no code. */
  function CallEvents(kind: QueueKind, batch: BatchId, q: seq<Callback>): seq<Event>
  {
    if |q| == 0 then []
    else
      (if q[0].Proc? then [Called(kind, batch, q[0].id)] else [])
      + CallEvents(kind, batch, q[1..])
  }

  /** Calling the entries of `a + b` emits the events of `a`, then those of `b`. */
  lemma {:induction false} CallEventsAppend(kind: QueueKind, batch: BatchId, a: seq<Callback>, b: seq<Callback>)
    ensures CallEvents(kind, batch, a + b) == CallEvents(kind, batch, a) + CallEvents(kind, batch, b)
  {
    if |a| == 0 {
      assert a + b == b;
    } else {
      assert (a + b)[0] == a[0];
      assert (a + b)[1..] == a[1..] + b;
      CallEventsAppend(kind, batch, a[1..], b);
    }
  }

  /** Reference definition: the index of the first entry that raises, `|q|` when none does. */
  function FirstRaise(q: seq<Callback>): (k: nat)
    ensures k <= |q|
    ensures Quiet(q[..k])
    ensures k < |q| ==> Invoke(q[k]).Some?
  {
    if |q| == 0 then 0
    else if Invoke(q[0]).Some? then 0
    else
      var k' := FirstRaise(q[1..]);
      assert q[..k' + 1] == [q[0]] + q[1..][..k'];
      1 + k'
  }

  /** A queue is quiet exactly when no entry raises first. */
  lemma QuietIffNoFirstRaise(q: seq<Callback>)
    ensures Quiet(q) <==> FirstRaise(q) == |q|
  {
    if FirstRaise(q) == |q| {
      assert q[..|q|] == q;
    }
  }

  datatype QueueRun = QueueRun(trace: seq<Event>, raised: Option<Exception>)

  /**
   `run_*_callbacks`: call every entry with the batch, in registration order.
   An exception stops the loop and propagates; the entries after it are not called.
   */
  function RunQueue(kind: QueueKind, batch: BatchId, q: seq<Callback>): (r: QueueRun)
    ensures FirstRaise(q) == |q| ==> r.raised.None? && r.trace == CallEvents(kind, batch, q)
    ensures FirstRaise(q) < |q| ==>
              r.raised == Invoke(q[FirstRaise(q)])
              && r.trace == CallEvents(kind, batch, q[..FirstRaise(q) + 1])
  {
    if |q| == 0 then QueueRun([], None)
    else
      var here := if q[0].Proc? then [Called(kind, batch, q[0].id)] else [];
      match Invoke(q[0])
      case Some(e) =>
        assert q[..1][1..] == [];
        QueueRun(here, Some(e))
      case None =>
        var rest := RunQueue(kind, batch, q[1..]);
        var k := FirstRaise(q[1..]);
        assert k < |q[1..]| ==> q[..k + 2][1..] == q[1..][..k + 1];
        assert q[..k + 1][1..] == q[1..][..k];
        QueueRun(here + rest.trace, rest.raised)
  }

  /** A quiet queue runs to completion, emitting one event per entry, in order. */
  lemma RunQuietQueue(kind: QueueKind, batch: BatchId, q: seq<Callback>)
    requires Quiet(q)
    ensures RunQueue(kind, batch, q) == QueueRun(CallEvents(kind, batch, q), None)
  {
    QuietIffNoFirstRaise(q);
  }
}
