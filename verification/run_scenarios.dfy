/**
 Whole calls of `Batchy.run` and `Batch.run`, from `create` to the end of the
 `ensure` clause, for the common kinds of block.
 */
module RunScenarios {
  import opened Wrappers
  import opened Callbacks
  import opened Configuration
  import opened Batches
  import opened Batchy
  import opened RunnerProofs

  /**
   `Batchy.run` with a block without nested runs whose callbacks all return:
   the run completes; the row ends `errored` when the block raised (with that
   exception as its error) or left a non-blank error, `success` otherwise; its
   parent is the batch that was current; the block sees the new batch as
   current; the callbacks run in the order success-or-failure, then the final
   state's queue and the ensure queue inside `finish!`, then the ensure queue
   again; and the current batch and the process name are back to what they were.
   */
  lemma RunSimple(w: World, opts: Options, body: Block)
    requires NameProcess(ConfigOf(w)) ==> opts.name.Some?
    requires Simple(body) && Calm(body, NameProcess(ConfigOf(w)))
    ensures
      var id := w.store.nextId;
      var end := EndOf(body);
      var b1 := Recorded(EnteredBatch(w, opts), body);
      var b' := Closed(if end.Threw? then b1.(error := Some(ExceptionError(end.exception))) else b1, w.clock);
      var first := if end.Normal? then SuccessQueue else FailureQueue;
      Run(w, opts, body)
      == RunResult(w.(store := Store(w.store.records[id := Persist(b')], id + 1), config := Some(ConfigOf(w))),
                   Seen(body, Some(id)) + Fires(body, id, first) + Fires(body, id, OutcomeQueue(b'.state))
                   + Fires(body, id, EnsureQueue) + Fires(body, id, EnsureQueue),
                   Completed, id)
  {
    var id := w.store.nextId;
    var eb := EnteredBatch(w, opts);
    var ew := EnteredWorld(w, opts);
    var b1 := Recorded(eb, body);
    var end := EndOf(body);
    var b' := Closed(if end.Threw? then b1.(error := Some(ExceptionError(end.exception))) else b1, w.clock);
    RunEnters(w, opts, body);
    FreshBlockSimple(w, opts, body);
    EnteredWorldClosed(w, opts, b');
  }

  /**
   A failure callback that raises while the block's exception is rescued
   escapes from the `ensure` clause's point of view too early: the row is
   closed `errored` with the block's exception, but the current batch and the
   process name are never restored.
   */
  lemma RunFailureCallbackRaises(w: World, opts: Options, body: Block)
    requires NameProcess(ConfigOf(w)) ==> opts.name.Some?
    requires Simple(body) && EndOf(body).Threw?
    requires !Quiet(Registered(body, FailureQueue))
    ensures
      var id := w.store.nextId;
      var b1 := Recorded(EnteredBatch(w, opts), body);
      var r := Run(w, opts, body);
      && r.outcome.Raised?
      && Some(r.outcome.exception) == RunQueue(FailureQueue, id, Registered(body, FailureQueue)).raised
      && r.world.current == Some(id)
      && r.world.procName == (if NameProcess(ConfigOf(w)) then opts.name.value else w.procName)
      && id in r.world.store.records
      && r.world.store.records[id].state == Errored
      && r.world.store.records[id].error == Some(ExceptionError(EndOf(body).exception))
  {
    var eb := EnteredBatch(w, opts);
    var ew := EnteredWorld(w, opts);
    var b1 := Recorded(eb, body);
    EnteredFacts(w, opts);
    RunEnters(w, opts, body);
    ExecSimple(ew, eb, body);
    assert QueueOf(b1, FailureQueue) == [] + Registered(body, FailureQueue) == Registered(body, FailureQueue);
    CompletesIffQuiet(b1, FailureQueue);
    FinalizeFailureCallbackRaises(ew, b1, EndOf(body).exception, w.procName);
  }

  /**
   When `name_process` is on and the run has no name, assigning the process
   name raises before the batch is linked or made current; the exception is
   rescued like one from the block: the row is closed `errored` with it, the
   block never runs, the run completes, and the current batch becomes the
   batch's parent, which is `nil`, even when the run was nested.
   */
  lemma NamelessRun(w: World, opts: Options, body: Block)
    requires NameProcess(ConfigOf(w)) && opts.name.None?
    ensures
      var id := w.store.nextId;
      var b' := Closed(StartedBatch(w, opts).(error := Some(ExceptionError(NilNameTypeError))), w.clock);
      Run(w, opts, body)
      == RunResult(w.(store := Store(w.store.records[id := Persist(b')], id + 1), current := None,
                      config := Some(ConfigOf(w))),
                   [], Completed, id)
  {
    RunStarts(w, opts, body);
    NamelessStarted(w, opts, body);
  }

  /** `NamelessAfterStart` for the batch `create` and `start!` have just made. */
  lemma NamelessStarted(w: World, opts: Options, body: Block)
    requires NameProcess(ConfigOf(w)) && opts.name.None?
    ensures
      var id := w.store.nextId;
      var b := StartedBatch(w, opts);
      var b' := Closed(b.(error := Some(ExceptionError(NilNameTypeError))), w.clock);
      AfterStart(w.(store := Store(w.store.records[b.id := Persist(b)], b.id + 1)), b, body)
      == RunResult(w.(store := Store(w.store.records[id := Persist(b')], id + 1), current := None,
                      config := Some(ConfigOf(w))),
                   [], Completed, id)
  {
    var b := StartedBatch(w, opts);
    assert b.name.None? && b.parentId.None? && b.state == Running && b.id == w.store.nextId;
    assert b.successCallbacks == b.failureCallbacks == b.ensureCallbacks == [];
    NamelessAfterStart(w, w.(store := Store(w.store.records[b.id := Persist(b)], b.id + 1)), b, body);
  }

  /** `NamelessRun` from the state `start!` leaves behind, for any started batch without a parent. */
  lemma NamelessAfterStart(w0: World, w: World, b: Batch, body: Block)
    requires NameProcess(ConfigOf(w0)) && b.name.None? && b.parentId.None? && b.state == Running
    requires b.successCallbacks == b.failureCallbacks == b.ensureCallbacks == []
    requires b.id == w0.store.nextId
    requires w == w0.(store := Store(w0.store.records[b.id := Persist(b)], b.id + 1))
    ensures
      var id := w0.store.nextId;
      var b' := Closed(b.(error := Some(ExceptionError(NilNameTypeError))), w0.clock);
      AfterStart(w, b, body)
      == RunResult(w0.(store := Store(w0.store.records[id := Persist(b')], id + 1), current := None,
                       config := Some(ConfigOf(w0))),
                   [], Completed, id)
  {
    AfterStartNameless(w, b, body);
    FinalizeUnregistered(Configure(w).0, b, NilNameTypeError, w.procName);
    StoredOver(w0.store.records, b, Closed(b.(error := Some(ExceptionError(NilNameTypeError))), w0.clock), b.id + 1);
  }

  /** `ClassRunBlockReturns` when the batch's row was the last one written. */
  lemma ClassRunBlockReturnsOver(w0: World, w: World, b: Batch, body: Block)
    requires b.state == Running
    requires b.successCallbacks == b.failureCallbacks == b.ensureCallbacks == []
    requires Simple(body) && Calm(body, false) && EndOf(body).Normal?
    requires b.id == w0.store.nextId
    requires w == w0.(store := Store(w0.store.records[w0.store.nextId := Persist(b)], w0.store.nextId + 1))
    ensures
      var id := w0.store.nextId;
      var b' := Closed(Recorded(b, body), w0.clock);
      ClassRunBlock(w, b, body)
      == RunResult(w0.(store := Store(w0.store.records[id := Persist(b')], id + 1)),
                   Seen(body, w0.current) + Fires(body, id, OutcomeQueue(b'.state)) + Fires(body, id, EnsureQueue),
                   Completed, id)
  {
    ClassRunBlockReturns(w, b, body);
    StoredOver(w0.store.records, b, Closed(Recorded(b, body), w.clock), b.id + 1);
  }

  /** `ClassRunBlockRaises` when the batch's row was the last one written. */
  lemma ClassRunBlockRaisesOver(w0: World, w: World, b: Batch, body: Block)
    requires b.state == Running
    requires b.successCallbacks == b.failureCallbacks == b.ensureCallbacks == []
    requires Simple(body) && Calm(body, false) && EndOf(body).Threw?
    requires b.id == w0.store.nextId
    requires w == w0.(store := Store(w0.store.records[w0.store.nextId := Persist(b)], w0.store.nextId + 1))
    ensures
      var id := w0.store.nextId;
      var b' := Recorded(b, body).(error := Some(TextError(FormatError(EndOf(body).exception))), state := Errored,
                                   finishedAt := Some(w0.clock), persisted := true);
      ClassRunBlock(w, b, body)
      == RunResult(w0.(store := Store(w0.store.records[id := Persist(b')], id + 1)),
                   Seen(body, w0.current) + Fires(body, id, FailureQueue) + Fires(body, id, EnsureQueue),
                   Completed, id)
  {
    ClassRunBlockRaises(w, b, body);
    StoredOver(w0.store.records, b, Recorded(b, body).(error := Some(TextError(FormatError(EndOf(body).exception))), state := Errored,
                                        finishedAt := Some(w.clock), persisted := true), b.id + 1);
  }

  /**
   The class-level `Batch.run` with a block without nested runs that returns
   and whose callbacks all return: the row is closed by `finish!` alone, which
   runs the queue of the final state and then the ensure queue, once each; the
   current batch and the process name are untouched.
   */
  lemma ClassRunReturns(w: World, body: Block)
    requires Simple(body) && Calm(body, false) && EndOf(body).Normal?
    ensures
      var id := w.store.nextId;
      var b' := Closed(Recorded(StartedBatch(w, Options(None, None, None)), body), w.clock);
      ClassRun(w, body)
      == RunResult(w.(store := Store(w.store.records[id := Persist(b')], id + 1)),
                   Seen(body, w.current) + Fires(body, id, OutcomeQueue(b'.state)) + Fires(body, id, EnsureQueue),
                   Completed, id)
  {
    var b0 := StartedBatch(w, Options(None, None, None));
    ClassRunStarts(w, body);
    ClassRunBlockReturnsOver(w, w.(store := Store(w.store.records[w.store.nextId := Persist(b0)], w.store.nextId + 1)), b0, body);
  }

  /**
   The class-level `Batch.run` with a block without nested runs that raises:
   the exception is stored as its formatted text and swallowed, the run
   completes, the row ends `errored`, the success queue never runs, the failure
   queue and then the ensure queue run once each, and the current batch and
   the process name are untouched.
   */
  lemma ClassRunRaises(w: World, body: Block)
    requires Simple(body) && Calm(body, false) && EndOf(body).Threw?
    ensures
      var id := w.store.nextId;
      var b' := Recorded(StartedBatch(w, Options(None, None, None)), body)
                  .(error := Some(TextError(FormatError(EndOf(body).exception))), state := Errored,
                    finishedAt := Some(w.clock), persisted := true);
      ClassRun(w, body)
      == RunResult(w.(store := Store(w.store.records[id := Persist(b')], id + 1)),
                   Seen(body, w.current) + Fires(body, id, FailureQueue) + Fires(body, id, EnsureQueue),
                   Completed, id)
  {
    var b0 := StartedBatch(w, Options(None, None, None));
    ClassRunStarts(w, body);
    ClassRunBlockRaisesOver(w, w.(store := Store(w.store.records[w.store.nextId := Persist(b0)], w.store.nextId + 1)), b0, body);
  }

  /**
   The state a calm run's row ends in: `errored`, holding the exception, when
   the block raised, which `run` then swallows; after a normal return, the
   error the block left and `errored` exactly when that error is present and
   not blank, `success` otherwise.
   */
  lemma RunEndState(w: World, opts: Options, body: Block)
    requires NameProcess(ConfigOf(w)) ==> opts.name.Some?
    requires Calm(body, NameProcess(ConfigOf(w)))
    ensures
      var id := w.store.nextId;
      var r := Run(w, opts, body);
      && r.outcome == Completed
      && id in r.world.store.records
      && (EndOf(body).Threw? ==>
            && r.world.store.records[id].state == Errored
            && r.world.store.records[id].error == Some(ExceptionError(EndOf(body).exception)))
      && (EndOf(body).Normal? ==>
            && r.world.store.records[id].error == ErrorAfter(body, None)
            && (r.world.store.records[id].state == Errored <==> HasErrors(Recorded(EnteredBatch(w, opts), body))))
  {
    RunCalm(w, opts, body);
    EnteredFacts(w, opts);
  }
}
