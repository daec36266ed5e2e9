/**
 Properties of `Batchy.run` and `Batch.run` as a whole: the order in which the
 callback queues run, the state a batch ends in, how the current batch and the
 process name are restored (or not), and what a nested run leaves behind.
 */
module RunnerProofs {
  import opened Wrappers
  import opened Callbacks
  import opened Configuration
  import opened Batches
  import opened Batchy

  /** The events of calling the `kind` queue of `b`. */
  function Events(b: Batch, kind: QueueKind): seq<Event>
  {
    CallEvents(kind, b.id, QueueOf(b, kind))
  }

  /** The object `finish!` leaves behind when it starts from `running` at time `now`. */
  function Closed(b: Batch, now: Time): Batch
  {
    b.(state := if HasErrors(b) then Errored else Success, finishedAt := Some(now), persisted := true)
  }

  /** `s` with the row of `b` written. */
  function Stored(s: Store, b: Batch): Store
  {
    s.(records := s.records[b.id := Persist(b)])
  }

  // ----- the lines after `yield` -----
  // These lemmas speak of the run of each queue (`RunCallbacks`); `RunQueue`'s
  // contract says which entries such a run calls and what it raises.

  /** The run of the `kind` queue of `b` calls every entry and raises nothing. */
  predicate Completes(b: Batch, kind: QueueKind)
  {
    RunCallbacks(b, kind).raised.None?
  }

  // The regrouping and `SameRun` lemmas below are called rather than asserted
  // in place: as lemma calls they add one equation to a long proof, where an
  // inline assert makes the solver work through the sequence axioms there.

  /** Regrouping a concatenation of four event sequences. */
  lemma Regroup(a: seq<Event>, b: seq<Event>, c: seq<Event>, d: seq<Event>)
    ensures a + (b + c + d) == a + b + c + d
  {
  }

  /** Regrouping a concatenation of three event sequences. */
  lemma RegroupThree(a: seq<Event>, b: seq<Event>, c: seq<Event>)
    ensures a + (b + c) == a + b + c
  {
  }

  /** Regrouping a concatenation of five event sequences. */
  lemma RegroupPairs(a: seq<Event>, b: seq<Event>, c: seq<Event>, d: seq<Event>, e: seq<Event>)
    ensures (a + b) + (c + d + e) == a + b + c + d + e
  {
  }

  /** Two objects of the same batch with the same `kind` queue run the same callbacks. */
  lemma SameRun(b: Batch, c: Batch, kind: QueueKind)
    requires b.id == c.id && QueueOf(b, kind) == QueueOf(c, kind)
    ensures RunCallbacks(b, kind) == RunCallbacks(c, kind)
  {
  }

  /** The `rescue` part after a normal return whose success callbacks all complete. */
  lemma RescueNormal(b: Batch)
    requires Completes(b, SuccessQueue)
    ensures Rescue(b, Normal) == Rescued(b, RunCallbacks(b, SuccessQueue).trace, None)
  {
  }

  /**
   The `rescue` part after the block raised `e`: `e` becomes the error and the
   failure queue runs; its exception, if any, is left pending.
   */
  lemma RescueThrew(b: Batch, e: Exception)
    ensures Rescue(b, Threw(e))
         == Rescued(b.(error := Some(ExceptionError(e))), RunCallbacks(b, FailureQueue).trace,
                    RunCallbacks(b, FailureQueue).raised)
  {
    SameRun(b, b.(error := Some(ExceptionError(e))), FailureQueue);
    assert [] + RunCallbacks(b, FailureQueue).trace == RunCallbacks(b, FailureQueue).trace;
  }

  /**
   The `rescue` part after a success callback raised `x`: `x` becomes the error
   and the failure queue runs after the success callbacks that did run.
   */
  lemma RescueSuccessRaised(b: Batch)
    requires !Completes(b, SuccessQueue)
    ensures
      var sq := RunCallbacks(b, SuccessQueue);
      Rescue(b, Normal)
      == Rescued(b.(error := Some(ExceptionError(sq.raised.value))), sq.trace + RunCallbacks(b, FailureQueue).trace,
                 RunCallbacks(b, FailureQueue).raised)
  {
    SameRun(b, b.(error := Some(ExceptionError(RunCallbacks(b, SuccessQueue).raised.value))), FailureQueue);
  }

  /**
   The `ensure` clause when no callback raises: the row is saved finished, the
   queue of the final state and the ensure queue run inside `finish!`, the
   ensure queue runs again, the context is restored, and a pending exception
   propagates.
   */
  lemma EnsureClauseQuiet(w: World, b: Batch, pending: Option<Exception>, prevName: string)
    requires b.state == Running
    requires Completes(b, OutcomeQueue(Closed(b, w.clock).state)) && Completes(b, EnsureQueue)
    ensures
      var b' := Closed(b, w.clock);
      var r := EnsureClause(w, b, pending, prevName);
      && r.outcome == (if pending.Some? then Raised(pending.value) else Completed)
      && r.world == w.(store := Stored(w.store, b'), current := b.parentId, procName := prevName)
      && r.trace == RunCallbacks(b, OutcomeQueue(b'.state)).trace
                    + RunCallbacks(b, EnsureQueue).trace + RunCallbacks(b, EnsureQueue).trace
  {
    var b' := Closed(b, w.clock);
    FinishBang(w.store, b.(finishedAt := Some(w.clock)), w.clock);
    SameRun(b, b', OutcomeQueue(b'.state));
    SameRun(b, b', EnsureQueue);
  }

  /**
   The `ensure` clause when a callback of the final state's queue raises inside
   `finish!`: the row is already saved finished, the exception replaces any
   pending one, and the rest of the clause (ensure callbacks, restoring the
   current batch and the process name) is skipped.
   */
  lemma EnsureClauseOutcomeRaises(w: World, b: Batch, pending: Option<Exception>, prevName: string)
    requires b.state == Running
    requires !Completes(b, OutcomeQueue(Closed(b, w.clock).state))
    ensures
      var b' := Closed(b, w.clock);
      var q := RunCallbacks(b, OutcomeQueue(b'.state));
      var r := EnsureClause(w, b, pending, prevName);
      && r.outcome == Raised(q.raised.value)
      && r.world == w.(store := Stored(w.store, b'))
      && r.trace == q.trace
  {
    var b' := Closed(b, w.clock);
    FinishBang(w.store, b.(finishedAt := Some(w.clock)), w.clock);
    SameRun(b, b', OutcomeQueue(b'.state));
  }

  /**
   The `ensure` clause when an ensure callback raises inside `finish!`: the
   same exception skips the explicit `run_ensure_callbacks` and the restoring
   of the context.
   */
  lemma EnsureClauseEnsureRaises(w: World, b: Batch, pending: Option<Exception>, prevName: string)
    requires b.state == Running
    requires Completes(b, OutcomeQueue(Closed(b, w.clock).state)) && !Completes(b, EnsureQueue)
    ensures
      var b' := Closed(b, w.clock);
      var en := RunCallbacks(b, EnsureQueue);
      var r := EnsureClause(w, b, pending, prevName);
      && r.outcome == Raised(en.raised.value)
      && r.world == w.(store := Stored(w.store, b'))
      && r.trace == RunCallbacks(b, OutcomeQueue(b'.state)).trace + en.trace
  {
    var b' := Closed(b, w.clock);
    FinishBang(w.store, b.(finishedAt := Some(w.clock)), w.clock);
    SameRun(b, b', OutcomeQueue(b'.state));
    SameRun(b, b', EnsureQueue);
  }

  /**
   When no callback raises, the run completes whether or not the block raised:
   the success queue (normal return) or the failure queue (exception) runs, then
   `finish!` runs the queue of its target state and the ensure queue, and the
   ensure queue runs once more; the current batch becomes the parent and the
   process name is put back.
   */
  lemma FinalizeQuiet(w: World, b: Batch, ending: Ending, prevName: string)
    requires b.state == Running
    requires ending.Normal? ==> Completes(b, SuccessQueue)
    requires Completes(b, FailureQueue) && Completes(b, EnsureQueue)
    ensures
      var b1 := if ending.Threw? then b.(error := Some(ExceptionError(ending.exception))) else b;
      var b' := Closed(b1, w.clock);
      var r := Finalize(w, b, ending, prevName);
      && r.outcome == Completed
      && r.world == w.(store := Stored(w.store, b'), current := b.parentId, procName := prevName)
      && r.trace == RunCallbacks(b, if ending.Normal? then SuccessQueue else FailureQueue).trace
                    + RunCallbacks(b, OutcomeQueue(b'.state)).trace
                    + RunCallbacks(b, EnsureQueue).trace + RunCallbacks(b, EnsureQueue).trace
  {
    if ending.Normal? {
      RescueNormal(b);
      EnsureClauseQuiet(w, b, None, prevName);
      var rs := Rescue(b, Normal);
      var r := EnsureClause(w, b, None, prevName);
      assert Finalize(w, b, ending, prevName) == r.(trace := rs.trace + r.trace);
      Regroup(rs.trace, RunCallbacks(b, OutcomeQueue(Closed(b, w.clock).state)).trace,
              RunCallbacks(b, EnsureQueue).trace, RunCallbacks(b, EnsureQueue).trace);
    } else {
      var b1 := b.(error := Some(ExceptionError(ending.exception)));
      RescueThrew(b, ending.exception);
      SameRun(b, b1, FailureQueue);
      SameRun(b, b1, EnsureQueue);
      EnsureClauseQuiet(w, b1, None, prevName);
      var rs := Rescue(b, ending);
      var r := EnsureClause(w, b1, None, prevName);
      assert Finalize(w, b, ending, prevName) == r.(trace := rs.trace + r.trace);
      Regroup(rs.trace, RunCallbacks(b, OutcomeQueue(Closed(b1, w.clock).state)).trace,
              RunCallbacks(b, EnsureQueue).trace, RunCallbacks(b, EnsureQueue).trace);
    }
  }

  /**
   A failure callback that raises (after the block raised `e`) propagates out of
   `run`: the batch is already saved as `errored`, but the ensure callbacks never
   run and neither the current batch nor the process name is restored. The
   failure callbacks up to the raising one run twice, once from `rescue` and once
   from the `errored` transition hook.
   */
  lemma FinalizeFailureCallbackRaises(w: World, b: Batch, e: Exception, prevName: string)
    requires b.state == Running
    requires !Completes(b, FailureQueue)
    ensures
      var fq := RunCallbacks(b, FailureQueue);
      var b' := b.(error := Some(ExceptionError(e)), state := Errored, finishedAt := Some(w.clock), persisted := true);
      var r := Finalize(w, b, Threw(e), prevName);
      && r.outcome == Raised(fq.raised.value)
      && r.world == w.(store := Stored(w.store, b'))
      && r.trace == fq.trace + fq.trace
  {
    var b1 := b.(error := Some(ExceptionError(e)));
    RescueThrew(b, e);
    SameRun(b, b1, FailureQueue);
    EnsureClauseOutcomeRaises(w, b1, RunCallbacks(b, FailureQueue).raised, prevName);
  }

  /**
   A success callback that raises is handled like an exception from the block:
   it becomes the error, the failure callbacks run, and the batch ends `errored`;
   the run still completes and restores the context.
   */
  lemma FinalizeSuccessCallbackRaises(w: World, b: Batch, prevName: string)
    requires b.state == Running
    requires !Completes(b, SuccessQueue)
    requires Completes(b, FailureQueue) && Completes(b, EnsureQueue)
    ensures
      var sq := RunCallbacks(b, SuccessQueue);
      var b' := b.(error := Some(ExceptionError(sq.raised.value)), state := Errored,
                   finishedAt := Some(w.clock), persisted := true);
      var r := Finalize(w, b, Normal, prevName);
      && r.outcome == Completed
      && r.world == w.(store := Stored(w.store, b'), current := b.parentId, procName := prevName)
      && r.trace == sq.trace + RunCallbacks(b, FailureQueue).trace + RunCallbacks(b, FailureQueue).trace
                    + RunCallbacks(b, EnsureQueue).trace + RunCallbacks(b, EnsureQueue).trace
  {
    var b1 := b.(error := Some(ExceptionError(RunCallbacks(b, SuccessQueue).raised.value)));
    RescueSuccessRaised(b);
    SameRun(b, b1, FailureQueue);
    SameRun(b, b1, EnsureQueue);
    EnsureClauseQuiet(w, b1, None, prevName);
    var rs := Rescue(b, Normal);
    var r := EnsureClause(w, b1, None, prevName);
    assert Finalize(w, b, Normal, prevName) == r.(trace := rs.trace + r.trace);
    var sq := RunCallbacks(b, SuccessQueue).trace;
    var fq := RunCallbacks(b, FailureQueue).trace;
    var eq := RunCallbacks(b, EnsureQueue).trace;
    assert rs.trace == sq + fq;
    assert r.trace == fq + eq + eq;
    RegroupPairs(sq, fq, fq, eq, eq);
  }

  /**
   An ensure callback that raises does so first inside `finish!`, after the
   row is saved in its final state: the explicit `run_ensure_callbacks` never
   runs, and neither the current batch nor the process name is restored.
   */
  lemma FinalizeEnsureCallbackRaises(w: World, b: Batch, prevName: string)
    requires b.state == Running
    requires Completes(b, SuccessQueue) && Completes(b, FailureQueue)
    requires !Completes(b, EnsureQueue)
    ensures
      var b' := Closed(b, w.clock);
      var en := RunCallbacks(b, EnsureQueue);
      var r := Finalize(w, b, Normal, prevName);
      && r.outcome == Raised(en.raised.value)
      && r.world == w.(store := Stored(w.store, b'))
      && r.trace == RunCallbacks(b, SuccessQueue).trace + RunCallbacks(b, OutcomeQueue(b'.state)).trace + en.trace
  {
    var b' := Closed(b, w.clock);
    RescueNormal(b);
    assert Completes(b, OutcomeQueue(b'.state));
    EnsureClauseEnsureRaises(w, b, None, prevName);
    RegroupThree(RunCallbacks(b, SuccessQueue).trace, RunCallbacks(b, OutcomeQueue(b'.state)).trace,
                 RunCallbacks(b, EnsureQueue).trace);
  }

  // ----- blocks -----

  /** A block without nested runs: it only registers callbacks, sets the error and looks at `current`. */
  predicate Simple(body: Block)
  {
    match body
    case Returns => true
    case Raises(_) => true
    case RegisterSuccess(_, rest) => Simple(rest)
    case RegisterFailure(_, rest) => Simple(rest)
    case RegisterEnsure(_, rest) => Simple(rest)
    case SetError(_, rest) => Simple(rest)
    case Observe(rest) => Simple(rest)
    case Nested(_, _, _) => false
  }

  /**
   No callback the block registers raises, and, when the process is named
   after batches, every nested run is given a name.
   */
  predicate Calm(body: Block, nameProcess: bool)
  {
    match body
    case Returns => true
    case Raises(_) => true
    case RegisterSuccess(cb, rest) => Invoke(cb).None? && Calm(rest, nameProcess)
    case RegisterFailure(cb, rest) => Invoke(cb).None? && Calm(rest, nameProcess)
    case RegisterEnsure(cb, rest) => Invoke(cb).None? && Calm(rest, nameProcess)
    case SetError(_, rest) => Calm(rest, nameProcess)
    case Observe(rest) => Calm(rest, nameProcess)
    case Nested(opts, inner, rest) =>
      (nameProcess ==> opts.name.Some?) && Calm(inner, nameProcess) && Calm(rest, nameProcess)
  }

  /** The callbacks the block itself registers on the `kind` queue, in order. */
  function Registered(body: Block, kind: QueueKind): seq<Callback>
  {
    match body
    case Returns => []
    case Raises(_) => []
    case RegisterSuccess(cb, rest) => if kind == SuccessQueue then [cb] + Registered(rest, kind) else Registered(rest, kind)
    case RegisterFailure(cb, rest) => if kind == FailureQueue then [cb] + Registered(rest, kind) else Registered(rest, kind)
    case RegisterEnsure(cb, rest) => if kind == EnsureQueue then [cb] + Registered(rest, kind) else Registered(rest, kind)
    case SetError(_, rest) => Registered(rest, kind)
    case Observe(rest) => Registered(rest, kind)
    case Nested(_, _, rest) => Registered(rest, kind)
  }

  /** The error the block leaves, starting from `err`: the last one it sets. */
  function ErrorAfter(body: Block, err: Option<ErrorValue>): Option<ErrorValue>
  {
    match body
    case SetError(e, rest) => ErrorAfter(rest, e)
    case RegisterSuccess(_, rest) => ErrorAfter(rest, err)
    case RegisterFailure(_, rest) => ErrorAfter(rest, err)
    case RegisterEnsure(_, rest) => ErrorAfter(rest, err)
    case Observe(rest) => ErrorAfter(rest, err)
    case Nested(_, _, rest) => ErrorAfter(rest, err)
    case _ => err
  }

  /** How a block without nested runs ends. */
  function EndOf(body: Block): Ending
  {
    match body
    case Returns => Normal
    case Raises(e) => Threw(e)
    case RegisterSuccess(_, rest) => EndOf(rest)
    case RegisterFailure(_, rest) => EndOf(rest)
    case RegisterEnsure(_, rest) => EndOf(rest)
    case SetError(_, rest) => EndOf(rest)
    case Observe(rest) => EndOf(rest)
    case Nested(_, _, rest) => EndOf(rest)
  }

  /** One `SawCurrent(c)` per observation the block makes. */
  function Seen(body: Block, c: Option<BatchId>): seq<Event>
  {
    match body
    case Observe(rest) => [SawCurrent(c)] + Seen(rest, c)
    case RegisterSuccess(_, rest) => Seen(rest, c)
    case RegisterFailure(_, rest) => Seen(rest, c)
    case RegisterEnsure(_, rest) => Seen(rest, c)
    case SetError(_, rest) => Seen(rest, c)
    case Nested(_, _, rest) => Seen(rest, c)
    case _ => []
  }

  /** `b` after the block's registrations and error assignments. */
  function Recorded(b: Batch, body: Block): Batch
  {
    b.(successCallbacks := b.successCallbacks + Registered(body, SuccessQueue),
       failureCallbacks := b.failureCallbacks + Registered(body, FailureQueue),
       ensureCallbacks := b.ensureCallbacks + Registered(body, EnsureQueue),
       error := ErrorAfter(body, b.error))
  }

  /** One step of the block, as `Recorded` sees it. */
  lemma RecordedStep(b: Batch, body: Block)
    ensures body.Returns? || body.Raises? ==> Recorded(b, body) == b
    ensures body.RegisterSuccess? ==> Recorded(b, body) == Recorded(OnSuccess(b, body.callback), body.rest)
    ensures body.RegisterFailure? ==> Recorded(b, body) == Recorded(OnFailure(b, body.callback), body.rest)
    ensures body.RegisterEnsure? ==> Recorded(b, body) == Recorded(OnEnsure(b, body.callback), body.rest)
    ensures body.SetError? ==> Recorded(b, body) == Recorded(b.(error := body.error), body.rest)
    ensures body.Observe? || body.Nested? ==> Recorded(b, body) == Recorded(b, body.rest)
  {
    match body
    case Returns =>
      assert b.successCallbacks + [] == b.successCallbacks;
      assert b.failureCallbacks + [] == b.failureCallbacks;
      assert b.ensureCallbacks + [] == b.ensureCallbacks;
    case Raises(_) =>
      assert b.successCallbacks + [] == b.successCallbacks;
      assert b.failureCallbacks + [] == b.failureCallbacks;
      assert b.ensureCallbacks + [] == b.ensureCallbacks;
    case RegisterSuccess(cb, rest) =>
      assert b.successCallbacks + [cb] + Registered(rest, SuccessQueue) == b.successCallbacks + ([cb] + Registered(rest, SuccessQueue));
    case RegisterFailure(cb, rest) =>
      assert b.failureCallbacks + [cb] + Registered(rest, FailureQueue) == b.failureCallbacks + ([cb] + Registered(rest, FailureQueue));
    case RegisterEnsure(cb, rest) =>
      assert b.ensureCallbacks + [cb] + Registered(rest, EnsureQueue) == b.ensureCallbacks + ([cb] + Registered(rest, EnsureQueue));
    case SetError(_, _) =>
    case Observe(_) =>
    case Nested(_, _, _) =>
  }


  /**
   A block without nested runs leaves the world alone, emits only its
   observations, and leaves the batch with its registrations appended to the
   queues in order and the last error it set.
   */
  lemma {:induction false} ExecSimple(w: World, b: Batch, body: Block)
    requires Simple(body)
    ensures Exec(w, b, body) == ExecResult(w, Recorded(b, body), Seen(body, w.current), EndOf(body))
    decreases body
  {
    match body
    case Returns =>
      assert b.successCallbacks + [] == b.successCallbacks;
      assert b.failureCallbacks + [] == b.failureCallbacks;
      assert b.ensureCallbacks + [] == b.ensureCallbacks;
    case Raises(_) =>
      assert b.successCallbacks + [] == b.successCallbacks;
      assert b.failureCallbacks + [] == b.failureCallbacks;
      assert b.ensureCallbacks + [] == b.ensureCallbacks;
    case RegisterSuccess(cb, rest) =>
      ExecSimple(w, OnSuccess(b, cb), rest);
      assert b.successCallbacks + [cb] + Registered(rest, SuccessQueue) == b.successCallbacks + ([cb] + Registered(rest, SuccessQueue));
    case RegisterFailure(cb, rest) =>
      ExecSimple(w, OnFailure(b, cb), rest);
      assert b.failureCallbacks + [cb] + Registered(rest, FailureQueue) == b.failureCallbacks + ([cb] + Registered(rest, FailureQueue));
    case RegisterEnsure(cb, rest) =>
      ExecSimple(w, OnEnsure(b, cb), rest);
      assert b.ensureCallbacks + [cb] + Registered(rest, EnsureQueue) == b.ensureCallbacks + ([cb] + Registered(rest, EnsureQueue));
    case SetError(err, rest) =>
      ExecSimple(w, b.(error := err), rest);
    case Observe(rest) =>
      ExecSimple(w, b, rest);
  }

  /** A calm block registers only callbacks that return. */
  lemma {:induction false} CalmRegistersQuiet(body: Block, nameProcess: bool, kind: QueueKind)
    requires Calm(body, nameProcess)
    ensures Quiet(Registered(body, kind))
  {
    match body
    case Returns =>
    case Raises(_) =>
    case RegisterSuccess(cb, rest) => CalmRegistersQuiet(rest, nameProcess, kind);
    case RegisterFailure(cb, rest) => CalmRegistersQuiet(rest, nameProcess, kind);
    case RegisterEnsure(cb, rest) => CalmRegistersQuiet(rest, nameProcess, kind);
    case SetError(_, rest) => CalmRegistersQuiet(rest, nameProcess, kind);
    case Observe(rest) => CalmRegistersQuiet(rest, nameProcess, kind);
    case Nested(_, _, rest) => CalmRegistersQuiet(rest, nameProcess, kind);
  }

  // ----- Batchy.run -----

  /** The batch object of a run of `opts` from `w` right after `start!`. */
  function StartedBatch(w: World, opts: Options): Batch
  {
    Batch(w.store.nextId, true, opts.name, opts.guid, Running, Some(w.clock), None, opts.expireAt,
          None, None, [], [], [])
  }

  /** The batch object once it is linked to its parent and saved before `yield` (line 95). */
  function EnteredBatch(w: World, opts: Options): Batch
  {
    StartedBatch(w, opts).(parentId := w.current)
  }

  /** The world at that point: the row saved, the batch current, the process named after it when configured. */
  function EnteredWorld(w: World, opts: Options): World
  {
    var b := EnteredBatch(w, opts);
    var named := NameProcess(ConfigOf(w)) && opts.name.Some?;
    w.(store := Store(w.store.records[b.id := Persist(b)], b.id + 1), current := Some(b.id),
       procName := if named then opts.name.value else w.procName, config := Some(ConfigOf(w)))
  }

  /** What the lines before `yield` keep and set. */
  lemma EnteredFacts(w: World, opts: Options)
    ensures ConfigOf(EnteredWorld(w, opts)) == ConfigOf(w)
    ensures EnteredWorld(w, opts).clock == w.clock
    ensures EnteredWorld(w, opts).current == Some(w.store.nextId)
    ensures EnteredBatch(w, opts).state == Running && EnteredBatch(w, opts).parentId == w.current
    ensures EnteredBatch(w, opts).id == w.store.nextId
    ensures QueueOf(EnteredBatch(w, opts), SuccessQueue) == []
    ensures QueueOf(EnteredBatch(w, opts), FailureQueue) == []
    ensures QueueOf(EnteredBatch(w, opts), EnsureQueue) == []
  {
  }

  /** Writing the row of a batch over an earlier row with the same id. */
  lemma StoredOver(m: map<BatchId, Record>, a: Batch, c: Batch, next: BatchId)
    requires a.id == c.id
    ensures Stored(Store(m[a.id := Persist(a)], next), c) == Store(m[c.id := Persist(c)], next)
  {
    Overwrite(m, a.id, Persist(a), Persist(c));
  }

  /** Writing a key twice keeps only the second value. */
  lemma Overwrite(m: map<BatchId, Record>, k: BatchId, a: Record, c: Record)
    ensures m[k := a][k := c] == m[k := c]
  {
  }

  /**
   Every run gets through `create` and `start!`: duplicates never stop a batch
   (`multiples_allowed` is always true), so the new row is `running` with
   `started_at` stamped, and the `ignored` exit is never taken.
   */
  lemma RunStarts(w: World, opts: Options, body: Block)
    ensures
      var b := StartedBatch(w, opts);
      Run(w, opts, body)
      == AfterStart(w.(store := Store(w.store.records[b.id := Persist(b)], b.id + 1)), b, body)
  {
    CreateStart(w, opts);
  }

  /** `create` then `start!` for a run of `opts` from `w`: the row is saved `running` and nothing is raised or called. */
  lemma CreateStart(w: World, opts: Options)
    ensures
      var c := Create(w.store, opts);
      var b := StartedBatch(w, opts);
      FireBang(StartEvent, c.0, c.1, w.clock) == Fired(Store(w.store.records[b.id := Persist(b)], b.id + 1), b, [], None)
  {
    var (s1, b) := Create(w.store, opts);
    StartBang(s1, b, w.clock);
    Overwrite(w.store.records, b.id, Persist(b), Persist(StartedBatch(w, opts)));
  }

  /**
   After `start!`, a run that can name the process (a name is given, or naming
   is off) names it, links the batch to the current batch as its parent, makes
   it current, saves it, and yields it.
   */
  lemma AfterStartEnters(w: World, opts: Options, body: Block)
    requires NameProcess(ConfigOf(w)) ==> opts.name.Some?
    ensures
      var b := StartedBatch(w, opts);
      AfterStart(w.(store := Store(w.store.records[b.id := Persist(b)], b.id + 1)), b, body)
      == RunBlock(EnteredWorld(w, opts), EnteredBatch(w, opts), body, w.procName)
  {
    var b := StartedBatch(w, opts);
    var w0 := w.(store := Store(w.store.records[b.id := Persist(b)], b.id + 1));
    AfterStartEnter(w0, b, body);
    EnterStarted(w, opts);
  }

  /** `AfterStart` for a batch that is not ignored and can name the process: configure, `Enter`, then the block. */
  lemma AfterStartEnter(w: World, b: Batch, body: Block)
    requires b.state != Ignored
    requires NameProcess(Configure(w).1) ==> b.name.Some?
    ensures
      var e := Enter(Configure(w).0, b, NameProcess(Configure(w).1));
      AfterStart(w, b, body) == RunBlock(e.0, e.1, body, w.procName)
  {
  }

  /** `Enter` applied to the batch `start!` has just saved gives `EnteredWorld` and `EnteredBatch`. */
  lemma EnterStarted(w: World, opts: Options)
    requires NameProcess(ConfigOf(w)) ==> opts.name.Some?
    ensures
      var b := StartedBatch(w, opts);
      var w0 := w.(store := Store(w.store.records[b.id := Persist(b)], b.id + 1));
      var e := Enter(Configure(w0).0, b, NameProcess(Configure(w0).1));
      e.0 == EnteredWorld(w, opts) && e.1 == EnteredBatch(w, opts)
  {
    var b := StartedBatch(w, opts);
    var w0 := w.(store := Store(w.store.records[b.id := Persist(b)], b.id + 1));
    var (w1, cfg) := Configure(w0);
    var (w2, b2) := Enter(w1, b, NameProcess(cfg));
    assert b2 == EnteredBatch(w, opts);
    Overwrite(w.store.records, b.id, Persist(b), Persist(b2));
    assert w2 == EnteredWorld(w, opts);
  }

  /** With `name_process` on, a started batch without a name goes straight to the `rescue` part with a `TypeError`. */
  lemma AfterStartNameless(w: World, b: Batch, body: Block)
    requires NameProcess(ConfigOf(w)) && b.name.None? && b.state == Running
    ensures AfterStart(w, b, body) == Finalize(Configure(w).0, b, Threw(NilNameTypeError), w.procName)
  {
  }

  /** `create`, `start!` and the lines before `yield`, for a run that can name the process. */
  lemma RunEnters(w: World, opts: Options, body: Block)
    requires NameProcess(ConfigOf(w)) ==> opts.name.Some?
    ensures Run(w, opts, body) == RunBlock(EnteredWorld(w, opts), EnteredBatch(w, opts), body, w.procName)
  {
    RunStarts(w, opts, body);
    AfterStartEnters(w, opts, body);
  }

  /** Regrouping a concatenation of five event sequences. */
  lemma RegroupTail(a: seq<Event>, b: seq<Event>, c: seq<Event>, d: seq<Event>, e: seq<Event>)
    ensures a + (b + c + d + e) == a + b + c + d + e
  {
  }

  /** A quiet queue of `b` completes and emits one event per entry. */
  lemma QuietEvents(b: Batch, kind: QueueKind)
    requires Quiet(QueueOf(b, kind))
    ensures Completes(b, kind) && RunCallbacks(b, kind).trace == Events(b, kind)
  {
    RunQuietQueue(kind, b.id, QueueOf(b, kind));
  }

  /**
   `yield` and the rest of `run` for a block without nested runs whose
   callbacks all return: the block's observations, then the callback events in
   the order `FinalizeQuiet` gives; the run completes and the context is restored.
   */
  lemma RunBlockSimple(w: World, b: Batch, body: Block, prevName: string)
    requires b.state == Running && Simple(body)
    requires Quiet(QueueOf(Recorded(b, body), SuccessQueue))
    requires Quiet(QueueOf(Recorded(b, body), FailureQueue))
    requires Quiet(QueueOf(Recorded(b, body), EnsureQueue))
    ensures
      var b1 := Recorded(b, body);
      var end := EndOf(body);
      var b2 := if end.Threw? then b1.(error := Some(ExceptionError(end.exception))) else b1;
      var b' := Closed(b2, w.clock);
      var first := if end.Normal? then SuccessQueue else FailureQueue;
      RunBlock(w, b, body, prevName)
      == RunResult(w.(store := Stored(w.store, b'), current := b.parentId, procName := prevName),
                   Seen(body, w.current) + Events(b1, first) + Events(b1, OutcomeQueue(b'.state))
                   + Events(b1, EnsureQueue) + Events(b1, EnsureQueue),
                   Completed, b.id)
  {
    var b1 := Recorded(b, body);
    var end := EndOf(body);
    ExecSimple(w, b, body);
    QuietEvents(b1, SuccessQueue);
    QuietEvents(b1, FailureQueue);
    QuietEvents(b1, EnsureQueue);
    FinalizeQuiet(w, b1, end, prevName);
    var f := Finalize(w, b1, end, prevName);
    assert RunBlock(w, b, body, prevName) == f.(trace := Seen(body, w.current) + f.trace);
    var b2 := if end.Threw? then b1.(error := Some(ExceptionError(end.exception))) else b1;
    var b' := Closed(b2, w.clock);
    var first := if end.Normal? then SuccessQueue else FailureQueue;
    RegroupTail(Seen(body, w.current), Events(b1, first), Events(b1, OutcomeQueue(b'.state)),
                Events(b1, EnsureQueue), Events(b1, EnsureQueue));
  }

  /** The events of calling, with batch `id`, the callbacks the block registers on the `kind` queue. */
  function Fires(body: Block, id: BatchId, kind: QueueKind): seq<Event>
  {
    CallEvents(kind, id, Registered(body, kind))
  }

  /** A batch with empty queues ends the block holding exactly what the block registered. */
  lemma FreshQueue(b: Batch, body: Block, nameProcess: bool, kind: QueueKind)
    requires QueueOf(b, kind) == [] && Calm(body, nameProcess)
    ensures Quiet(QueueOf(Recorded(b, body), kind))
    ensures Events(Recorded(b, body), kind) == Fires(body, b.id, kind)
  {
    CalmRegistersQuiet(body, nameProcess, kind);
    assert QueueOf(Recorded(b, body), kind) == [] + Registered(body, kind) == Registered(body, kind);
  }

  /** Closing the entered batch and restoring the context leaves one new row, with the id counter advanced. */
  lemma EnteredWorldClosed(w: World, opts: Options, b: Batch)
    requires b.id == w.store.nextId
    ensures
      var ew := EnteredWorld(w, opts);
      ew.(store := Stored(ew.store, b), current := w.current, procName := w.procName)
      == w.(store := Store(w.store.records[b.id := Persist(b)], b.id + 1), config := Some(ConfigOf(w)))
  {
    Overwrite(w.store.records, b.id, Persist(EnteredBatch(w, opts)), Persist(b));
  }

  /** `RunBlockSimple` for the batch `run` just created, whose queues start empty. */
  lemma FreshBlockSimple(w: World, opts: Options, body: Block)
    requires Simple(body) && Calm(body, NameProcess(ConfigOf(w)))
    ensures
      var id := w.store.nextId;
      var eb := EnteredBatch(w, opts);
      var ew := EnteredWorld(w, opts);
      var b1 := Recorded(eb, body);
      var end := EndOf(body);
      var b' := Closed(if end.Threw? then b1.(error := Some(ExceptionError(end.exception))) else b1, w.clock);
      var first := if end.Normal? then SuccessQueue else FailureQueue;
      RunBlock(ew, eb, body, w.procName)
      == RunResult(ew.(store := Stored(ew.store, b'), current := w.current, procName := w.procName),
                   Seen(body, Some(id)) + Fires(body, id, first) + Fires(body, id, OutcomeQueue(b'.state))
                   + Fires(body, id, EnsureQueue) + Fires(body, id, EnsureQueue),
                   Completed, id)
  {
    EnteredFacts(w, opts);
    FreshBlock(EnteredWorld(w, opts), EnteredBatch(w, opts), body, w.procName, NameProcess(ConfigOf(w)));
  }

  /** `RunBlockSimple` for any running batch whose queues start empty and a block whose callbacks all return. */
  lemma FreshBlock(w: World, b: Batch, body: Block, prevName: string, nameProcess: bool)
    requires b.state == Running && Simple(body) && Calm(body, nameProcess)
    requires b.successCallbacks == b.failureCallbacks == b.ensureCallbacks == []
    ensures
      var b1 := Recorded(b, body);
      var end := EndOf(body);
      var b' := Closed(if end.Threw? then b1.(error := Some(ExceptionError(end.exception))) else b1, w.clock);
      var first := if end.Normal? then SuccessQueue else FailureQueue;
      RunBlock(w, b, body, prevName)
      == RunResult(w.(store := Stored(w.store, b'), current := b.parentId, procName := prevName),
                   Seen(body, w.current) + Fires(body, b.id, first) + Fires(body, b.id, OutcomeQueue(b'.state))
                   + Fires(body, b.id, EnsureQueue) + Fires(body, b.id, EnsureQueue),
                   Completed, b.id)
  {
    var b1 := Recorded(b, body);
    var end := EndOf(body);
    var b' := Closed(if end.Threw? then b1.(error := Some(ExceptionError(end.exception))) else b1, w.clock);
    var first := if end.Normal? then SuccessQueue else FailureQueue;
    FreshQueue(b, body, nameProcess, SuccessQueue);
    FreshQueue(b, body, nameProcess, FailureQueue);
    FreshQueue(b, body, nameProcess, EnsureQueue);
    FreshQueue(b, body, nameProcess, first);
    FreshQueue(b, body, nameProcess, OutcomeQueue(b'.state));
    RunBlockSimple(w, b, body, prevName);
  }

  /** A queue of `b` completes exactly when none of its entries raises. */
  lemma CompletesIffQuiet(b: Batch, kind: QueueKind)
    ensures Completes(b, kind) <==> Quiet(QueueOf(b, kind))
  {
    QuietIffNoFirstRaise(QueueOf(b, kind));
  }

  /** A batch with no callbacks at all, finished after an exception: it closes `errored`, emitting nothing. */
  lemma FinalizeUnregistered(w: World, b: Batch, e: Exception, prevName: string)
    requires b.state == Running
    requires b.successCallbacks == b.failureCallbacks == b.ensureCallbacks == []
    ensures
      var b' := Closed(b.(error := Some(ExceptionError(e))), w.clock);
      Finalize(w, b, Threw(e), prevName)
      == RunResult(w.(store := Stored(w.store, b'), current := b.parentId, procName := prevName), [], Completed, b.id)
  {
    assert RunCallbacks(b, FailureQueue) == QueueRun([], None);
    assert RunCallbacks(b, EnsureQueue) == QueueRun([], None);
    FinalizeQuiet(w, b, Threw(e), prevName);
  }

  /** `finish!` from `running` when none of the batch's callbacks raises: the row is closed and both queues run in full. */
  lemma FinishQuiet(s: Store, b: Batch, now: Time)
    requires b.state == Running
    requires Quiet(QueueOf(b, SuccessQueue)) && Quiet(QueueOf(b, FailureQueue)) && Quiet(QueueOf(b, EnsureQueue))
    ensures
      var b' := Closed(b, now);
      FireBang(FinishEvent, s, b, now)
      == Fired(Stored(s, b'), b', Events(b, OutcomeQueue(b'.state)) + Events(b, EnsureQueue), None)
  {
    var b' := Closed(b, now);
    FinishBang(s, b, now);
    if HasErrors(b) {
      QuietEvents(b', FailureQueue);
    } else {
      QuietEvents(b', SuccessQueue);
    }
    QuietEvents(b', EnsureQueue);
  }

  /** Changing only the error of a batch leaves the events of each of its queues alone. */
  lemma SameEvents(b: Batch, c: Batch, kind: QueueKind)
    requires c == b.(error := c.error)
    ensures Events(c, kind) == Events(b, kind)
  {
  }

  /** `finish!` on a fresh batch once a calm block has registered its callbacks and the error is `err`. */
  lemma FinishRecorded(s: Store, b: Batch, body: Block, err: Option<ErrorValue>, now: Time)
    requires b.state == Running
    requires b.successCallbacks == b.failureCallbacks == b.ensureCallbacks == []
    requires Calm(body, false)
    ensures
      var c := Recorded(b, body).(error := err);
      var b' := Closed(c, now);
      FireBang(FinishEvent, s, c, now)
      == Fired(Stored(s, b'), b', Fires(body, b.id, OutcomeQueue(b'.state)) + Fires(body, b.id, EnsureQueue), None)
  {
    var b1 := Recorded(b, body);
    var c := b1.(error := err);
    FreshQueue(b, body, false, SuccessQueue);
    FreshQueue(b, body, false, FailureQueue);
    FreshQueue(b, body, false, EnsureQueue);
    FinishQuiet(s, c, now);
    SameEvents(b1, c, OutcomeQueue(Closed(c, now).state));
    SameEvents(b1, c, EnsureQueue);
  }

  /** For a block without nested runs, `Batch.run` after `start!` is the block's observations followed by `finish!`. */
  lemma ClassRunBlockExec(w: World, b: Batch, body: Block)
    requires Simple(body)
    ensures
      var b1 := Recorded(b, body);
      var end := EndOf(body);
      var b2 := b1.(error := if end.Threw? then Some(TextError(FormatError(end.exception))) else b1.error);
      var fin := FireBang(FinishEvent, w.store, b2, w.clock);
      ClassRunBlock(w, b, body)
      == RunResult(w.(store := fin.store), Seen(body, w.current) + fin.trace,
                   if fin.raised.Some? then Raised(fin.raised.value) else Completed, b.id)
  {
    ExecSimple(w, b, body);
  }

  /**
   The part of `Batch.run` after `start!`, for a calm block without nested
   runs that returns, on a batch with empty queues: `finish!` closes the row and
   runs the queue of the final state, then the ensure queue.
   */
  lemma ClassRunBlockReturns(w: World, b: Batch, body: Block)
    requires b.state == Running
    requires b.successCallbacks == b.failureCallbacks == b.ensureCallbacks == []
    requires Simple(body) && Calm(body, false) && EndOf(body).Normal?
    ensures
      var b' := Closed(Recorded(b, body), w.clock);
      ClassRunBlock(w, b, body)
      == RunResult(w.(store := Stored(w.store, b')),
                   Seen(body, w.current) + Fires(body, b.id, OutcomeQueue(b'.state)) + Fires(body, b.id, EnsureQueue),
                   Completed, b.id)
  {
    ClassRunBlockExec(w, b, body);
    var b1 := Recorded(b, body);
    FinishRecorded(w.store, b, body, b1.error, w.clock);
    assert b1.(error := b1.error) == b1;
    var kind := OutcomeQueue(Closed(b1, w.clock).state);
    RegroupThree(Seen(body, w.current), Fires(body, b.id, kind), Fires(body, b.id, EnsureQueue));
  }

  /**
   The same when the block raises: the exception is stored as its formatted
   text and swallowed, so the row always ends `errored` and the failure queue
   runs, then the ensure queue.
   */
  lemma ClassRunBlockRaises(w: World, b: Batch, body: Block)
    requires b.state == Running
    requires b.successCallbacks == b.failureCallbacks == b.ensureCallbacks == []
    requires Simple(body) && Calm(body, false) && EndOf(body).Threw?
    ensures
      var b' := Recorded(b, body).(error := Some(TextError(FormatError(EndOf(body).exception))), state := Errored,
                                   finishedAt := Some(w.clock), persisted := true);
      ClassRunBlock(w, b, body)
      == RunResult(w.(store := Stored(w.store, b')),
                   Seen(body, w.current) + Fires(body, b.id, FailureQueue) + Fires(body, b.id, EnsureQueue),
                   Completed, b.id)
  {
    ClassRunBlockExec(w, b, body);
    var b1 := Recorded(b, body);
    var e := EndOf(body).exception;
    var err := Some(TextError(FormatError(e)));
    FormattedErrorHasErrors(b1.(error := err), e);
    FinishRecorded(w.store, b, body, err, w.clock);
    RegroupThree(Seen(body, w.current), Fires(body, b.id, FailureQueue), Fires(body, b.id, EnsureQueue));
  }

  /** `Batch.new` followed by `start!` saves the row `running`, stamped, with no parent, and runs no callback. */
  lemma ClassStart(w: World)
    ensures
      var (s0, bn) := NewBatch(w.store, Options(None, None, None));
      var b0 := StartedBatch(w, Options(None, None, None));
      FireBang(StartEvent, s0, bn, w.clock) == Fired(Store(w.store.records[b0.id := Persist(b0)], b0.id + 1), b0, [], None)
  {
    var (s0, bn) := NewBatch(w.store, Options(None, None, None));
    StartBang(s0, bn, w.clock);
  }

  /** `Batch.run` once `start!` succeeds is the rest of the method, after the events of `start!`. */
  lemma ClassRunUnfold(w: World, body: Block)
    ensures
      var (s0, bn) := NewBatch(w.store, Options(None, None, None));
      var st := FireBang(StartEvent, s0, bn, w.clock);
      var r := ClassRunBlock(w.(store := st.store), st.batch, body);
      st.raised.None? ==> ClassRun(w, body) == r.(trace := st.trace + r.trace)
  {
  }

  /** `Batch.run` always gets through `start!`: `multiples_allowed` lets the guid-less batch start. */
  lemma ClassRunStarts(w: World, body: Block)
    ensures
      var b0 := StartedBatch(w, Options(None, None, None));
      ClassRun(w, body)
      == ClassRunBlock(w.(store := Store(w.store.records[w.store.nextId := Persist(b0)], w.store.nextId + 1)), b0, body)
  {
    ClassStart(w);
    ClassRunUnfold(w, body);
    var b0 := StartedBatch(w, Options(None, None, None));
    var r := ClassRunBlock(w.(store := Store(w.store.records[b0.id := Persist(b0)], b0.id + 1)), b0, body);
    assert [] + r.trace == r.trace;
  }

  // ----- nested runs -----

  /**
   The block against the yielded batch, when every callback it registers
   returns and every nested run can name the process: the batch ends with the
   block's registrations and last error, the block ends as `EndOf` says (every
   nested run completes), and the current batch, the process name, the
   configuration and the clock are as they were.
   */
  lemma {:induction false} ExecCalm(w: World, b: Batch, body: Block)
    requires Calm(body, NameProcess(ConfigOf(w)))
    ensures
      var e := Exec(w, b, body);
      && e.batch == Recorded(b, body) && e.ending == EndOf(body)
      && e.world.current == w.current && e.world.procName == w.procName
      && ConfigOf(e.world) == ConfigOf(w) && e.world.clock == w.clock
    decreases body, 0
  {
    RecordedStep(b, body);
    match body
    case Returns =>
    case Raises(_) =>
    case RegisterSuccess(cb, rest) => ExecCalm(w, OnSuccess(b, cb), rest);
    case RegisterFailure(cb, rest) => ExecCalm(w, OnFailure(b, cb), rest);
    case RegisterEnsure(cb, rest) => ExecCalm(w, OnEnsure(b, cb), rest);
    case SetError(err, rest) => ExecCalm(w, b.(error := err), rest);
    case Observe(rest) => ExecCalm(w, b, rest);
    case Nested(opts, inner, rest) =>
      RunCalm(w, opts, inner);
      ExecCalm(Run(w, opts, inner).world, b, rest);
  }

  /** `RunBlock` for a calm block whose batch's queues are quiet once the block has registered its callbacks. */
  lemma {:induction false} RunBlockCalm(w: World, b: Batch, body: Block, prevName: string)
    requires b.state == Running && Calm(body, NameProcess(ConfigOf(w)))
    requires Quiet(QueueOf(Recorded(b, body), SuccessQueue))
    requires Quiet(QueueOf(Recorded(b, body), FailureQueue))
    requires Quiet(QueueOf(Recorded(b, body), EnsureQueue))
    ensures
      var b1 := Recorded(b, body);
      var end := EndOf(body);
      var b' := Closed(if end.Threw? then b1.(error := Some(ExceptionError(end.exception))) else b1, w.clock);
      var r := RunBlock(w, b, body, prevName);
      && r.outcome == Completed
      && r.world.current == b.parentId && r.world.procName == prevName
      && ConfigOf(r.world) == ConfigOf(w) && r.world.clock == w.clock
      && b.id in r.world.store.records && r.world.store.records[b.id] == Persist(b')
    decreases body, 1
  {
    var b1 := Recorded(b, body);
    ExecCalm(w, b, body);
    QuietEvents(b1, SuccessQueue);
    QuietEvents(b1, FailureQueue);
    QuietEvents(b1, EnsureQueue);
    FinalizeQuiet(Exec(w, b, body).world, b1, EndOf(body), prevName);
  }

  /**
   `Batchy.run` when every callback returns and every run that names the
   process is given a name, however deeply runs are nested: the run
   completes, the current batch and the process name are back to what they
   were, and the run's row is closed with the batch current at the call as
   its parent.
   */
  lemma {:induction false} RunCalm(w: World, opts: Options, body: Block)
    requires NameProcess(ConfigOf(w)) ==> opts.name.Some?
    requires Calm(body, NameProcess(ConfigOf(w)))
    ensures
      var id := w.store.nextId;
      var b1 := Recorded(EnteredBatch(w, opts), body);
      var end := EndOf(body);
      var b' := Closed(if end.Threw? then b1.(error := Some(ExceptionError(end.exception))) else b1, w.clock);
      var r := Run(w, opts, body);
      && r.outcome == Completed
      && r.world.current == w.current && r.world.procName == w.procName
      && ConfigOf(r.world) == ConfigOf(w) && r.world.clock == w.clock
      && id in r.world.store.records && r.world.store.records[id] == Persist(b')
      && b'.parentId == w.current && (b'.state == Success || b'.state == Errored)
    decreases body, 2
  {
    var np := NameProcess(ConfigOf(w));
    var eb := EnteredBatch(w, opts);
    EnteredFacts(w, opts);
    RunEnters(w, opts, body);
    FreshQueue(eb, body, np, SuccessQueue);
    FreshQueue(eb, body, np, FailureQueue);
    FreshQueue(eb, body, np, EnsureQueue);
    RunBlockCalm(EnteredWorld(w, opts), eb, body, w.procName);
  }
}
