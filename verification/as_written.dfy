/**
 Two places where lib/batchy/batch.rb and lib/batchy.rb, read as written,
 cannot do what their comments and specs describe. Each is modelled here as
 written, next to lemmas that exhibit the difference; the rest of the model
 uses the evidently intended behaviour (`Batches.Create`, `Batchy.Enter`,
 `Batchy.EnsureClause`).

 (1) `Batch#initialize` (lib/batchy/batch.rb:49-52) declares no parameters.
     `Batch.create options` (lib/batchy.rb:78) hands the attributes to `new`,
     which refuses them with `ArgumentError`: `Batchy.run` never creates a row.
     `Batch.run` calls `new` without arguments and is not affected.
 (2) `Batch` declares no `belongs_to` or `has_many` (the table's
     self-reference column is `batch_id`), so `batch.parent = ...`
     (lib/batchy.rb:88) and `batch.parent` (lib/batchy.rb:111) raise
     `NoMethodError`. The second one replaces whatever the run was about to
     return or raise, and the current batch and `$0` are never restored.
     The members for (2) take `create` as intended, so that (1) does not hide (2).
 */
module AsWritten {
  import opened Wrappers
  import opened Callbacks
  import opened Configuration
  import opened Batches
  import opened Batchy
  import opened RunnerProofs

  // ----- (1) the arity of `initialize` -----

  /** Ruby's refusal of an argument passed to a method that declares none. */
  const InitializeArityError := Exception("wrong number of arguments (expected 0)", [])

  /** What `Batch.new(*args)` leaves: the store and the new object, or the exception it raised. */
  datatype Built = Built(store: Store, batch: Batch) | NewRaised(exception: Exception)

  /**
   `Batch.new(*args)` with the `initialize` of lib/batchy/batch.rb:49-52: any
   argument is refused before ActiveRecord sees it. Without arguments the
   object has no name, guid or expiry, is in state `new`, and takes the next id.
   */
  function NewWithArgs(s: Store, args: seq<Options>): (r: Built)
    ensures r.NewRaised? <==> |args| > 0
    ensures r.NewRaised? ==> r.exception == InitializeArityError
    ensures r.Built? ==> r.store.records == s.records && r.store.nextId == s.nextId + 1
    ensures r.Built? ==> r.batch.id == s.nextId && !r.batch.persisted && r.batch.state == New
    ensures r.Built? ==> r.batch.name.None? && r.batch.guid.None? && r.batch.expireAt.None?
  {
    if |args| > 0 then NewRaised(InitializeArityError)
    else
      var (s1, b) := NewBatch(s, Options(None, None, None));
      Built(s1, b)
  }

  /** `Batch.create options` as written: `new(options)`, then `save!` on what was built. */
  function CreateAsWritten(s: Store, opts: Options): (r: Built)
    ensures r == NewRaised(InitializeArityError)
  {
    match NewWithArgs(s, [opts])
    case NewRaised(e) => NewRaised(e)
    case Built(s1, b) =>
      var (s2, b2) := Save(s1, b);
      Built(s2, b2)
  }

  /**
   `Batchy.run` as written: `create` is its first line, and it raises, so the
   world is untouched, nothing is called and the block never runs.
   */
  function RunAsWritten(w: World, opts: Options, body: Block): (r: RunResult)
    ensures r.world == w && r.trace == [] && r.outcome == Raised(InitializeArityError)
    ensures r.id == w.store.nextId
  {
    match CreateAsWritten(w.store, opts)
    case NewRaised(e) => RunResult(w, [], Raised(e), w.store.nextId)
    case Built(s1, b) => StartThenRun(w, s1, b, body)
  }

  /** The rest of `Batchy.run` after `create`: `start!`, then `AfterStart`. */
  function StartThenRun(w: World, s1: Store, b: Batch, body: Block): RunResult
  {
    var st := FireBang(StartEvent, s1, b, w.clock);
    if st.raised.Some? then RunResult(w.(store := st.store), st.trace, Raised(st.raised.value), b.id)
    else AfterStart(w.(store := st.store), st.batch, body)
  }

  /**
   For every input, the run as written raises `ArgumentError` and saves no
   row, while the intended run takes the next id: the two never agree.
   */
  lemma RunNeverCreates(w: World, opts: Options, body: Block)
    ensures RunAsWritten(w, opts, body).outcome == Raised(InitializeArityError)
    ensures RunAsWritten(w, opts, body).world.store == w.store
    ensures Run(w, opts, body).world.store.nextId > RunAsWritten(w, opts, body).world.store.nextId
    ensures Run(w, opts, body) != RunAsWritten(w, opts, body)
  {
  }

  /** `Batch.run`'s `self.new` passes no argument: it builds exactly the batch `Batchy.ClassRun` starts. */
  lemma ClassNewBuilds(s: Store)
    ensures NewWithArgs(s, []) == Built(NewBatch(s, Options(None, None, None)).0, NewBatch(s, Options(None, None, None)).1)
  {
  }

  // ----- (2) the missing `parent` association -----

  /** What `batch.parent = ...` raises (line 88). */
  const NoParentWriter := Exception("undefined method `parent=' for Batchy::Batch", [])

  /** What `batch.parent` raises (line 111). */
  const NoParentReader := Exception("undefined method `parent' for Batchy::Batch", [])

  /** `Batchy.run` with `create` taking its attributes, and lines 88 and 111 as written. */
  function RunNoParent(w: World, opts: Options, body: Block): (r: RunResult)
    ensures r.id == w.store.nextId
    ensures w.current.Some? ==> r.world.current == w.current
    decreases body, 3
  {
    var (s1, b) := Create(w.store, opts);
    var st := FireBang(StartEvent, s1, b, w.clock);
    if st.raised.Some? then RunResult(w.(store := st.store), st.trace, Raised(st.raised.value), b.id)
    else AfterStartNoParent(w.(store := st.store), st.batch, body)
  }

  /**
   Everything after `start!`, as written. A run that goes past the ignored
   exit always raises. When a batch is current it stays current; otherwise
   a run that can name the process leaves its own batch current.
   */
  function AfterStartNoParent(w: World, b: Batch, body: Block): (r: RunResult)
    ensures b.state == Ignored ==> r == RunResult(w, [], Skipped, b.id)
    ensures b.state != Ignored ==> r.outcome.Raised?
    ensures r.id == b.id
    ensures w.current.Some? ==> r.world.current == w.current
    ensures b.state != Ignored && w.current.None? && (NameProcess(ConfigOf(w)) ==> b.name.Some?)
            ==> r.world.current == Some(b.id)
    decreases body, 2
  {
    if b.state == Ignored then RunResult(w, [], Skipped, b.id)
    else
      var prevName := w.procName;
      var (w1, cfg) := Configure(w);
      if NameProcess(cfg) && b.name.None? then
        FinalizeNoParent(w1, b, Threw(NilNameTypeError), prevName)
      else
        var (w2, b2, raised) := EnterNoParent(w1, b, NameProcess(cfg));
        if raised.Some? then FinalizeNoParent(w2, b2, Threw(raised.value), prevName)
        else RunBlockNoParent(w2, b2, body, prevName)
  }

  /**
   Lines 83-95 as written: name the process; then, when a batch is current,
   `batch.parent =` raises before the batch becomes current or is saved.
   With no current batch the lines do what the intended `Enter` does.
   */
  function EnterNoParent(w: World, b: Batch, nameProcess: bool): (r: (World, Batch, Option<Exception>))
    requires nameProcess ==> b.name.Some?
    ensures r.0.procName == if nameProcess then b.name.value else w.procName
    ensures r.2.Some? <==> w.current.Some?
    ensures w.current.Some? ==> r.2 == Some(NoParentWriter) && r.1 == b && r.0 == w.(procName := r.0.procName)
    ensures w.current.None? ==> (r.0, r.1) == Enter(w, b, nameProcess)
  {
    var w1 := if nameProcess then w.(procName := b.name.value) else w;
    if w.current.Some? then (w1, b, Some(NoParentWriter))
    else
      var (s, b2) := Save(w1.store, b);
      (w1.(current := Some(b.id), store := s), b2, None)
  }

  /** `yield batch` and everything after it, as written. */
  function RunBlockNoParent(w: World, b: Batch, body: Block, prevName: string): (r: RunResult)
    ensures r.outcome.Raised?
    ensures r.id == b.id
    ensures w.current.Some? ==> r.world.current == w.current
    decreases body, 1
  {
    var e := ExecNoParent(w, b, body);
    var f := FinalizeNoParent(e.world, e.batch, e.ending, prevName);
    f.(trace := e.trace + f.trace)
  }

  /**
   The block, with nested runs as written. While a batch is current, no
   nested run changes the current batch.
   */
  function ExecNoParent(w: World, b: Batch, body: Block): (r: ExecResult)
    ensures r.batch.id == b.id
    ensures w.current.Some? ==> r.world.current == w.current
    decreases body, 0
  {
    match body
    case Returns => ExecResult(w, b, [], Normal)
    case Raises(e) => ExecResult(w, b, [], Threw(e))
    case RegisterSuccess(cb, rest) => ExecNoParent(w, OnSuccess(b, cb), rest)
    case RegisterFailure(cb, rest) => ExecNoParent(w, OnFailure(b, cb), rest)
    case RegisterEnsure(cb, rest) => ExecNoParent(w, OnEnsure(b, cb), rest)
    case SetError(err, rest) => ExecNoParent(w, b.(error := err), rest)
    case Observe(rest) =>
      var r := ExecNoParent(w, b, rest);
      r.(trace := [SawCurrent(w.current)] + r.trace)
    case Nested(opts, inner, rest) =>
      var n := RunNoParent(w, opts, inner);
      if n.outcome.Raised? then ExecResult(n.world, b, n.trace, Threw(n.outcome.exception))
      else
        var r := ExecNoParent(n.world, b, rest);
        r.(trace := n.trace + r.trace)
  }

  /** A block without nested runs does exactly what `Batchy.Exec` does. */
  lemma {:induction false} ExecNoParentSimple(w: World, b: Batch, body: Block)
    requires Simple(body)
    ensures ExecNoParent(w, b, body) == Exec(w, b, body)
    decreases body
  {
    match body
    case Returns =>
    case Raises(_) =>
    case RegisterSuccess(cb, rest) => ExecNoParentSimple(w, OnSuccess(b, cb), rest);
    case RegisterFailure(cb, rest) => ExecNoParentSimple(w, OnFailure(b, cb), rest);
    case RegisterEnsure(cb, rest) => ExecNoParentSimple(w, OnEnsure(b, cb), rest);
    case SetError(err, rest) => ExecNoParentSimple(w, b.(error := err), rest);
    case Observe(rest) => ExecNoParentSimple(w, b, rest);
  }

  /** The `rescue` part, then the `ensure` clause as written. */
  function FinalizeNoParent(w: World, b: Batch, ending: Ending, prevName: string): (r: RunResult)
    ensures r.outcome.Raised? && r.id == b.id
    ensures r.world == w.(store := r.world.store)
  {
    var rs := Rescue(b, ending);
    var r := EnsureClauseNoParent(w, rs.batch, rs.pending, prevName);
    r.(trace := rs.trace + r.trace)
  }

  /**
   The `ensure` clause as written: up to line 108 it does what the intended
   clause does; then `batch.parent` raises, so the clause always ends in an
   exception, the current batch and `$0` stay as they were, and where the
   intended clause completes this one raises `NoMethodError`.
   */
  function EnsureClauseNoParent(w: World, b: Batch, pending: Option<Exception>, prevName: string): (r: RunResult)
    ensures r.outcome.Raised? && r.id == b.id
    ensures r.world == w.(store := r.world.store)
    ensures
      var i := EnsureClause(w, b, pending, prevName);
      && r.trace == i.trace && r.world == i.world.(current := w.current, procName := w.procName)
      && (i.outcome.Completed? ==> r.outcome == Raised(NoParentReader))
      && (r.outcome == Raised(NoParentReader) || r.outcome == i.outcome)
  {
    var fin := FireBang(FinishEvent, w.store, b.(finishedAt := Some(w.clock)), w.clock);
    var w1 := w.(store := fin.store);
    if fin.raised.Some? then RunResult(w1, fin.trace, Raised(fin.raised.value), b.id)
    else
      var en := RunCallbacks(fin.batch, EnsureQueue);
      if en.raised.Some? then RunResult(w1, fin.trace + en.trace, Raised(en.raised.value), b.id)
      else RunResult(w1, fin.trace + en.trace, Raised(NoParentReader), b.id)
  }

  /**
   `FinalizeNoParent` against the intended `Finalize`: the same calls and the
   same rows; the current batch and `$0` stay where they were, and where the
   intended code completes, the code as written raises `NoMethodError`.
   */
  lemma FinalizeNoParentAgrees(w: World, b: Batch, ending: Ending, prevName: string)
    ensures
      var i := Finalize(w, b, ending, prevName);
      var r := FinalizeNoParent(w, b, ending, prevName);
      && r.trace == i.trace && r.world == i.world.(current := w.current, procName := w.procName)
      && (i.outcome.Completed? ==> r.outcome == Raised(NoParentReader))
  {
    var rs := Rescue(b, ending);
    var e := EnsureClauseNoParent(w, rs.batch, rs.pending, prevName);
    assert FinalizeNoParent(w, b, ending, prevName) == e.(trace := rs.trace + e.trace);
  }

  /** A started batch without callbacks, finished as written after an exception: it closes `errored` and emits nothing. */
  lemma FinalizeNoParentUnregistered(w: World, b: Batch, e: Exception, prevName: string)
    requires b.state == Running
    requires b.successCallbacks == b.failureCallbacks == b.ensureCallbacks == []
    ensures
      var b' := Closed(b.(error := Some(ExceptionError(e))), w.clock);
      FinalizeNoParent(w, b, Threw(e), prevName) == RunResult(w.(store := Stored(w.store, b')), [], Raised(NoParentReader), b.id)
  {
    FinalizeUnregistered(w, b, e, prevName);
    FinalizeNoParentAgrees(w, b, Threw(e), prevName);
  }

  /** After `start!`, with a batch current, line 88 raises and the run goes to the `rescue` part. */
  lemma AfterStartLinkRaises(w: World, b: Batch, body: Block)
    requires b.state != Ignored && w.current.Some?
    requires NameProcess(ConfigOf(w)) ==> b.name.Some?
    ensures
      var np := NameProcess(ConfigOf(w));
      AfterStartNoParent(w, b, body)
      == FinalizeNoParent(Configure(w).0.(procName := if np then b.name.value else w.procName), b, Threw(NoParentWriter), w.procName)
  {
  }

  /** `create` and `start!` of the run as written, as in `RunnerProofs.RunStarts`. */
  lemma RunNoParentStarts(w: World, opts: Options, body: Block)
    ensures
      var b := StartedBatch(w, opts);
      RunNoParent(w, opts, body)
      == AfterStartNoParent(w.(store := Store(w.store.records[b.id := Persist(b)], b.id + 1)), b, body)
  {
    CreateStart(w, opts);
  }

  /**
   As written, no `Batchy.run` returns: every run raises. A nested run leaves
   the outer batch current, and an outermost run that can name the process
   leaves its own batch current.
   */
  lemma NoParentNeverReturns(w: World, opts: Options, body: Block)
    ensures RunNoParent(w, opts, body).outcome.Raised?
    ensures w.current.Some? ==> RunNoParent(w, opts, body).world.current == w.current
    ensures w.current.None? && (NameProcess(ConfigOf(w)) ==> opts.name.Some?)
            ==> RunNoParent(w, opts, body).world.current == Some(w.store.nextId)
  {
    RunNoParentStarts(w, opts, body);
  }

  /** The row `id` is saved `errored` with exception `e` as its error. */
  predicate ErroredWith(s: Store, id: BatchId, e: Exception)
  {
    id in s.records && s.records[id].error == Some(ExceptionError(e)) && s.records[id].state == Errored
  }

  /**
   A nested run as written: `batch.parent =` raises before `yield`, so the
   block never runs and nothing is called. The row is closed `errored` with
   that `NoMethodError`, then `batch.parent` raises again and propagates; the
   outer batch stays current and `$0` keeps the inner batch's name.
   */
  lemma NestedRunNeverYields(w: World, opts: Options, body: Block)
    requires w.current.Some?
    requires NameProcess(ConfigOf(w)) ==> opts.name.Some?
    ensures
      var id := w.store.nextId;
      var r := RunNoParent(w, opts, body);
      var named := NameProcess(ConfigOf(w)) && opts.name.Some?;
      && r.outcome == Raised(NoParentReader) && r.trace == []
      && r.world.current == w.current
      && r.world.procName == (if named then opts.name.value else w.procName)
      && ErroredWith(r.world.store, id, NoParentWriter)
  {
    RunNoParentStarts(w, opts, body);
    NestedStarted(w, opts, body);
  }

  /** `NestedRunNeverYields` from the state `start!` leaves behind. */
  lemma NestedStarted(w: World, opts: Options, body: Block)
    requires w.current.Some?
    requires NameProcess(ConfigOf(w)) ==> opts.name.Some?
    ensures
      var id := w.store.nextId;
      var b := StartedBatch(w, opts);
      var r := AfterStartNoParent(w.(store := Store(w.store.records[b.id := Persist(b)], b.id + 1)), b, body);
      var named := NameProcess(ConfigOf(w)) && opts.name.Some?;
      && r.outcome == Raised(NoParentReader) && r.trace == []
      && r.world.current == w.current
      && r.world.procName == (if named then opts.name.value else w.procName)
      && ErroredWith(r.world.store, id, NoParentWriter)
  {
    var b := StartedBatch(w, opts);
    assert b.state == Running && b.id == w.store.nextId && b.name == opts.name;
    assert b.successCallbacks == b.failureCallbacks == b.ensureCallbacks == [];
    NestedAfterStart(w, w.(store := Store(w.store.records[b.id := Persist(b)], b.id + 1)), b, body);
  }

  /**
   `NestedRunNeverYields` from the state `start!` leaves behind, for any
   started batch without callbacks whose row `start!` has just saved in `w0`.
   */
  lemma NestedAfterStart(w0: World, w: World, b: Batch, body: Block)
    requires w0.current.Some? && b.state == Running && b.id == w0.store.nextId
    requires b.successCallbacks == b.failureCallbacks == b.ensureCallbacks == []
    requires NameProcess(ConfigOf(w0)) ==> b.name.Some?
    requires w == w0.(store := Store(w0.store.records[b.id := Persist(b)], b.id + 1))
    ensures
      var r := AfterStartNoParent(w, b, body);
      var named := NameProcess(ConfigOf(w0)) && b.name.Some?;
      && r.outcome == Raised(NoParentReader) && r.trace == []
      && r.world.current == w0.current
      && r.world.procName == (if named then b.name.value else w0.procName)
      && ErroredWith(r.world.store, w0.store.nextId, NoParentWriter)
  {
    var np := NameProcess(ConfigOf(w));
    var w2 := Configure(w).0.(procName := if np then b.name.value else w.procName);
    AfterStartLinkRaises(w, b, body);
    FinalizeNoParentUnregistered(w2, b, NoParentWriter, w.procName);
  }

  /** `RunBlockNoParent` against `RunBlock`, for a block without nested runs: only the end of the `ensure` clause differs. */
  lemma RunBlockNoParentSimple(w: World, b: Batch, body: Block, prevName: string)
    requires Simple(body)
    ensures
      var i := RunBlock(w, b, body, prevName);
      var r := RunBlockNoParent(w, b, body, prevName);
      && r.trace == i.trace && r.world == i.world.(current := w.current, procName := w.procName)
      && (i.outcome.Completed? ==> r.outcome == Raised(NoParentReader))
  {
    var e := Exec(w, b, body);
    ExecSimple(w, b, body);
    ExecNoParentSimple(w, b, body);
    var f := FinalizeNoParent(e.world, e.batch, e.ending, prevName);
    var fi := Finalize(e.world, e.batch, e.ending, prevName);
    FinalizeNoParentAgrees(e.world, e.batch, e.ending, prevName);
    assert RunBlockNoParent(w, b, body, prevName) == f.(trace := e.trace + f.trace);
    assert RunBlock(w, b, body, prevName) == fi.(trace := e.trace + fi.trace);
  }

  /** The run as written, up to `yield`, for an outermost run that can name the process. */
  lemma RunNoParentEnters(w: World, opts: Options, body: Block)
    requires w.current.None?
    requires NameProcess(ConfigOf(w)) ==> opts.name.Some?
    ensures RunNoParent(w, opts, body) == RunBlockNoParent(EnteredWorld(w, opts), EnteredBatch(w, opts), body, w.procName)
  {
    var b := StartedBatch(w, opts);
    var w0 := w.(store := Store(w.store.records[b.id := Persist(b)], b.id + 1));
    RunNoParentStarts(w, opts, body);
    EnterStarted(w, opts);
  }

  /**
   An outermost run of a calm block without nested runs: the intended run
   completes and gives the current batch and `$0` back, while the run as
   written has the same calls and the same rows but raises `NoMethodError`
   from line 111, leaving its own batch current and `$0` named after it.
   */
  lemma OuterRunNoParent(w: World, opts: Options, body: Block)
    requires w.current.None?
    requires NameProcess(ConfigOf(w)) ==> opts.name.Some?
    requires Simple(body) && Calm(body, NameProcess(ConfigOf(w)))
    ensures
      var i := Run(w, opts, body);
      var named := NameProcess(ConfigOf(w)) && opts.name.Some?;
      && i.outcome == Completed && i.world.current == None && i.world.procName == w.procName
      && RunNoParent(w, opts, body)
         == RunResult(i.world.(current := Some(i.id), procName := if named then opts.name.value else w.procName),
                      i.trace, Raised(NoParentReader), i.id)
  {
    RunCalm(w, opts, body);
    RunEnters(w, opts, body);
    RunNoParentEnters(w, opts, body);
    RunBlockNoParentSimple(EnteredWorld(w, opts), EnteredBatch(w, opts), body, w.procName);
  }
}
