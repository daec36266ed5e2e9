/**
 The `Batchy` module functions of lib/batchy.rb, plus the class-level
 `Batch.run` of lib/batchy/batch.rb (which runs the same kind of block).

 Process-wide state is an explicit `World`: the batch table, the current
 batch (`@current`), the process name (`$0`), the memoised configuration
 (`@configuration`) and an abstract clock.

 The block a caller passes to `run` is a `Block`: a straight-line script of
 registrations on the yielded batch, error assignments, observations of the
 current batch and nested `Batchy.run` calls, ending in a normal return or a
 raise. A nested run that propagates an exception makes the enclosing block
 raise it at that point.
 */
module Batchy {
  import opened Wrappers
  import opened Callbacks
  import opened Configuration
  import opened Batches

  datatype World = World(
    store: Store,
    current: Option<BatchId>,
    procName: string,
    config: Option<Config>,
    clock: Time)

  // ----- configuration -----

  /** The configuration `configure` would return, without creating it. */
  function ConfigOf(w: World): Config
  {
    w.config.GetOr(NewConfig())
  }

  /** `configure` (no block): the memoised configuration, created with defaults on first use. */
  function Configure(w: World): (r: (World, Config))
    ensures r.0 == w.(config := Some(r.1))
    ensures w.config.Some? ==> r.1 == w.config.value
    ensures w.config.None? ==> r.1 == NewConfig()
  {
    match w.config
    case Some(c) => (w, c)
    case None => (w.(config := Some(NewConfig())), NewConfig())
  }

  /** `configure { |c| ... }`: the block updates the memoised configuration in place. */
  function ConfigureWith(w: World, setup: Config -> Config): (r: (World, Config))
    ensures r.0 == w.(config := Some(r.1))
    ensures r.1 == setup(ConfigOf(w))
  {
    var (w1, c) := Configure(w);
    (w1.(config := Some(setup(c))), setup(c))
  }

  /** `clear_configuration`: forget the configuration; the next `configure` builds a fresh one. */
  function ClearConfiguration(w: World): (r: World)
    ensures r.config.None?
    ensures r == w.(config := r.config)
  {
    w.(config := None)
  }

  /** `configure` is memoised: a second call returns the same configuration and changes nothing more. */
  lemma ConfigureMemoised(w: World)
    ensures Configure(Configure(w).0) == Configure(w)
    ensures Configure(w).1 == ConfigOf(w)
    ensures Configure(w).0.store == w.store && Configure(w).0.current == w.current && Configure(w).0.procName == w.procName
  {
  }

  /** After `clear_configuration`, `configure` builds a fresh configuration: every option reads its default. */
  lemma ClearThenConfigure(w: World)
    ensures
      var c := Configure(ClearConfiguration(w)).1;
      && c == NewConfig()
      && AllowDuplicates(c) == DefaultAllowDuplicates && RaiseErrors(c) == DefaultRaiseErrors
      && NameProcess(c) == DefaultNameProcess && AllowMassSigkill(c) == DefaultAllowMassSigkill
      && ProcessNamePrefix(c) == DefaultProcessNamePrefix
      && c.globalSuccessCallbacks == c.globalFailureCallbacks == c.globalEnsureCallbacks == c.globalIgnoreCallbacks == []
  {
  }

  /** A `configure` block's changes are what later `configure` calls return, until the configuration is cleared. */
  lemma ConfigureWithPersists(w: World, setup: Config -> Config)
    ensures Configure(ConfigureWith(w, setup).0).1 == setup(ConfigOf(w))
  {
  }

  /** `current`. */
  function Current(w: World): Option<BatchId>
  {
    w.current
  }

  // ----- the block -----

  datatype Block =
    | Returns
    | Raises(exception: Exception)
    | RegisterSuccess(callback: Callback, rest: Block)
    | RegisterFailure(callback: Callback, rest: Block)
    | RegisterEnsure(callback: Callback, rest: Block)
    | SetError(error: Option<ErrorValue>, rest: Block)
    | Observe(rest: Block)
    | Nested(options: Options, body: Block, rest: Block)

  datatype Ending = Normal | Threw(exception: Exception)

  datatype ExecResult = ExecResult(world: World, batch: Batch, trace: seq<Event>, ending: Ending)

  /** How `run` ends: `false` for an ignored batch, a normal return, or a propagated exception. */
  datatype Outcome = Skipped | Completed | Raised(exception: Exception)

  /** The world after the call, the events, the outcome, and the id of the batch the call created. */
  datatype RunResult = RunResult(world: World, trace: seq<Event>, outcome: Outcome, id: BatchId)

  /** What assigning `$0 = nil` raises. */
  const NilNameTypeError := Exception("no implicit conversion of nil into String", [])

  // ----- Batchy.run -----

  /** `Batchy.run(options) { |batch| ... }`. */
  function Run(w: World, opts: Options, body: Block): (r: RunResult)
    ensures r.id == w.store.nextId
    ensures r.world.store.nextId > w.store.nextId
    ensures Valid(w.store) ==> Valid(r.world.store)
    decreases body, 3
  {
    var (s1, b) := Create(w.store, opts);
    var st := FireBang(StartEvent, s1, b, w.clock);
    if st.raised.Some? then RunResult(w.(store := st.store), st.trace, Raised(st.raised.value), b.id)
    else AfterStart(w.(store := st.store), st.batch, body)
  }

  /** Everything after `batch.start!`: return false when ignored, otherwise run the block and finish. */
  function AfterStart(w: World, b: Batch, body: Block): (r: RunResult)
    ensures b.state == Ignored ==> r == RunResult(w, [], Skipped, b.id)
    ensures b.state != Ignored ==> !r.outcome.Skipped?
    ensures r.id == b.id
    ensures r.world.store.nextId >= w.store.nextId
    ensures Valid(w.store) && b.id < w.store.nextId ==> Valid(r.world.store)
    decreases body, 2
  {
    if b.state == Ignored then RunResult(w, [], Skipped, b.id)
    else
      var prevName := w.procName;
      var (w1, cfg) := Configure(w);
      if NameProcess(cfg) && b.name.None? then
        // `$0 = nil` raises before the parent and the current batch are set
        Finalize(w1, b, Threw(NilNameTypeError), prevName)
      else
        var (w2, b2) := Enter(w1, b, NameProcess(cfg));
        RunBlock(w2, b2, body, prevName)
  }

  /** `yield batch` and everything after it, once the batch is saved and current. */
  function RunBlock(w: World, b: Batch, body: Block, prevName: string): (r: RunResult)
    ensures !r.outcome.Skipped?
    ensures r.id == b.id
    ensures r.world.store.nextId >= w.store.nextId
    ensures Valid(w.store) && b.id < w.store.nextId ==> Valid(r.world.store)
    decreases body, 1
  {
    var e := Exec(w, b, body);
    var f := Finalize(e.world, e.batch, e.ending, prevName);
    f.(trace := e.trace + f.trace)
  }

  /**
   Lines before `yield`: name the process after the batch, link the batch to
   the current batch as its parent (only when there is one), make the batch
   current, and save it.
   */
  function Enter(w: World, b: Batch, nameProcess: bool): (r: (World, Batch))
    requires nameProcess ==> b.name.Some?
    ensures r.0.current == Some(b.id)
    ensures r.0.procName == if nameProcess then b.name.value else w.procName
    ensures r.1 == b.(parentId := if w.current.Some? then w.current else b.parentId, persisted := true)
    ensures r.0.store == Save(w.store, r.1).0
    ensures r.0.config == w.config && r.0.clock == w.clock
  {
    var w1 := if nameProcess then w.(procName := b.name.value) else w;
    var b1 := if w.current.Some? then b.(parentId := w.current) else b;
    var (s, b2) := Save(w1.store, b1);
    (w1.(current := Some(b.id), store := s), b2)
  }

  /** `yield batch`: run the block against the yielded batch. */
  function Exec(w: World, b: Batch, body: Block): (r: ExecResult)
    ensures r.batch.id == b.id && r.batch.state == b.state && r.batch.parentId == b.parentId
    ensures r.batch.name == b.name && r.batch.persisted == b.persisted
    ensures r.world.store.nextId >= w.store.nextId
    ensures Valid(w.store) ==> Valid(r.world.store)
    decreases body, 0
  {
    match body
    case Returns => ExecResult(w, b, [], Normal)
    case Raises(e) => ExecResult(w, b, [], Threw(e))
    case RegisterSuccess(cb, rest) => Exec(w, OnSuccess(b, cb), rest)
    case RegisterFailure(cb, rest) => Exec(w, OnFailure(b, cb), rest)
    case RegisterEnsure(cb, rest) => Exec(w, OnEnsure(b, cb), rest)
    case SetError(err, rest) => Exec(w, b.(error := err), rest)
    case Observe(rest) =>
      var r := Exec(w, b, rest);
      r.(trace := [SawCurrent(w.current)] + r.trace)
    case Nested(opts, inner, rest) =>
      var n := Run(w, opts, inner);
      if n.outcome.Raised? then ExecResult(n.world, b, n.trace, Threw(n.outcome.exception))
      else
        var r := Exec(n.world, b, rest);
        r.(trace := n.trace + r.trace)
  }

  /** What the `begin`/`rescue` part leaves: the batch, the events so far, and an exception still pending. */
  datatype Rescued = Rescued(batch: Batch, trace: seq<Event>, pending: Option<Exception>)

  /**
   Lines after `yield` up to `ensure`: success callbacks on a normal return; on
   any exception (from the block or from a success callback) store it as the
   error and run the failure callbacks, whose own exception, if any, is left
   pending.
   */
  function Rescue(b: Batch, ending: Ending): (r: Rescued)
    ensures r.batch == b.(error := r.batch.error)
    ensures ending.Threw? ==> r.batch.error == Some(ExceptionError(ending.exception))
    ensures ending.Normal? && RunCallbacks(b, SuccessQueue).raised.None? ==> r.batch == b && r.pending.None?
  {
    var s := if ending.Normal? then RunCallbacks(b, SuccessQueue) else QueueRun([], Some(ending.exception));
    if s.raised.None? then Rescued(b, s.trace, None)
    else
      var b1 := b.(error := Some(ExceptionError(s.raised.value)));
      var f := RunCallbacks(b1, FailureQueue);
      Rescued(b1, s.trace + f.trace, f.raised)
  }

  /**
   The `ensure` clause: stamp `finished_at`, `finish!`, run the ensure
   callbacks, and restore the current batch and the process name. An exception
   raised inside the clause replaces the pending one and skips the rest of the
   clause; otherwise the pending exception, if any, propagates after it.
   */
  function EnsureClause(w: World, b: Batch, pending: Option<Exception>, prevName: string): (r: RunResult)
    ensures !r.outcome.Skipped?
    ensures r.id == b.id
    ensures r.world.store.nextId == w.store.nextId
    ensures Valid(w.store) && b.id < w.store.nextId ==> Valid(r.world.store)
  {
    var fin := FireBang(FinishEvent, w.store, b.(finishedAt := Some(w.clock)), w.clock);
    var w1 := w.(store := fin.store);
    if fin.raised.Some? then RunResult(w1, fin.trace, Raised(fin.raised.value), b.id)
    else
      var en := RunCallbacks(fin.batch, EnsureQueue);
      if en.raised.Some? then RunResult(w1, fin.trace + en.trace, Raised(en.raised.value), b.id)
      else
        var w2 := w1.(current := fin.batch.parentId, procName := prevName);
        RunResult(w2, fin.trace + en.trace, if pending.Some? then Raised(pending.value) else Completed, b.id)
  }

  /** Lines after `yield`: the `rescue` part, then the `ensure` clause. */
  function Finalize(w: World, b: Batch, ending: Ending, prevName: string): (r: RunResult)
    ensures !r.outcome.Skipped?
    ensures r.id == b.id
    ensures r.world.store.nextId == w.store.nextId
    ensures Valid(w.store) && b.id < w.store.nextId ==> Valid(r.world.store)
  {
    var rs := Rescue(b, ending);
    var r := EnsureClause(w, rs.batch, rs.pending, prevName);
    r.(trace := rs.trace + r.trace)
  }

  // ----- Batch.run -----

  /**
   The class-level `Batch.run { |batch| ... }`: a nameless, guid-less batch is
   started, the block runs, an exception from it is stored as a formatted
   string, and the batch is always finished. It never touches the current
   batch or the process name.
   */
  function ClassRun(w: World, body: Block): (r: RunResult)
    ensures r.id == w.store.nextId
    ensures Valid(w.store) ==> Valid(r.world.store)
  {
    var (s0, b0) := NewBatch(w.store, Options(None, None, None));
    var st := FireBang(StartEvent, s0, b0, w.clock);
    if st.raised.Some? then RunResult(w.(store := st.store), st.trace, Raised(st.raised.value), b0.id)
    else
      var r := ClassRunBlock(w.(store := st.store), st.batch, body);
      r.(trace := st.trace + r.trace)
  }

  /** `yield self` inside `Batch.run`, the `rescue` that stores the formatted exception, and the `ensure` with `finish!`. */
  function ClassRunBlock(w: World, b: Batch, body: Block): (r: RunResult)
    ensures r.id == b.id
    ensures Valid(w.store) && b.id < w.store.nextId ==> Valid(r.world.store)
  {
    var e := Exec(w, b, body);
    var b1 := if e.ending.Threw? then e.batch.(error := Some(TextError(FormatError(e.ending.exception))))
              else e.batch;
    var fin := FireBang(FinishEvent, e.world.store, b1, e.world.clock);
    RunResult(e.world.(store := fin.store), e.trace + fin.trace,
              if fin.raised.Some? then Raised(fin.raised.value) else Completed, b.id)
  }

  // ----- expiry sweeps -----

  /** `kill` sends a soft termination, `kill!` a hard kill. */
  datatype Signal = Term | Kill

  datatype SweepEvent = QueriedExpired | Signalled(batch: BatchId, signal: Signal) | Warned(message: string)

  /** `false` when the hard sweep is refused, otherwise the swept batches. */
  datatype SweepResult = Refused | Swept(batches: seq<BatchId>)

  const MassSigkillWarning :=
    "Mass sigkill is not allowed.  Use \"clean_expired\" to issue a mass SIGTERM, or set the \"allow_mass_sigkill\" config option to true"

  /** Signal every batch once, in order. */
  function SignalEach(batches: seq<BatchId>, sig: Signal): (events: seq<SweepEvent>)
    ensures |events| == |batches|
    ensures forall i :: 0 <= i < |batches| ==> events[i] == Signalled(batches[i], sig)
  {
    if |batches| == 0 then []
    else [Signalled(batches[0], sig)] + SignalEach(batches[1..], sig)
  }

  /** `clean_expired`: query the expired batches and call `kill` on each. */
  function CleanExpired(expired: seq<BatchId>): (r: (seq<SweepEvent>, SweepResult))
    ensures |r.0| == |expired| + 1 && r.0[0] == QueriedExpired
    ensures forall i :: 0 <= i < |expired| ==> r.0[i + 1] == Signalled(expired[i], Term)
    ensures r.1 == Swept(expired)
  {
    ([QueriedExpired] + SignalEach(expired, Term), Swept(expired))
  }

  /**
   `clean_expired!`: unless `allow_mass_sigkill` is set, warn and return false
   without querying anything; otherwise query the expired batches and call
   `kill!` on each.
   */
  function CleanExpiredBang(w: World, expired: seq<BatchId>): (r: (World, seq<SweepEvent>, SweepResult))
    ensures r.0 == Configure(w).0
    ensures !AllowMassSigkill(ConfigOf(w)) ==> r.1 == [Warned(MassSigkillWarning)] && r.2 == Refused
    ensures AllowMassSigkill(ConfigOf(w)) ==>
      && |r.1| == |expired| + 1 && r.1[0] == QueriedExpired
      && (forall i :: 0 <= i < |expired| ==> r.1[i + 1] == Signalled(expired[i], Kill))
      && r.2 == Swept(expired)
  {
    var (w1, cfg) := Configure(w);
    if !AllowMassSigkill(cfg) then (w1, [Warned(MassSigkillWarning)], Refused)
    else (w1, [QueriedExpired] + SignalEach(expired, Kill), Swept(expired))
  }
}
