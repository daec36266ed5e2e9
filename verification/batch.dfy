/**
 The batch record and its state machine (lib/batchy/batch.rb).

 The `state_machine` declaration is encoded as data: each event is an
 ordered list of guarded rules (the first rule whose guard holds wins) and
 the `after_transition` hooks are an ordered list of (from, to, effects)
 entries. Firing an event with `!` persists the new state, then runs the
 effects of every matching hook in declaration order.

 Persistence is a map from id to record. Callback queues live only on the
 in-memory batch and are never part of a record.
 */
module Batches {
  import opened Wrappers
  import opened Callbacks

  /** A reading of the abstract clock (`DateTime.now`). */
  type Time = nat

  datatype State = New | Running | Ignored | Success | Errored

  /** The `error` attribute: an exception object (`Batchy.run`) or a string (`Batch.run`). */
  datatype ErrorValue = ExceptionError(exception: Exception) | TextError(text: string)

  /** The attributes a caller passes to `Batch.create`. */
  datatype Options = Options(name: Option<string>, guid: Option<string>, expireAt: Option<Time>)

  /** The in-memory batch object: its persisted attributes plus the three callback queues. */
  datatype Batch = Batch(
    id: BatchId,
    persisted: bool,
    name: Option<string>,
    guid: Option<string>,
    state: State,
    startedAt: Option<Time>,
    finishedAt: Option<Time>,
    expireAt: Option<Time>,
    error: Option<ErrorValue>,
    parentId: Option<BatchId>,
    successCallbacks: seq<Callback>,
    failureCallbacks: seq<Callback>,
    ensureCallbacks: seq<Callback>)

  /** A persisted row. */
  datatype Record = Record(
    id: BatchId,
    name: Option<string>,
    guid: Option<string>,
    state: State,
    startedAt: Option<Time>,
    finishedAt: Option<Time>,
    expireAt: Option<Time>,
    error: Option<ErrorValue>,
    parentId: Option<BatchId>)

  /** The table of batches and the next id it hands out. */
  datatype Store = Store(records: map<BatchId, Record>, nextId: BatchId)

  /** Every row sits under its own id, and every id handed out so far is below `nextId`. */
  predicate Valid(s: Store)
  {
    forall k :: k in s.records ==> k < s.nextId && s.records[k].id == k
  }

  function Persist(b: Batch): Record
  {
    Record(b.id, b.name, b.guid, b.state, b.startedAt, b.finishedAt, b.expireAt, b.error, b.parentId)
  }

  // ----- creation and persistence -----

  /**
   `Batch.new(options)`: a fresh object with empty callback queues, in state `new`,
   not yet saved. It takes the next id of the store.
   */
  function NewBatch(s: Store, opts: Options): (r: (Store, Batch))
    ensures r.0.records == s.records && r.0.nextId == s.nextId + 1
    ensures r.1.id == s.nextId && !r.1.persisted
    ensures r.1.state == New
    ensures r.1.name == opts.name && r.1.guid == opts.guid && r.1.expireAt == opts.expireAt
    ensures r.1.startedAt.None? && r.1.finishedAt.None? && r.1.error.None? && r.1.parentId.None?
    ensures r.1.successCallbacks == r.1.failureCallbacks == r.1.ensureCallbacks == []
    ensures Valid(s) ==> Valid(r.0) && r.1.id !in s.records
  {
    var b := Batch(s.nextId, false, opts.name, opts.guid, New, None, None, opts.expireAt,
                   None, None, [], [], []);
    (s.(nextId := s.nextId + 1), b)
  }

  /** `save!`: write the batch's attributes under its id; the object is then persisted. */
  function Save(s: Store, b: Batch): (r: (Store, Batch))
    ensures r.1 == b.(persisted := true)
    ensures r.0.nextId == s.nextId
    ensures b.id in r.0.records && r.0.records[b.id] == Persist(b)
    ensures forall k :: k in s.records && k != b.id ==> k in r.0.records && r.0.records[k] == s.records[k]
    ensures r.0.records.Keys == s.records.Keys + {b.id}
    ensures Valid(s) && b.id < s.nextId ==> Valid(r.0)
  {
    (Store(s.records[b.id := Persist(b)], s.nextId), b.(persisted := true))
  }

  /** `Batch.create(options)`: a new batch saved at once, in state `new`, under a fresh id. */
  function Create(s: Store, opts: Options): (r: (Store, Batch))
    ensures Valid(s) ==> Valid(r.0) && r.1.id !in s.records
    ensures r.1.id == s.nextId && r.0.nextId == s.nextId + 1
    ensures r.1.persisted && r.1.state == New
    ensures r.0.records == s.records[r.1.id := Persist(r.1)]
    ensures r.1.parentId.None? && r.1.error.None? && r.1.startedAt.None? && r.1.finishedAt.None?
    ensures r.1.name == opts.name && r.1.guid == opts.guid && r.1.expireAt == opts.expireAt
    ensures r.1.successCallbacks == r.1.failureCallbacks == r.1.ensureCallbacks == []
    ensures forall k :: k in s.records && k != r.1.id ==> k in r.0.records && r.0.records[k] == s.records[k]
  {
    var (s1, b) := NewBatch(s, opts);
    Save(s1, b)
  }

  // ----- registering callbacks -----

  /** `on_success`: append one entry to the success queue; nothing else changes. */
  function OnSuccess(b: Batch, cb: Callback): (r: Batch)
    ensures r.successCallbacks == b.successCallbacks + [cb]
    ensures r.failureCallbacks == b.failureCallbacks && r.ensureCallbacks == b.ensureCallbacks
    ensures r == b.(successCallbacks := r.successCallbacks)
  {
    b.(successCallbacks := b.successCallbacks + [cb])
  }

  /** `on_failure`: append one entry to the failure queue; nothing else changes. */
  function OnFailure(b: Batch, cb: Callback): (r: Batch)
    ensures r.failureCallbacks == b.failureCallbacks + [cb]
    ensures r.successCallbacks == b.successCallbacks && r.ensureCallbacks == b.ensureCallbacks
    ensures r == b.(failureCallbacks := r.failureCallbacks)
  {
    b.(failureCallbacks := b.failureCallbacks + [cb])
  }

  /** `on_ensure`: append one entry to the ensure queue; nothing else changes. */
  function OnEnsure(b: Batch, cb: Callback): (r: Batch)
    ensures r.ensureCallbacks == b.ensureCallbacks + [cb]
    ensures r.successCallbacks == b.successCallbacks && r.failureCallbacks == b.failureCallbacks
    ensures r == b.(ensureCallbacks := r.ensureCallbacks)
  {
    b.(ensureCallbacks := b.ensureCallbacks + [cb])
  }

  function QueueOf(b: Batch, kind: QueueKind): seq<Callback>
  {
    match kind
    case SuccessQueue => b.successCallbacks
    case FailureQueue => b.failureCallbacks
    case EnsureQueue => b.ensureCallbacks
  }

  /** `run_success_callbacks` and friends: call the queue's entries with this batch. */
  function RunCallbacks(b: Batch, kind: QueueKind): QueueRun
  {
    RunQueue(kind, b.id, QueueOf(b, kind))
  }

  // ----- guards -----

  /** `multiples_allowed` is hard-wired to true. */
  function MultiplesAllowed(b: Batch): bool
  {
    true
  }

  /** ActiveSupport's `String#blank?`: empty or only ASCII whitespace. */
  predicate Blank(t: string)
  {
    forall i :: 0 <= i < |t| ==> t[i] in {' ', '\t', '\n', '\r', '\U{B}', '\U{C}'}
  }

  /** `has_errors` (`error?`): an error is present and not blank; an exception object is never blank. */
  predicate HasErrors(b: Batch)
  {
    match b.error
    case None => false
    case Some(ExceptionError(_)) => true
    case Some(TextError(t)) => !Blank(t)
  }

  /**
   `duplicate_batches`: the running rows whose guid equals this batch's guid
   (`nil` equals `nil`), leaving out the batch's own row once it is saved.
   */
  function DuplicateBatches(s: Store, b: Batch): (ids: set<BatchId>)
    ensures ids <= s.records.Keys
    ensures b.persisted ==> b.id !in ids
    ensures forall k :: k in ids ==> s.records[k].state == Running && s.records[k].guid == b.guid
    ensures forall k :: (k in s.records && s.records[k].state == Running && s.records[k].guid == b.guid
                         && (!b.persisted || k != b.id)) ==> k in ids
  {
    set k | k in s.records && s.records[k].guid == b.guid && s.records[k].state == Running
                           && (!b.persisted || k != b.id)
  }

  /** `already_running`: some other row with this guid is running. */
  predicate AlreadyRunning(s: Store, b: Batch)
  {
    |DuplicateBatches(s, b)| > 0
  }

  datatype Condition = MultiplesAllowedCond | AlreadyRunningCond | HasErrorsCond

  datatype Guard = Always | If(cond: Condition) | Unless(cond: Condition)

  /** `transition from => to, :if/:unless => guard`. */
  datatype Rule = Rule(from: State, to: State, guard: Guard)

  datatype EventName = StartEvent | FinishEvent

  /** `event :start`: three rules, the first whose guard holds wins. */
  const StartRules: seq<Rule> := [
    Rule(New, Running, If(MultiplesAllowedCond)),
    Rule(New, Running, Unless(AlreadyRunningCond)),
    Rule(New, Ignored, Always)
  ]

  /** `event :finish`. */
  const FinishRules: seq<Rule> := [
    Rule(Running, Success, Unless(HasErrorsCond)),
    Rule(Running, Errored, Always)
  ]

  function Rules(e: EventName): seq<Rule>
  {
    match e
    case StartEvent => StartRules
    case FinishEvent => FinishRules
  }

  function Holds(c: Condition, s: Store, b: Batch): bool
  {
    match c
    case MultiplesAllowedCond => MultiplesAllowed(b)
    case AlreadyRunningCond => AlreadyRunning(s, b)
    case HasErrorsCond => HasErrors(b)
  }

  predicate Matches(rule: Rule, s: Store, b: Batch)
  {
    && rule.from == b.state
    && match rule.guard
       case Always => true
       case If(c) => Holds(c, s, b)
       case Unless(c) => !Holds(c, s, b)
  }

  /** The target state of the first matching rule, or nil when no rule matches. */
  function Fire(rules: seq<Rule>, s: Store, b: Batch): (r: Option<State>)
    ensures r.None? <==> forall i :: 0 <= i < |rules| ==> !Matches(rules[i], s, b)
    ensures r.Some? ==> exists i :: 0 <= i < |rules| && Matches(rules[i], s, b) && rules[i].to == r.value
                                    && forall j :: 0 <= j < i ==> !Matches(rules[j], s, b)
  {
    if |rules| == 0 then None
    else if Matches(rules[0], s, b) then Some(rules[0].to)
    else
      var r := Fire(rules[1..], s, b);
      assert forall i :: 1 <= i < |rules| ==> rules[i] == rules[1..][i - 1];
      r
  }

  /** The `start` cascade in closed form: from `new`, running unless duplicates are refused and one runs. */
  lemma StartTarget(s: Store, b: Batch)
    ensures Fire(StartRules, s, b) ==
      if b.state != New then None
      else if MultiplesAllowed(b) || !AlreadyRunning(s, b) then Some(Running)
      else Some(Ignored)
  {
    var r := Fire(StartRules, s, b);
    if b.state == New {
      assert Matches(StartRules[2], s, b);
      if r.Some? {
        var i :| 0 <= i < 3 && Matches(StartRules[i], s, b) && StartRules[i].to == r.value
                 && forall j :: 0 <= j < i ==> !Matches(StartRules[j], s, b);
        assert i == 0 ==> MultiplesAllowed(b);
        assert i == 1 ==> !AlreadyRunning(s, b);
      }
    } else {
      assert forall i :: 0 <= i < 3 ==> !Matches(StartRules[i], s, b);
    }
  }

  /** The `finish` cascade in closed form: from `running`, errored exactly when an error is present. */
  lemma FinishTarget(s: Store, b: Batch)
    ensures Fire(FinishRules, s, b) ==
      if b.state != Running then None
      else if HasErrors(b) then Some(Errored)
      else Some(Success)
  {
    var r := Fire(FinishRules, s, b);
    if b.state == Running {
      assert Matches(FinishRules[1], s, b);
      if r.Some? {
        var i :| 0 <= i < 2 && Matches(FinishRules[i], s, b) && FinishRules[i].to == r.value
                 && forall j :: 0 <= j < i ==> !Matches(FinishRules[j], s, b);
        assert i == 0 ==> !HasErrors(b);
      }
    } else {
      assert forall i :: 0 <= i < 2 ==> !Matches(FinishRules[i], s, b);
    }
  }

  // ----- after_transition hooks -----

  datatype Effect = StampStarted | StampFinished | SaveRecord | RunQueueEffect(queue: QueueKind)

  /** `after_transition from => to`: effects run when the transition goes from a state in `from` to one in `to`. */
  datatype Hook = Hook(from: set<State>, to: set<State>, effects: seq<Effect>)

  /** The hooks in declaration order. */
  const Hooks: seq<Hook> := [
    Hook({New}, {Running}, [StampStarted, SaveRecord]),
    Hook({Running}, {Success, Errored}, [StampFinished, SaveRecord]),
    Hook({Running}, {Success}, [RunQueueEffect(SuccessQueue)]),
    Hook({Running}, {Errored}, [RunQueueEffect(FailureQueue)]),
    Hook({Running}, {Success, Errored}, [RunQueueEffect(EnsureQueue)])
  ]

  /** The effects of the matching hooks, concatenated in order. */
  function HookEffects(hooks: seq<Hook>, from: State, to: State): seq<Effect>
  {
    if |hooks| == 0 then []
    else
      (if from in hooks[0].from && to in hooks[0].to then hooks[0].effects else [])
      + HookEffects(hooks[1..], from, to)
  }

  /** Firing an event with `!` saves the new state, then runs the matching hooks. */
  function TransitionEffects(from: State, to: State): seq<Effect>
  {
    [SaveRecord] + HookEffects(Hooks, from, to)
  }

  /**
   Which hooks fire for each transition of the machine: only `new -> running`
   stamps `started_at`; both terminal transitions stamp `finished_at` and save
   first, then run exactly one of the success and failure queues, then the
   ensure queue; `new -> ignored` does nothing beyond saving its state.
   */
  lemma TransitionEffectsTable()
    ensures TransitionEffects(New, Running) == [SaveRecord, StampStarted, SaveRecord]
    ensures TransitionEffects(New, Ignored) == [SaveRecord]
    ensures TransitionEffects(Running, Success) ==
      [SaveRecord, StampFinished, SaveRecord, RunQueueEffect(SuccessQueue), RunQueueEffect(EnsureQueue)]
    ensures TransitionEffects(Running, Errored) ==
      [SaveRecord, StampFinished, SaveRecord, RunQueueEffect(FailureQueue), RunQueueEffect(EnsureQueue)]
  {
    HookTable(New, Running);
    HookTable(New, Ignored);
    HookTable(Running, Success);
    HookTable(Running, Errored);
  }

  /** `HookEffects` over the hook table, one hook at a time. */
  lemma HookTable(from: State, to: State)
    ensures HookEffects(Hooks, from, to) ==
      (if from in Hooks[0].from && to in Hooks[0].to then Hooks[0].effects else [])
      + (if from in Hooks[1].from && to in Hooks[1].to then Hooks[1].effects else [])
      + (if from in Hooks[2].from && to in Hooks[2].to then Hooks[2].effects else [])
      + (if from in Hooks[3].from && to in Hooks[3].to then Hooks[3].effects else [])
      + (if from in Hooks[4].from && to in Hooks[4].to then Hooks[4].effects else [])
  {
    assert Hooks[1..][1..][1..][1..][1..] == [];
    assert Hooks[1..][1..][1..][1..][0] == Hooks[4];
    assert Hooks[1..][1..][1..][0] == Hooks[3];
    assert Hooks[1..][1..][0] == Hooks[2];
    assert Hooks[1..][0] == Hooks[1];
  }

  /** The outcome of `start!`/`finish!`: the store, the batch, the callback events, and what was raised. */
  datatype Fired = Fired(store: Store, batch: Batch, trace: seq<Event>, raised: Option<Exception>)

  /** Run effects in order; a raising callback stops the rest and propagates. */
  function Apply(s: Store, b: Batch, effects: seq<Effect>, now: Time): (r: Fired)
    ensures r.store.nextId == s.nextId
    ensures Valid(s) && b.id < s.nextId ==> Valid(r.store)
    ensures r.batch == b.(persisted := r.batch.persisted, startedAt := r.batch.startedAt,
                          finishedAt := r.batch.finishedAt)
    decreases |effects|
  {
    if |effects| == 0 then Fired(s, b, [], None)
    else
      match effects[0]
      case StampStarted => Apply(s, b.(startedAt := Some(now)), effects[1..], now)
      case StampFinished => Apply(s, b.(finishedAt := Some(now)), effects[1..], now)
      case SaveRecord =>
        var (s', b') := Save(s, b);
        Apply(s', b', effects[1..], now)
      case RunQueueEffect(kind) =>
        var q := RunCallbacks(b, kind);
        if q.raised.Some? then Fired(s, b, q.trace, q.raised)
        else
          var rest := Apply(s, b, effects[1..], now);
          rest.(trace := q.trace + rest.trace)
  }

  function StateName(st: State): string
  {
    match st
    case New => "new"
    case Running => "running"
    case Ignored => "ignored"
    case Success => "success"
    case Errored => "errored"
  }

  /** `StateMachine::InvalidTransition`, raised by a `!` event that no rule allows. */
  function InvalidTransition(e: EventName, from: State): Exception
  {
    Exception("Cannot transition state via :" + (if e == StartEvent then "start" else "finish")
              + " from :" + StateName(from), [])
  }

  /** `start!` / `finish!`. */
  function FireBang(e: EventName, s: Store, b: Batch, now: Time): (r: Fired)
    ensures r.store.nextId == s.nextId
    ensures Valid(s) && b.id < s.nextId ==> Valid(r.store)
    ensures r.batch == b.(state := r.batch.state, persisted := r.batch.persisted,
                          startedAt := r.batch.startedAt, finishedAt := r.batch.finishedAt)
  {
    match Fire(Rules(e), s, b)
    case None => Fired(s, b, [], Some(InvalidTransition(e, b.state)))
    case Some(to) => Apply(s, b.(state := to), TransitionEffects(b.state, to), now)
  }

  /**
   `start!` from `new` always reaches `running` here (`multiples_allowed` is true):
   it saves, stamps `started_at`, saves again, and runs no callback.
   */
  lemma StartBang(s: Store, b: Batch, now: Time)
    requires b.state == New
    ensures
      var b' := b.(state := Running, startedAt := Some(now), persisted := true);
      FireBang(StartEvent, s, b, now) == Fired(s.(records := s.records[b.id := Persist(b')]), b', [], None)
  {
    StartTarget(s, b);
    TransitionEffectsTable();
    var b1 := b.(state := Running);
    var b' := b.(state := Running, startedAt := Some(now), persisted := true);
    var s1 := Save(s, b1).0;
    var b2 := Save(s, b1).1;
    assert TransitionEffects(New, Running) == [SaveRecord] + ([StampStarted] + ([SaveRecord] + []));
    assert FireBang(StartEvent, s, b, now) == Apply(s, b1, TransitionEffects(New, Running), now);
    ApplyStep(s, b1, SaveRecord, [StampStarted] + ([SaveRecord] + []), now);
    ApplyStep(s1, b2, StampStarted, [SaveRecord] + [], now);
    ApplyStep(s1, b', SaveRecord, [], now);
    SaveTwice(s, b1, b');
  }

  /** `start!` from any state but `new` raises and changes nothing. */
  lemma StartBangRefused(s: Store, b: Batch, now: Time)
    requires b.state != New
    ensures FireBang(StartEvent, s, b, now) == Fired(s, b, [], Some(InvalidTransition(StartEvent, b.state)))
  {
    StartTarget(s, b);
  }

  /** The success or failure queue a terminal state dispatches. */
  function OutcomeQueue(st: State): QueueKind
  {
    if st == Success then SuccessQueue else FailureQueue
  }

  /** Saving the same object twice leaves only the second write. */
  lemma SaveTwice(s: Store, b: Batch, c: Batch)
    requires b.id == c.id
    ensures Save(Save(s, b).0, c).0 == Save(s, c).0
  {
    var m1 := Save(Save(s, b).0, c).0.records;
    var m2 := Save(s, c).0.records;
    assert m1.Keys == m2.Keys;
    assert forall k :: k in m1 ==> m1[k] == m2[k];
  }

  /** One step of `Apply` for each kind of effect. */
  lemma ApplyStep(s: Store, b: Batch, e: Effect, rest: seq<Effect>, now: Time)
    ensures e == StampStarted ==> Apply(s, b, [e] + rest, now) == Apply(s, b.(startedAt := Some(now)), rest, now)
    ensures e == StampFinished ==> Apply(s, b, [e] + rest, now) == Apply(s, b.(finishedAt := Some(now)), rest, now)
    ensures e == SaveRecord ==> Apply(s, b, [e] + rest, now) == Apply(Save(s, b).0, Save(s, b).1, rest, now)
    ensures e.RunQueueEffect? ==>
      var q := RunCallbacks(b, e.queue);
      Apply(s, b, [e] + rest, now) ==
        if q.raised.Some? then Fired(s, b, q.trace, q.raised)
        else Apply(s, b, rest, now).(trace := q.trace + Apply(s, b, rest, now).trace)
  {
    assert ([e] + rest)[0] == e;
    assert ([e] + rest)[1..] == rest;
  }

  /** The two queue effects that end a terminal transition, run on the saved batch. */
  lemma ApplyTerminalQueues(s: Store, b: Batch, kind: QueueKind, now: Time)
    ensures
      var q := RunCallbacks(b, kind);
      var en := RunCallbacks(b, EnsureQueue);
      var r := Apply(s, b, [RunQueueEffect(kind), RunQueueEffect(EnsureQueue)], now);
      && r.store == s && r.batch == b
      && (q.raised.Some? ==> r.trace == q.trace && r.raised == q.raised)
      && (q.raised.None? ==> r.trace == q.trace + en.trace && r.raised == en.raised)
  {
    var en := RunCallbacks(b, EnsureQueue);
    ApplyStep(s, b, RunQueueEffect(kind), [RunQueueEffect(EnsureQueue)], now);
    ApplyStep(s, b, RunQueueEffect(EnsureQueue), [], now);
    assert [RunQueueEffect(kind), RunQueueEffect(EnsureQueue)] == [RunQueueEffect(kind)] + [RunQueueEffect(EnsureQueue)];
    assert [RunQueueEffect(EnsureQueue)] == [RunQueueEffect(EnsureQueue)] + [];
    assert Apply(s, b, [], now) == Fired(s, b, [], None);
    assert en.trace + [] == en.trace;
  }

  /** A terminal transition's effects, grouped the way `Apply` consumes them. */
  lemma TerminalEffects(to: State)
    requires to == Success || to == Errored
    ensures TransitionEffects(Running, to)
         == [SaveRecord] + ([StampFinished] + ([SaveRecord] + [RunQueueEffect(OutcomeQueue(to)), RunQueueEffect(EnsureQueue)]))
  {
    HookTable(Running, to);
  }

  /** The effects of a terminal transition to `to`, applied to the batch already in state `to`. */
  lemma ApplyTerminal(s: Store, b: Batch, now: Time)
    requires b.state == Success || b.state == Errored
    ensures
      var b' := b.(finishedAt := Some(now), persisted := true);
      var r := Apply(s, b, TransitionEffects(Running, b.state), now);
      var q := RunCallbacks(b', OutcomeQueue(b.state));
      var en := RunCallbacks(b', EnsureQueue);
      && r.store == s.(records := s.records[b.id := Persist(b')])
      && r.batch == b'
      && (q.raised.Some? ==> r.trace == q.trace && r.raised == q.raised)
      && (q.raised.None? ==> r.trace == q.trace + en.trace && r.raised == en.raised)
  {
    var tail := [RunQueueEffect(OutcomeQueue(b.state)), RunQueueEffect(EnsureQueue)];
    var b' := b.(finishedAt := Some(now), persisted := true);
    var s1 := Save(s, b).0;
    var b2 := Save(s, b).1;
    var s2 := s.(records := s.records[b.id := Persist(b')]);
    TerminalEffects(b.state);
    ApplyStep(s, b, SaveRecord, [StampFinished] + ([SaveRecord] + tail), now);
    ApplyStep(s1, b2, StampFinished, [SaveRecord] + tail, now);
    ApplyStep(s1, b2.(finishedAt := Some(now)), SaveRecord, tail, now);
    SaveTwice(s, b, b2.(finishedAt := Some(now)));
    assert Save(s1, b2.(finishedAt := Some(now))) == (s2, b');
    ApplyTerminalQueues(s2, b', OutcomeQueue(b.state), now);
  }

  /**
   `finish!` from `running`: the target is `errored` exactly when an error is
   present, else `success`; `finished_at` is stamped and the row saved before any
   callback runs; then the queue matching the target runs, then the ensure queue,
   stopping at the first callback that raises.
   */
  lemma FinishBang(s: Store, b: Batch, now: Time)
    requires b.state == Running
    ensures
      var to := if HasErrors(b) then Errored else Success;
      var b' := b.(state := to, finishedAt := Some(now), persisted := true);
      var r := FireBang(FinishEvent, s, b, now);
      var q := RunCallbacks(b', OutcomeQueue(to));
      var en := RunCallbacks(b', EnsureQueue);
      && r.store == s.(records := s.records[b.id := Persist(b')])
      && r.batch == b'
      && (q.raised.Some? ==> r.trace == q.trace && r.raised == q.raised)
      && (q.raised.None? ==> r.trace == q.trace + en.trace && r.raised == en.raised)
  {
    FinishTarget(s, b);
    var to := if HasErrors(b) then Errored else Success;
    assert FireBang(FinishEvent, s, b, now) == Apply(s, b.(state := to), TransitionEffects(Running, to), now);
    ApplyTerminal(s, b.(state := to), now);
  }

  /** `finish!` from any state but `running` raises and changes nothing. */
  lemma FinishBangRefused(s: Store, b: Batch, now: Time)
    requires b.state != Running
    ensures FireBang(FinishEvent, s, b, now) == Fired(s, b, [], Some(InvalidTransition(FinishEvent, b.state)))
  {
    FinishTarget(s, b);
  }

  // ----- duplicate detection -----

  /** A guid-less batch counts a running guid-less row as a duplicate: `nil` matches `nil`. */
  lemma NilGuidMatchesNilGuid(s: Store, b: Batch, k: BatchId)
    requires b.guid.None?
    requires k in s.records && s.records[k].guid.None? && s.records[k].state == Running
    requires !b.persisted || k != b.id
    ensures k in DuplicateBatches(s, b) && AlreadyRunning(s, b)
  {
  }

  /** `already_running` holds exactly when some other row with the same guid is running. */
  lemma AlreadyRunningIff(s: Store, b: Batch)
    ensures AlreadyRunning(s, b) <==>
      exists k :: k in s.records && s.records[k].state == Running && s.records[k].guid == b.guid
                  && (!b.persisted || k != b.id)
  {
    var d := DuplicateBatches(s, b);
    if |d| > 0 {
      var k :| k in d;
    } else {
      assert d == {};
    }
  }

  /** Once a duplicate's terminal state is saved, it no longer counts, and no new duplicate appears. */
  lemma SavedTerminalLeavesDuplicates(s: Store, other: Batch, b: Batch)
    requires other.state != Running
    ensures DuplicateBatches(Save(s, other).0, b) == DuplicateBatches(s, b) - {other.id}
  {
  }

  // ----- the error string of `Batch.run` -----

  /** `lines.join(sep)`. */
  function Join(lines: seq<string>, sep: string): string
  {
    if |lines| == 0 then ""
    else if |lines| == 1 then lines[0]
    else lines[0] + sep + Join(lines[1..], sep)
  }

  /** The single-quoted Ruby literal '\n': a backslash followed by the letter n, not a line break. */
  const BackslashN: string := ['\\', 'n']

  /** `"{#{e.message}\n#{e.backtrace.join('\n')}"`. */
  function FormatError(e: Exception): string
  {
    "{" + e.message + "\n" + Join(e.backtrace, BackslashN)
  }

  /** Index of the first line break in `t`, `|t|` when there is none. */
  function FirstNewline(t: string): (k: nat)
    ensures k <= |t|
    ensures '\n' !in t[..k]
    ensures k < |t| ==> t[k] == '\n'
  {
    if |t| == 0 then 0
    else if t[0] == '\n' then 0
    else
      var k' := FirstNewline(t[1..]);
      assert t[..k' + 1] == [t[0]] + t[1..][..k'];
      1 + k'
  }

  /** Read a formatted error string back as (message, joined backtrace). */
  function ParseError(t: string): Option<(string, string)>
  {
    if |t| == 0 || t[0] != '{' then None
    else
      var k := FirstNewline(t[1..]);
      if k == |t| - 1 then None else Some((t[1..k + 1], t[k + 2..]))
  }

  lemma {:induction false} FirstNewlineAfter(m: string, rest: string)
    requires '\n' !in m
    ensures FirstNewline(m + "\n" + rest) == |m|
  {
    if |m| > 0 {
      assert (m + "\n" + rest)[1..] == m[1..] + "\n" + rest;
      FirstNewlineAfter(m[1..], rest);
    }
  }

  /** The message and the joined backtrace are read back from the formatted string when the message has no line break. */
  lemma ParseFormatError(e: Exception)
    requires '\n' !in e.message
    ensures ParseError(FormatError(e)) == Some((e.message, Join(e.backtrace, BackslashN)))
  {
    var t := FormatError(e);
    var m := e.message;
    var j := Join(e.backtrace, BackslashN);
    assert t == "{" + m + "\n" + j;
    assert t[1..] == m + "\n" + j;
    FirstNewlineAfter(m, j);
    assert t[1..|m| + 1] == m;
    assert t[|m| + 2..] == j;
  }

  /** Backtrace lines without line breaks are joined into one line: the separator is not a line break. */
  lemma {:induction false} JoinedBacktraceIsOneLine(lines: seq<string>)
    requires forall i :: 0 <= i < |lines| ==> '\n' !in lines[i]
    ensures '\n' !in Join(lines, BackslashN)
  {
    if |lines| > 1 {
      JoinedBacktraceIsOneLine(lines[1..]);
    }
  }

  /** A formatted error is never blank, so a batch holding it has errors. */
  lemma FormattedErrorHasErrors(b: Batch, e: Exception)
    requires b.error == Some(TextError(FormatError(e)))
    ensures HasErrors(b)
  {
    assert FormatError(e)[0] == '{';
  }
}
