/** Photo uploads across object storage and the photo tables: two object writes,
    one insert and compensating deletes, where any call may fail, take effect
    without saying so, or never be reached; interleaved with moderation, the
    orphan sweep and the reconciliation of pending rows. */
module PhotoUpload {
  import opened Common
  import Text

  type UploadId = nat
  type RowId = nat

  datatype Part = Full | Thumb

  /** `uploads/{id}/full.jpg` and `uploads/{id}/thumb.jpg`. */
  datatype Key = Key(upload: UploadId, part: Part)

  datatype ModerationState = PendingReview | Approved | Rejected | Hidden

  datatype Row = Row(state: ModerationState, storageKey: Key, thumbnailKey: Key, created: int)

  /** The row an upload inserts. */
  function NewRow(u: UploadId, now: int): Row {
    Row(PendingReview, Key(u, Full), Key(u, Thumb), now)
  }

  /** The port call an upload in flight makes next. */
  datatype Phase = PutFull | PutThumb | InsertRow | UndoThumb | UndoFull

  datatype Flight = Flight(phase: Phase, started: int)

  /** `minted` and `usedIds` are the upload and row ids handed out so far.
      `cleanups` are the keys rejections still have to delete, `aged` and `doomed`
      what sweeps have listed and found unreferenced, `suspects` and `condemned`
      the row ids reconciliation has read and found without their object. */
  datatype State = State(
    now: int,
    objects: map<Key, int>,
    rows: map<RowId, Row>,
    minted: set<UploadId>,
    usedIds: set<RowId>,
    flights: map<UploadId, Flight>,
    cleanups: set<Key>,
    aged: set<Key>,
    doomed: set<Key>,
    suspects: set<RowId>,
    condemned: set<RowId>)

  const EMPTY: State := State(0, map[], map[], {}, {}, map[], {}, {}, {}, {}, {})

  /** `ttl` is the age below which the sweep touches nothing, `grace` the age below
      which reconciliation lists nothing. What the deployment adds: the longest an
      insert may land after its upload's start, if anything bounds it, and whether a
      failed insert is sure to have written no row. */
  datatype Config = Config(ttl: nat, grace: nat, deadline: Option<nat>, insertErrorIsClean: bool)

  // ---------------------------------------------------------------------------
  // Steps
  // ---------------------------------------------------------------------------

  /** `ok` is what the caller is told; `landed` is whether the call took effect. */
  datatype Step =
    | Mint(u: UploadId)
    | FullPut(u: UploadId, ok: bool, landed: bool)
    | ThumbPut(u: UploadId, ok: bool, landed: bool)
    | RowInsert(u: UploadId, id: RowId, ok: bool, landed: bool)
    | ThumbUndo(u: UploadId, landed: bool)
    | FullUndo(u: UploadId, landed: bool)
    | Stop(u: UploadId)
    | Moderate(id: RowId, from: ModerationState, to: ModerationState)
    | Cleanup(key: Key, landed: bool)
    | ListAged(keys: set<Key>)
    | Probe(keys: set<Key>)
    | Sweep(key: Key, landed: bool)
    | ListPending(ids: set<RowId>)
    | CheckObject(id: RowId)
    | DropRow(id: RowId)
    | Tick(elapsed: nat)

  /** Approve, reject, hide and restore: each is one conditional update. */
  predicate Transition(from: ModerationState, to: ModerationState) {
    || (from == PendingReview && to in {Approved, Rejected})
    || (from == Approved && to == Hidden)
    || (from == Hidden && to == Approved)
  }

  predicate InPhase(s: State, u: UploadId, phase: Phase) {
    u in s.flights && s.flights[u].phase == phase
  }

  ghost predicate Referenced(s: State, key: Key) {
    exists id :: id in s.rows && (s.rows[id].storageKey == key || s.rows[id].thumbnailKey == key)
  }

  ghost predicate Enabled(config: Config, s: State, step: Step) {
    match step
    case Mint(u) => u !in s.minted
    case FullPut(u, ok, landed) => InPhase(s, u, PutFull) && (ok ==> landed)
    case ThumbPut(u, ok, landed) => InPhase(s, u, PutThumb) && (ok ==> landed)
    case RowInsert(u, id, ok, landed) =>
      && InPhase(s, u, InsertRow) && id !in s.usedIds && (ok ==> landed)
      && (landed && config.deadline.Some? ==> s.now <= s.flights[u].started + config.deadline.value)
      && (landed && config.insertErrorIsClean ==> ok)
    case ThumbUndo(u, _) => InPhase(s, u, UndoThumb)
    case FullUndo(u, _) => InPhase(s, u, UndoFull)
    case Stop(u) => u in s.flights
    case Moderate(id, from, to) => id in s.rows && s.rows[id].state == from && Transition(from, to)
    case Cleanup(key, _) => key in s.cleanups
    case ListAged(keys) => forall k :: k in keys ==> k in s.objects && s.objects[k] < s.now - config.ttl
    case Probe(keys) => keys <= s.aged
    case Sweep(key, _) => key in s.doomed
    case ListPending(ids) =>
      forall id :: id in ids ==>
        id in s.rows && s.rows[id].state == PendingReview && s.rows[id].created < s.now - config.grace
    case CheckObject(id) => id in s.suspects
    case DropRow(id) => id in s.condemned
    case Tick(_) => true
  }

  function At(s: State, u: UploadId, phase: Phase): State
    requires u in s.flights
  {
    s.(flights := s.flights[u := s.flights[u].(phase := phase)])
  }

  function Landed(s: State, u: UploadId, part: Part, landed: bool): State {
    if landed then s.(objects := s.objects[Key(u, part) := s.now]) else s
  }

  function Removed(s: State, key: Key, landed: bool): State {
    if landed then s.(objects := s.objects - {key}) else s
  }

  function Ended(s: State, u: UploadId): State {
    s.(flights := s.flights - {u})
  }

  ghost function Apply(config: Config, s: State, step: Step): State
    requires Enabled(config, s, step)
  {
    match step
    case Mint(u) => s.(minted := s.minted + {u}, flights := s.flights[u := Flight(PutFull, s.now)])
    case FullPut(u, ok, landed) =>
      var next := Landed(s, u, Full, landed);
      if ok then At(next, u, PutThumb) else Ended(next, u)
    case ThumbPut(u, ok, landed) =>
      At(Landed(s, u, Thumb, landed), u, if ok then InsertRow else UndoFull)
    case RowInsert(u, id, ok, landed) =>
      var next := if landed then s.(rows := s.rows[id := NewRow(u, s.now)],
                                    usedIds := s.usedIds + {id})
                  else s;
      if ok then Ended(next, u) else At(next, u, UndoThumb)
    case ThumbUndo(u, landed) => At(Removed(s, Key(u, Thumb), landed), u, UndoFull)
    case FullUndo(u, landed) => Ended(Removed(s, Key(u, Full), landed), u)
    case Stop(u) => Ended(s, u)
    case Moderate(id, from, to) =>
      var row := s.rows[id];
      var next := s.(rows := s.rows[id := row.(state := to)]);
      if to == Rejected then next.(cleanups := next.cleanups + {row.storageKey, row.thumbnailKey}) else next
    case Cleanup(key, landed) => Removed(s, key, landed).(cleanups := s.cleanups - {key})
    case ListAged(keys) => s.(aged := s.aged + keys)
    case Probe(keys) => s.(aged := s.aged - keys, doomed := s.doomed + set k | k in keys && !Referenced(s, k))
    case Sweep(key, landed) => Removed(s, key, landed).(doomed := s.doomed - {key})
    case ListPending(ids) => s.(suspects := s.suspects + ids)
    case CheckObject(id) =>
      var gone := id in s.rows && s.rows[id].storageKey !in s.objects;
      s.(suspects := s.suspects - {id}, condemned := if gone then s.condemned + {id} else s.condemned)
    case DropRow(id) => s.(rows := s.rows - {id}, condemned := s.condemned - {id})
    case Tick(elapsed) => s.(now := s.now + elapsed)
  }

  /** `steps` can be taken from `s`, one after the other. */
  ghost predicate IsRun(config: Config, s: State, steps: seq<Step>)
    decreases |steps|
  {
    steps != [] ==> Enabled(config, s, steps[0]) && IsRun(config, Apply(config, s, steps[0]), steps[1..])
  }

  ghost function Run(config: Config, s: State, steps: seq<Step>): State
    requires IsRun(config, s, steps)
    decreases |steps|
  {
    if steps == [] then s else Run(config, Apply(config, s, steps[0]), steps[1..])
  }

  // ---------------------------------------------------------------------------
  // Every row that is not rejected has both its objects
  // ---------------------------------------------------------------------------

  ghost predicate Safe(s: State) {
    forall id :: id in s.rows && s.rows[id].state != Rejected ==>
      s.rows[id].storageKey in s.objects && s.rows[id].thumbnailKey in s.objects
  }

  /** Rows name their upload's two keys, and only once its flight has ended. */
  ghost predicate RowsNameTheirKeys(s: State) {
    forall id :: id in s.rows ==>
      && s.rows[id].storageKey.part == Full
      && s.rows[id].thumbnailKey == Key(s.rows[id].storageKey.upload, Thumb)
      && s.rows[id].storageKey.upload in s.minted
      && s.rows[id].storageKey.upload !in s.flights
      && id in s.usedIds
  }

  ghost predicate RowsShareNoUpload(s: State) {
    forall id, id' :: id in s.rows && id' in s.rows && s.rows[id].storageKey.upload == s.rows[id'].storageKey.upload ==>
      id == id'
  }

  predicate InTime(config: Config, s: State, f: Flight) {
    s.now <= f.started + config.ttl
  }

  ghost predicate FlightsAreMinted(s: State) {
    && s.flights.Keys <= s.minted
    && (forall k :: k in s.objects ==> k.upload in s.minted)
    && (forall u :: u in s.flights ==> s.flights[u].started <= s.now)
    && (forall k :: k in s.objects && k.upload in s.flights ==> s.flights[k.upload].started <= s.objects[k])
  }

  /** An upload that can still insert has what it has written so far. */
  ghost predicate FlightsHaveObjects(config: Config, s: State) {
    forall u :: u in s.flights && InTime(config, s, s.flights[u]) ==>
      && (s.flights[u].phase in {PutThumb, InsertRow} ==> Key(u, Full) in s.objects)
      && (s.flights[u].phase == InsertRow ==> Key(u, Thumb) in s.objects)
  }

  ghost predicate OnlyRejected(s: State, u: UploadId) {
    forall id :: id in s.rows && s.rows[id].storageKey.upload == u ==> s.rows[id].state == Rejected
  }

  /** A rejection deletes only what no row in use can name. */
  ghost predicate CleanupsAreHarmless(s: State) {
    forall k :: k in s.cleanups ==> k.upload in s.minted && k.upload !in s.flights && OnlyRejected(s, k.upload)
  }

  /** So does a sweep: what it listed is too old for its upload to insert, and what
      it found unreferenced stays so. */
  ghost predicate SweepsAreHarmless(config: Config, s: State) {
    && (forall k :: k in s.aged || k in s.doomed ==>
          k.upload in s.minted && (k.upload in s.flights ==> !InTime(config, s, s.flights[k.upload])))
    && (forall k, id :: k in s.doomed && id in s.rows ==> s.rows[id].storageKey.upload != k.upload)
  }

  ghost predicate ReconciliationIsHarmless(s: State) {
    && s.suspects <= s.usedIds && s.condemned <= s.usedIds
    && (forall id :: id in s.condemned && id in s.rows ==> s.rows[id].state == Rejected)
  }

  ghost predicate RecordsAgree(s: State) {
    RowsNameTheirKeys(s) && RowsShareNoUpload(s) && FlightsAreMinted(s)
  }

  ghost predicate DeletesAreHarmless(config: Config, s: State) {
    CleanupsAreHarmless(s) && SweepsAreHarmless(config, s) && ReconciliationIsHarmless(s)
  }

  ghost predicate Inv(config: Config, s: State) {
    Safe(s) && RecordsAgree(s) && FlightsHaveObjects(config, s) && DeletesAreHarmless(config, s)
  }

  /** Inserts are over before the sweep may touch their objects. */
  predicate InsertsInTime(config: Config) {
    config.deadline.Some? && config.deadline.value <= config.ttl
  }

  predicate Sound(config: Config) {
    InsertsInTime(config) && config.insertErrorIsClean
  }

  ghost predicate CanStep(config: Config, s: State, step: Step) {
    Sound(config) && Inv(config, s) && Enabled(config, s, step)
  }

  predicate IsUploadStep(step: Step) {
    step.Mint? || step.FullPut? || step.ThumbPut? || step.ThumbUndo? || step.FullUndo? || step.Stop?
  }

  lemma UploadKeepsRows(config: Config, s: State, step: Step)
    requires Enabled(config, s, step) && IsUploadStep(step)
    requires RowsNameTheirKeys(s) && RowsShareNoUpload(s)
    ensures var next := Apply(config, s, step);
            RowsNameTheirKeys(next) && RowsShareNoUpload(next)
  {
  }

  lemma UploadKeepsCleanups(config: Config, s: State, step: Step)
    requires Enabled(config, s, step) && IsUploadStep(step)
    requires CleanupsAreHarmless(s)
    ensures CleanupsAreHarmless(Apply(config, s, step))
  {
  }

  lemma UploadKeepsFlights(config: Config, s: State, step: Step)
    requires Enabled(config, s, step) && IsUploadStep(step)
    requires FlightsAreMinted(s)
    ensures FlightsAreMinted(Apply(config, s, step))
  {
  }

  lemma UploadKeepsObjects(config: Config, s: State, step: Step)
    requires Enabled(config, s, step) && IsUploadStep(step)
    requires FlightsAreMinted(s) && FlightsHaveObjects(config, s)
    ensures FlightsHaveObjects(config, Apply(config, s, step))
  {
  }

  /** Compensation deletes only an upload's own keys, which no row names yet. */
  lemma UploadKeepsSafe(config: Config, s: State, step: Step)
    requires Enabled(config, s, step) && IsUploadStep(step)
    requires Safe(s) && RowsNameTheirKeys(s)
    ensures Safe(Apply(config, s, step))
  {
  }

  lemma UploadKeepsSweeps(config: Config, s: State, step: Step)
    requires Enabled(config, s, step) && IsUploadStep(step)
    requires FlightsAreMinted(s) && SweepsAreHarmless(config, s) && ReconciliationIsHarmless(s)
    ensures SweepsAreHarmless(config, Apply(config, s, step)) && ReconciliationIsHarmless(Apply(config, s, step))
  {
  }

  /** The insert is where a flight's objects become a row's: both are there. */
  lemma InsertKeepsRecords(config: Config, s: State, step: Step)
    requires CanStep(config, s, step) && step.RowInsert?
    ensures var next := Apply(config, s, step);
            Safe(next) && RecordsAgree(next) && FlightsHaveObjects(config, next)
  {
  }

  /** And no delete under way can be about to remove them. */
  lemma InsertKeepsDeletes(config: Config, s: State, step: Step)
    requires CanStep(config, s, step) && step.RowInsert?
    ensures DeletesAreHarmless(config, Apply(config, s, step))
  {
  }

  lemma ModerateKeepsSafe(config: Config, s: State, step: Step)
    requires Safe(s) && FlightsHaveObjects(config, s) && Enabled(config, s, step) && step.Moderate?
    ensures Safe(Apply(config, s, step)) && FlightsHaveObjects(config, Apply(config, s, step))
  {
  }

  lemma ModerateKeepsRecords(config: Config, s: State, step: Step)
    requires RecordsAgree(s) && Enabled(config, s, step) && step.Moderate?
    ensures RecordsAgree(Apply(config, s, step))
  {
  }

  /** Rejected is final, so what a rejection queues for deletion stays unused. */
  lemma ModerateKeepsDeletes(config: Config, s: State, step: Step)
    requires CanStep(config, s, step) && step.Moderate?
    ensures DeletesAreHarmless(config, Apply(config, s, step))
  {
    var next := Apply(config, s, step);
    var u := s.rows[step.id].storageKey.upload;
    assert forall id :: id in next.rows && id != step.id ==> next.rows[id] == s.rows[id];
    assert step.to == Rejected ==> OnlyRejected(next, u);
  }

  lemma CleanupKeepsObjects(config: Config, s: State, step: Step)
    requires CanStep(config, s, step) && step.Cleanup?
    ensures Safe(Apply(config, s, step)) && FlightsHaveObjects(config, Apply(config, s, step))
  {
  }

  lemma CleanupKeepsRecords(config: Config, s: State, step: Step)
    requires Enabled(config, s, step) && step.Cleanup? && RecordsAgree(s) && DeletesAreHarmless(config, s)
    ensures RecordsAgree(Apply(config, s, step)) && DeletesAreHarmless(config, Apply(config, s, step))
  {
  }

  lemma CleanupKeepsInv(config: Config, s: State, step: Step)
    requires CanStep(config, s, step) && step.Cleanup?
    ensures Inv(config, Apply(config, s, step))
  {
    CleanupKeepsObjects(config, s, step);
    CleanupKeepsRecords(config, s, step);
  }

  /** A key found unreferenced has no row of its upload at all. */
  lemma ProbeKeepsInv(config: Config, s: State, step: Step)
    requires CanStep(config, s, step) && step.Probe?
    ensures Inv(config, Apply(config, s, step))
  {
    forall k, id | k in step.keys && !Referenced(s, k) && id in s.rows
      ensures s.rows[id].storageKey.upload != k.upload
    {
      assert k == Key(k.upload, Full) || k == Key(k.upload, Thumb);
    }
  }

  lemma ListAgedKeepsInv(config: Config, s: State, step: Step)
    requires CanStep(config, s, step) && step.ListAged?
    ensures Inv(config, Apply(config, s, step))
  {
  }

  lemma SweepKeepsObjects(config: Config, s: State, step: Step)
    requires CanStep(config, s, step) && step.Sweep?
    ensures Safe(Apply(config, s, step)) && FlightsHaveObjects(config, Apply(config, s, step))
  {
  }

  lemma SweepKeepsRecords(config: Config, s: State, step: Step)
    requires Enabled(config, s, step) && step.Sweep? && RecordsAgree(s) && DeletesAreHarmless(config, s)
    ensures RecordsAgree(Apply(config, s, step)) && DeletesAreHarmless(config, Apply(config, s, step))
  {
  }

  lemma SweepKeepsInv(config: Config, s: State, step: Step)
    requires CanStep(config, s, step) && step.Sweep?
    ensures Inv(config, Apply(config, s, step))
  {
    SweepKeepsObjects(config, s, step);
    SweepKeepsRecords(config, s, step);
  }

  lemma ListPendingKeepsInv(config: Config, s: State, step: Step)
    requires CanStep(config, s, step) && step.ListPending?
    ensures Inv(config, Apply(config, s, step))
  {
    var next := Apply(config, s, step);
    assert next == s.(suspects := next.suspects);
  }

  lemma CheckKeepsInv(config: Config, s: State, step: Step)
    requires CanStep(config, s, step) && step.CheckObject?
    ensures Inv(config, Apply(config, s, step))
  {
    var next := Apply(config, s, step);
    assert next == s.(suspects := next.suspects, condemned := next.condemned);
  }

  lemma DropRowKeepsInv(config: Config, s: State, step: Step)
    requires CanStep(config, s, step) && step.DropRow?
    ensures Inv(config, Apply(config, s, step))
  {
  }

  lemma TickKeepsInv(config: Config, s: State, step: Step)
    requires CanStep(config, s, step) && step.Tick?
    ensures Inv(config, Apply(config, s, step))
  {
  }

  lemma StepKeepsInv(config: Config, s: State, step: Step)
    requires CanStep(config, s, step)
    ensures Inv(config, Apply(config, s, step))
  {
    if IsUploadStep(step) {
      UploadKeepsRows(config, s, step);
      UploadKeepsCleanups(config, s, step);
      UploadKeepsSafe(config, s, step);
      UploadKeepsFlights(config, s, step);
      UploadKeepsObjects(config, s, step);
      UploadKeepsSweeps(config, s, step);
    } else {
      match step
      case RowInsert(_, _, _, _) =>
        InsertKeepsRecords(config, s, step);
        InsertKeepsDeletes(config, s, step);
      case Moderate(_, _, _) =>
        ModerateKeepsSafe(config, s, step);
        ModerateKeepsRecords(config, s, step);
        ModerateKeepsDeletes(config, s, step);
      case Cleanup(_, _) => CleanupKeepsInv(config, s, step);
      case Probe(_) => ProbeKeepsInv(config, s, step);
      case ListAged(_) => ListAgedKeepsInv(config, s, step);
      case Sweep(_, _) => SweepKeepsInv(config, s, step);
      case Tick(_) => TickKeepsInv(config, s, step);
      case DropRow(_) => DropRowKeepsInv(config, s, step);
      case ListPending(_) => ListPendingKeepsInv(config, s, step);
      case CheckObject(_) => CheckKeepsInv(config, s, step);
    }
  }

  lemma {:induction false} RunKeepsInv(config: Config, s: State, steps: seq<Step>)
    requires Sound(config) && Inv(config, s) && IsRun(config, s, steps)
    ensures Inv(config, Run(config, s, steps))
    decreases |steps|
  {
    if steps == [] {
    } else {
      StepKeepsInv(config, s, steps[0]);
      RunKeepsInv(config, Apply(config, s, steps[0]), steps[1..]);
    }
  }

  lemma EmptyIsInv(config: Config)
    ensures Inv(config, EMPTY)
  {
  }

  ghost predicate AlwaysSafe(config: Config) {
    forall steps {:trigger IsRun(config, EMPTY, steps)} :: IsRun(config, EMPTY, steps) ==>
        Safe(Run(config, EMPTY, steps))
  }

  /** Over every run of uploads, moderation, sweeps and reconciliation, with any
      call failing and any process stopping at any point, every row that is not
      rejected has both its objects: exactly when inserts are bounded by a deadline
      no longer than the sweep's age limit and a failed insert writes nothing. */
  lemma SafeExactlyWhenSound(config: Config)
    ensures AlwaysSafe(config) <==>
              config.deadline.Some? && config.deadline.value <= config.ttl && config.insertErrorIsClean
  {
    if Sound(config) {
      forall steps | IsRun(config, EMPTY, steps) ensures Safe(Run(config, EMPTY, steps)) {
        EmptyIsInv(config);
        RunKeepsInv(config, EMPTY, steps);
      }
    } else if !InsertsInTime(config) {
      var steps := SweptBeforeInsert(config);
      assert !Safe(Run(config, EMPTY, steps));
    } else {
      var steps := UndoneAfterInsert(config);
      assert !Safe(Run(config, EMPTY, steps));
    }
  }

  lemma RunCons(config: Config, s: State, step: Step, rest: seq<Step>)
    requires Enabled(config, s, step) && IsRun(config, Apply(config, s, step), rest)
    ensures IsRun(config, s, [step] + rest)
    ensures Run(config, s, [step] + rest) == Run(config, Apply(config, s, step), rest)
  {
    assert ([step] + rest)[1..] == rest;
  }

  lemma {:induction false} RunConcat(config: Config, s: State, a: seq<Step>, b: seq<Step>)
    requires IsRun(config, s, a) && IsRun(config, Run(config, s, a), b)
    ensures IsRun(config, s, a + b)
    ensures Run(config, s, a + b) == Run(config, Run(config, s, a), b)
    decreases |a|
  {
    if a == [] {
      assert a + b == b;
    } else {
      RunConcat(config, Apply(config, s, a[0]), a[1..], b);
      RunCons(config, s, a[0], a[1..] + b);
      assert a + b == [a[0]] + (a[1..] + b);
    }
  }

  lemma OneStep(config: Config, s: State, step: Step)
    requires Enabled(config, s, step)
    ensures IsRun(config, s, [step]) && Run(config, s, [step]) == Apply(config, s, step)
  {
    assert [step][1..] == [];
  }

  /** The state of a first upload, both objects written, about to insert. */
  lemma BothObjectsWritten(config: Config) returns (steps: seq<Step>)
    ensures IsRun(config, EMPTY, steps)
    ensures Run(config, EMPTY, steps) == EMPTY.(minted := {0}, flights := map[0 := Flight(InsertRow, 0)],
                                                objects := map[Key(0, Full) := 0, Key(0, Thumb) := 0])
  {
    var s1 := Apply(config, EMPTY, Mint(0));
    var s2 := Apply(config, s1, FullPut(0, true, true));
    var s3 := Apply(config, s2, ThumbPut(0, true, true));
    assert s3.flights == map[0 := Flight(InsertRow, 0)];
    assert s3.objects == map[Key(0, Full) := 0, Key(0, Thumb) := 0];
    steps := [Mint(0), FullPut(0, true, true), ThumbPut(0, true, true)];
    OneStep(config, s2, ThumbPut(0, true, true));
    RunCons(config, s1, FullPut(0, true, true), [ThumbPut(0, true, true)]);
    RunCons(config, EMPTY, Mint(0), [FullPut(0, true, true), ThumbPut(0, true, true)]);
    assert [Mint(0)] + ([FullPut(0, true, true)] + [ThumbPut(0, true, true)]) == steps;
  }

  /** An insert that comes after the sweep removed its objects. */
  lemma SweptBeforeInsert(config: Config) returns (steps: seq<Step>)
    requires !InsertsInTime(config)
    ensures IsRun(config, EMPTY, steps) && !Safe(Run(config, EMPTY, steps))
  {
    var full := Key(0, Full);
    var written := BothObjectsWritten(config);
    var s := Run(config, EMPTY, written);
    var late := Tick(config.ttl + 1);
    var s1 := Apply(config, s, late);
    var s2 := Apply(config, s1, ListAged({full}));
    var s3 := Apply(config, s2, Probe({full}));
    assert !Referenced(s2, full);
    assert full in s3.doomed;
    var s4 := Apply(config, s3, Sweep(full, true));
    var s5 := Apply(config, s4, RowInsert(0, 0, true, true));
    OneStep(config, s4, RowInsert(0, 0, true, true));
    RunCons(config, s3, Sweep(full, true), [RowInsert(0, 0, true, true)]);
    RunCons(config, s2, Probe({full}), [Sweep(full, true)] + [RowInsert(0, 0, true, true)]);
    RunCons(config, s1, ListAged({full}), [Probe({full})] + ([Sweep(full, true)] + [RowInsert(0, 0, true, true)]));
    var rest := [ListAged({full})] + ([Probe({full})] + ([Sweep(full, true)] + [RowInsert(0, 0, true, true)]));
    RunCons(config, s, late, rest);
    RunConcat(config, EMPTY, written, [late] + rest);
    steps := written + ([late] + rest);
    assert s5.rows[0].storageKey == full && full !in s5.objects;
  }

  /** An insert that wrote its row, was reported as failed, and was compensated. */
  lemma UndoneAfterInsert(config: Config) returns (steps: seq<Step>)
    requires !config.insertErrorIsClean
    ensures IsRun(config, EMPTY, steps) && !Safe(Run(config, EMPTY, steps))
  {
    var written := BothObjectsWritten(config);
    var s := Run(config, EMPTY, written);
    var s1 := Apply(config, s, RowInsert(0, 0, false, true));
    var s2 := Apply(config, s1, ThumbUndo(0, true));
    OneStep(config, s1, ThumbUndo(0, true));
    RunCons(config, s, RowInsert(0, 0, false, true), [ThumbUndo(0, true)]);
    var rest := [RowInsert(0, 0, false, true)] + [ThumbUndo(0, true)];
    RunConcat(config, EMPTY, written, rest);
    steps := written + rest;
    assert s2.rows[0].thumbnailKey !in s2.objects;
  }

  // ---------------------------------------------------------------------------
  // Reconciliation
  // ---------------------------------------------------------------------------

  /** The reconciliation of pending rows never drops a row in use: at any point of
      any run, a row it is about to drop has been rejected since it was listed. */
  lemma ReconciliationDropsOnlyRejected(config: Config, steps: seq<Step>, id: RowId)
    requires Sound(config) && IsRun(config, EMPTY, steps)
    requires Enabled(config, Run(config, EMPTY, steps), DropRow(id))
    ensures var rows := Run(config, EMPTY, steps).rows;
            id in rows ==> rows[id].state == Rejected
  {
    EmptyIsInv(config);
    RunKeepsInv(config, EMPTY, steps);
  }

  lemma FirstRowPending(config: Config) returns (steps: seq<Step>)
    ensures IsRun(config, EMPTY, steps)
    ensures Run(config, EMPTY, steps) == EMPTY.(minted := {0}, usedIds := {0},
                                                objects := map[Key(0, Full) := 0, Key(0, Thumb) := 0],
                                                rows := map[0 := NewRow(0, 0)])
  {
    var written := BothObjectsWritten(config);
    var s := Run(config, EMPTY, written);
    OneStep(config, s, RowInsert(0, 0, true, true));
    RunConcat(config, EMPTY, written, [RowInsert(0, 0, true, true)]);
    steps := written + [RowInsert(0, 0, true, true)];
    assert s.flights - {0} == map[];
  }

  /** Exactly what it condemns: in every sound run, a listed row whose object it looks up
      is condemned if and only if the row has been rejected since it was listed and its
      object is already gone. */
  lemma ReconciliationCondemnsIff(config: Config, steps: seq<Step>, id: RowId)
    requires Sound(config) && IsRun(config, EMPTY, steps)
    requires var s := Run(config, EMPTY, steps);
             id in s.suspects && id in s.rows && id !in s.condemned
    ensures var s := Run(config, EMPTY, steps);
            id in Apply(config, s, CheckObject(id)).condemned <==>
              s.rows[id].state == Rejected && s.rows[id].storageKey !in s.objects
  {
    EmptyIsInv(config);
    RunKeepsInv(config, EMPTY, steps);
  }

  /** A first row, listed as soon as it is old enough. */
  lemma FirstRowListed(config: Config) returns (steps: seq<Step>)
    ensures IsRun(config, EMPTY, steps)
    ensures var s := Run(config, EMPTY, steps); 0 in s.suspects && s.rows == map[0 := NewRow(0, 0)]
  {
    var pending := FirstRowPending(config);
    var s1 := Run(config, EMPTY, pending);
    var wait, listed := Tick(config.grace + 1), ListPending({0});
    var s2 := Apply(config, s1, wait);
    OneStep(config, s2, listed);
    RunCons(config, s1, wait, [listed]);
    RunConcat(config, EMPTY, pending, [wait] + [listed]);
    steps := pending + ([wait] + [listed]);
  }

  /** So it can drop a row, though its comment expects it to find none: one rejected, and
      cleaned up, between being listed and having its object looked up. */
  lemma ReconciliationCanDropRejected(config: Config) returns (steps: seq<Step>)
    ensures IsRun(config, EMPTY, steps)
    ensures var s := Run(config, EMPTY, steps); Enabled(config, s, DropRow(0)) && 0 in s.rows
  {
    steps := FirstRowListed(config);
    var rest := RejectedUnderReconciliation(config, Run(config, EMPTY, steps));
    RunConcat(config, EMPTY, steps, rest);
    steps := steps + rest;
  }

  lemma RejectedUnderReconciliation(config: Config, s: State) returns (steps: seq<Step>)
    requires 0 in s.suspects && 0 in s.rows && s.rows[0] == NewRow(0, 0)
    ensures IsRun(config, s, steps)
    ensures var end := Run(config, s, steps); Enabled(config, end, DropRow(0)) && 0 in end.rows
  {
    var reject, cleanup, check := Moderate(0, PendingReview, Rejected), Cleanup(Key(0, Full), true), CheckObject(0);
    var s1 := Apply(config, s, reject);
    var s2 := Apply(config, s1, cleanup);
    OneStep(config, s2, check);
    RunCons(config, s1, cleanup, [check]);
    RunCons(config, s, reject, [cleanup] + [check]);
    steps := [reject] + ([cleanup] + [check]);
  }

  // ---------------------------------------------------------------------------
  // The service calls, as runs of those steps
  // ---------------------------------------------------------------------------

  /** Whether a port call reports success, whether it took effect, and how long
      after the call before it. */
  datatype Outcome = Outcome(ok: bool, landed: bool, after: nat)

  /** How each port call of one upload turns out, if it is reached. */
  datatype UploadCalls = UploadCalls(full: Outcome, thumb: Outcome, insert: Outcome,
                                     thumbUndone: bool, fullUndone: bool, audited: bool)

  /** What the ports and the deployment promise of them. */
  predicate Honest(config: Config, calls: UploadCalls) {
    && (calls.full.ok ==> calls.full.landed) && (calls.thumb.ok ==> calls.thumb.landed)
    && (calls.insert.ok ==> calls.insert.landed)
    && (config.insertErrorIsClean && calls.insert.landed ==> calls.insert.ok)
    && (config.deadline.Some? && calls.insert.landed ==>
          calls.full.after + calls.thumb.after + calls.insert.after <= config.deadline.value)
  }

  /** Every failed write left nothing and every compensating delete took effect. */
  predicate CleanFailures(calls: UploadCalls) {
    && (calls.full.landed ==> calls.full.ok) && (calls.thumb.landed ==> calls.thumb.ok)
    && calls.thumbUndone && calls.fullUndone
  }

  datatype PhotoError =
    | TooLarge | InvalidAlt | ProcessingFailed
    | StorageFailed | InsertFailed | AuditFailed | BlankReason | NotFound | NotPending

  class PhotoService {
    const config: Config
    var now: int
    var objects: map<Key, int>
    var rows: map<RowId, Row>
    /** The whole state the steps speak of, other requests' part included. */
    ghost var world: State

    ghost predicate Agrees()
      reads this
    {
      world.now == now && world.objects == objects && world.rows == rows
    }

    constructor (config: Config)
      ensures this.config == config && world == EMPTY && Agrees()
    {
      this.config, now, objects, rows, world := config, 0, map[], map[], EMPTY;
    }

    method Put(key: Key, o: Outcome) returns (ok: bool)
      modifies `objects
      ensures ok == o.ok
      ensures objects == if o.landed then old(objects)[key := now] else old(objects)
    {
      if o.landed {
        objects := objects[key := now];
      }
      return o.ok;
    }

    method Delete(key: Key, landed: bool)
      modifies `objects
      ensures objects == if landed then old(objects) - {key} else old(objects)
    {
      if landed {
        objects := objects - {key};
      }
    }

    /** Records that the port call just made is `step`. */
    ghost method Took(step: Step, before: State, done: seq<Step>) returns (steps: seq<Step>)
      requires IsRun(config, before, done) && world == Run(config, before, done)
      requires Enabled(config, world, step)
      modifies `world
      ensures world == Apply(config, old(world), step)
      ensures IsRun(config, before, steps) && world == Run(config, before, steps)
    {
      OneStep(config, world, step);
      RunConcat(config, before, done, [step]);
      world := Apply(config, world, step);
      steps := done + [step];
    }

    ghost method Begin(u: UploadId) returns (steps: seq<Step>)
      requires Agrees() && u !in world.minted
      modifies `world
      ensures Agrees() && world.usedIds == old(world.usedIds)
      ensures world.flights == old(world).flights[u := Flight(PutFull, now)]
      ensures IsRun(config, old(world), steps) && world == Run(config, old(world), steps)
    {
      steps := Took(Mint(u), world, []);
    }

    method Wait(elapsed: nat, ghost before: State, ghost done: seq<Step>) returns (ghost steps: seq<Step>)
      requires Agrees() && IsRun(config, before, done) && world == Run(config, before, done)
      modifies `now, `world
      ensures now == old(now) + elapsed && world == old(world).(now := now)
      ensures Agrees() && IsRun(config, before, steps) && world == Run(config, before, steps)
    {
      now := now + elapsed;
      steps := Took(Tick(elapsed), before, done);
    }

    method PutPart(u: UploadId, part: Part, o: Outcome, ghost before: State, ghost done: seq<Step>)
      returns (ok: bool, ghost steps: seq<Step>)
      requires Agrees() && (o.ok ==> o.landed) && InPhase(world, u, if part.Full? then PutFull else PutThumb)
      requires IsRun(config, before, done) && world == Run(config, before, done)
      modifies `now, `objects, `world
      ensures Agrees() && world.usedIds == old(world.usedIds) && ok == o.ok && now == old(now) + o.after
      ensures objects == if o.landed then old(objects)[Key(u, part) := now] else old(objects)
      ensures u in world.flights <==> ok || part.Thumb?
      ensures u in world.flights ==>
                var phase := if part.Full? then PutThumb else if ok then InsertRow else UndoFull;
                world.flights[u] == Flight(phase, old(world).flights[u].started)
      ensures IsRun(config, before, steps) && world == Run(config, before, steps)
    {
      steps := Wait(o.after, before, done);
      ok := Put(Key(u, part), o);
      steps := Took(if part.Full? then FullPut(u, o.ok, o.landed) else ThumbPut(u, o.ok, o.landed), before, steps);
    }

    method UndoPart(u: UploadId, part: Part, landed: bool, ghost before: State, ghost done: seq<Step>)
      returns (ghost steps: seq<Step>)
      requires Agrees() && InPhase(world, u, if part.Full? then UndoFull else UndoThumb)
      requires IsRun(config, before, done) && world == Run(config, before, done)
      modifies `objects, `world
      ensures Agrees() && world.usedIds == old(world.usedIds)
      ensures objects == if landed then old(objects) - {Key(u, part)} else old(objects)
      ensures if part.Full? then u !in world.flights else InPhase(world, u, UndoFull)
      ensures IsRun(config, before, steps) && world == Run(config, before, steps)
    {
      Delete(Key(u, part), landed);
      steps := Took(if part.Full? then FullUndo(u, landed) else ThumbUndo(u, landed), before, done);
    }

    /** The insert can still land when it is made. */
    ghost predicate Timely(u: UploadId, o: Outcome)
      reads this
    {
      && InPhase(world, u, InsertRow)
      && (o.landed && config.deadline.Some? ==> now + o.after <= world.flights[u].started + config.deadline.value)
    }

    method InsertPending(u: UploadId, id: RowId, o: Outcome) returns (ok: bool, ghost steps: seq<Step>)
      requires Agrees() && id !in world.usedIds && (o.ok ==> o.landed) &&
                (config.insertErrorIsClean && o.landed ==> o.ok)
      requires Timely(u, o)
      modifies `now, `rows, `world
      ensures Agrees() && ok == o.ok
      ensures rows == if o.landed then old(rows)[id := NewRow(u, now)] else old(rows)
      ensures if ok then u !in world.flights else InPhase(world, u, UndoThumb)
      ensures IsRun(config, old(world), steps) && world == Run(config, old(world), steps)
    {
      ghost var before := world;
      steps := Wait(o.after, before, []);
      if o.landed {
        rows := rows[id := NewRow(u, now)];
      }
      steps := Took(RowInsert(u, id, o.ok, o.landed), before, steps);
      ok := o.ok;
    }

    method WriteFull(u: UploadId, o: Outcome) returns (ok: bool, ghost steps: seq<Step>)
      requires Agrees() && u !in world.minted && (o.ok ==> o.landed)
      modifies `now, `objects, `world
      ensures Agrees() && world.usedIds == old(world.usedIds) && ok == o.ok && now == old(now) + o.after
      ensures objects == if o.landed then old(objects)[Key(u, Full) := now] else old(objects)
      ensures u in world.flights <==> ok
      ensures ok ==> world.flights[u] == Flight(PutThumb, old(now))
      ensures IsRun(config, old(world), steps) && world == Run(config, old(world), steps)
    {
      ghost var before := world;
      steps := Begin(u);
      ok, steps := PutPart(u, Full, o, before, steps);
    }

    /** The full object, then the thumbnail, undoing the first if the second
        fails. */
    method WriteObjects(u: UploadId, calls: UploadCalls) returns (ok: bool, ghost steps: seq<Step>)
      requires Agrees() && u !in world.minted && Honest(config, calls)
      requires Key(u, Full) !in objects && Key(u, Thumb) !in objects
      modifies `now, `objects, `world
      ensures Agrees() && world.usedIds == old(world.usedIds)
      ensures IsRun(config, old(world), steps) && world == Run(config, old(world), steps)
      ensures ok ==> Timely(u, calls.insert)
      ensures ok ==> objects == old(objects)[Key(u, Full) := old(now) + calls.full.after]
                                            [Key(u, Thumb) := old(now) + calls.full.after + calls.thumb.after]
      ensures !ok ==> u !in world.flights && (CleanFailures(calls) ==> objects == old(objects))
    {
      ghost var before := world;
      ok, steps := WriteFull(u, calls.full);
      if !ok {
        return;
      }
      ok, steps := PutPart(u, Thumb, calls.thumb, before, steps);
      if !ok {
        steps := UndoPart(u, Full, calls.fullUndone, before, steps);
      }
    }

    /** The row, undoing both objects if the insert fails. */
    method WriteRow(u: UploadId, id: RowId, calls: UploadCalls) returns (ok: bool, ghost steps: seq<Step>)
      requires Agrees() && Honest(config, calls) && id !in world.usedIds && Timely(u, calls.insert)
      modifies `now, `objects, `rows, `world
      ensures Agrees() && u !in world.flights
      ensures IsRun(config, old(world), steps) && world == Run(config, old(world), steps)
      ensures ok ==> rows == old(rows)[id := NewRow(u, now)] && objects == old(objects)
      ensures !ok && config.insertErrorIsClean ==> rows == old(rows)
      ensures !ok && CleanFailures(calls) ==> objects == old(objects) - {Key(u, Thumb)} - {Key(u, Full)}
    {
      ghost var before := world;
      ok, steps := InsertPending(u, id, calls.insert);
      if !ok {
        steps := UndoPart(u, Thumb, calls.thumbUndone, before, steps);
        steps := UndoPart(u, Full, calls.fullUndone, before, steps);
      }
    }

    /** `screened` is what the checks before the first write say: the size, the
        caption, the image itself. Success leaves a pending row with both its
        objects. A failure before the audit leaves no row and, if undoing works,
        nothing at all. */
    method UploadPhoto(u: UploadId, id: RowId, screened: Option<PhotoError>, calls: UploadCalls)
      returns (r: Result<RowId, PhotoError>, ghost steps: seq<Step>)
      requires Agrees() && u !in world.minted && id !in world.usedIds && Honest(config, calls)
      requires screened.Some? ==> screened.value in {TooLarge, InvalidAlt, ProcessingFailed}
      requires Key(u, Full) !in objects && Key(u, Thumb) !in objects
      modifies `now, `objects, `rows, `world
      ensures Agrees() && (screened.None? ==> u !in world.flights)
      ensures IsRun(config, old(world), steps) && world == Run(config, old(world), steps)
      ensures screened.Some? ==> r == Err(screened.value) && world == old(world)
      ensures r.Ok? ==> r.value == id
      ensures r.Ok? || r.error == AuditFailed ==>
                && rows == old(rows)[id := NewRow(u, now)]
                && Key(u, Full) in objects && Key(u, Thumb) in objects
      ensures r.Err? && r.error != AuditFailed && config.insertErrorIsClean ==> rows == old(rows)
      ensures r.Err? && r.error != AuditFailed && CleanFailures(calls) ==> objects == old(objects)
    {
      if screened.Some? {
        return Err(screened.value), [];
      }
      ghost var before := world;
      var ok;
      ok, steps := WriteObjects(u, calls);
      if !ok {
        return Err(StorageFailed), steps;
      }
      ghost var rest;
      ok, rest := WriteRow(u, id, calls);
      RunConcat(config, before, steps, rest);
      steps := steps + rest;
      if !ok {
        return Err(InsertFailed), steps;
      }
      if !calls.audited {
        return Err(AuditFailed), steps;
      }
      return Ok(id), steps;
    }

    /** What rejecting a photo answers: a failed audit is an error although the photo
        is rejected. */
    ghost function Rejecting(id: RowId, reason: string, audited: bool): Result<(), PhotoError>
      reads this
    {
      if Text.Trim(reason) == [] then Err(BlankReason)
      else if id !in rows then Err(NotFound)
      else if rows[id].state == Rejected then Ok(())
      else if rows[id].state != PendingReview then Err(NotPending)
      else if audited then Ok(())
      else Err(AuditFailed)
    }

    method RejectPending(id: RowId, fullDeleted: bool, thumbDeleted: bool) returns (ghost steps: seq<Step>)
      requires Agrees() && id in rows && rows[id].state == PendingReview
      requires rows[id].storageKey != rows[id].thumbnailKey
      modifies `objects, `rows, `world
      ensures Agrees() && IsRun(config, old(world), steps) && world == Run(config, old(world), steps)
      ensures rows == old(rows)[id := old(rows)[id].(state := Rejected)]
      ensures objects == old(objects) - (if fullDeleted then {rows[id].storageKey} else {})
                                      - (if thumbDeleted then {rows[id].thumbnailKey} else {})
    {
      ghost var before := world;
      var row := rows[id];
      rows := rows[id := row.(state := Rejected)];
      steps := Took(Moderate(id, PendingReview, Rejected), before, []);
      steps := DeleteRejected(row.storageKey, fullDeleted, before, steps);
      steps := DeleteRejected(row.thumbnailKey, thumbDeleted, before, steps);
    }

    /** Rejects a pending photo, then deletes both objects as far as the store
        allows. In any other case nothing changes. */
    method RejectPhoto(id: RowId, reason: string, fullDeleted: bool, thumbDeleted: bool, audited: bool)
      returns (r: Result<(), PhotoError>, ghost steps: seq<Step>)
      requires Agrees() && (id in rows ==> rows[id].storageKey != rows[id].thumbnailKey)
      modifies `objects, `rows, `world
      ensures Agrees()
      ensures IsRun(config, old(world), steps) && world == Run(config, old(world), steps)
      ensures r == old(Rejecting(id, reason, audited))
      ensures var rejects := Text.Trim(reason) != [] && id in old(rows) && old(rows)[id].state == PendingReview;
              && (!rejects ==> world == old(world))
              && (rejects ==>
                    && rows == old(rows)[id := old(rows)[id].(state := Rejected)]
                    && objects == old(objects) - (if fullDeleted then {rows[id].storageKey} else {})
                                               - (if thumbDeleted then {rows[id].thumbnailKey} else {}))
    {
      steps := [];
      if Text.Trim(reason) == [] {
        return Err(BlankReason), steps;
      }
      if id !in rows {
        return Err(NotFound), steps;
      }
      var row := rows[id];
      if row.state == Rejected {
        return Ok(()), steps;
      }
      if row.state != PendingReview {
        return Err(NotPending), steps;
      }
      steps := RejectPending(id, fullDeleted, thumbDeleted);
      if !audited {
        return Err(AuditFailed), steps;
      }
      return Ok(()), steps;
    }

    method DeleteRejected(key: Key, landed: bool, ghost before: State, ghost done: seq<Step>)
      returns (ghost steps: seq<Step>)
      requires Agrees() && key in world.cleanups
      requires IsRun(config, before, done) && world == Run(config, before, done)
      modifies `objects, `world
      ensures Agrees() && world.cleanups == old(world.cleanups) - {key}
      ensures objects == if landed then old(objects) - {key} else old(objects)
      ensures IsRun(config, before, steps) && world == Run(config, before, steps)
    {
      Delete(key, landed);
      steps := Took(Cleanup(key, landed), before, done);
    }
  }
}
