/**
 * The audit-stamp rules of `BaseDocument.save`, `CreationMixin.ensure_created`
 * and `UpdationMixin.touch` (backend/app/common/models.py), stated on values.
 * The class in module Documents performs them in place; the functions here are
 * its specification, and the lemmas state what a run of several saves does.
 */
module Stamping {
  import opened Wrappers

  /** A UTC instant, as a number of clock ticks; `utc_now()` becomes an input. */
  type Instant = int

  /** An opaque actor identifier (`user_id`). */
  type ActorId = string

  /** Python truthiness of `user_id`: both `None` and `""` mean "no actor". */
  predicate Truthy(userId: Option<ActorId>)
  {
    userId.Some? && userId.value != ""
  }

  /** Which of the four metadata fields a document type declares (the `hasattr` probes). */
  datatype Schema = Schema(hasCreatedAt: bool, hasCreatedBy: bool, hasUpdatedAt: bool, hasUpdatedBy: bool)

  /** A document type that declares all four fields (CreationMixin and UpdationMixin together). */
  const FullSchema := Schema(true, true, true, true)

  /** A document type that declares none of them. */
  const BareSchema := Schema(false, false, false, false)

  /** The values of the four metadata fields. */
  datatype Stamps = Stamps(createdAt: Option<Instant>, createdBy: Option<ActorId>,
                           updatedAt: Option<Instant>, updatedBy: Option<ActorId>)

  /** A field the document type does not declare holds no value. */
  predicate Declared(schema: Schema, s: Stamps)
  {
    (!schema.hasCreatedAt ==> s.createdAt.None?) &&
    (!schema.hasCreatedBy ==> s.createdBy.None?) &&
    (!schema.hasUpdatedAt ==> s.updatedAt.None?) &&
    (!schema.hasUpdatedBy ==> s.updatedBy.None?)
  }

  /** The creation block of `save` (models.py lines 68-73). */
  function StampCreation(schema: Schema, s: Stamps, userId: Option<ActorId>, now: Instant): (r: Stamps)
    ensures r.updatedAt == s.updatedAt && r.updatedBy == s.updatedBy
    ensures schema.hasCreatedAt ==> r.createdAt.Some?
  {
    if schema.hasCreatedAt && s.createdAt.None? then
      s.(createdAt := Some(now),
         createdBy := if schema.hasCreatedBy && Truthy(userId) then userId else s.createdBy)
    else
      s
  }

  /** The update block of `save` (models.py lines 76-79). */
  function StampUpdate(schema: Schema, s: Stamps, userId: Option<ActorId>, now: Instant): (r: Stamps)
    ensures r.createdAt == s.createdAt && r.createdBy == s.createdBy
    ensures schema.hasUpdatedAt ==> r.updatedAt == Some(now)
  {
    if schema.hasUpdatedAt then
      s.(updatedAt := Some(now),
         updatedBy := if schema.hasUpdatedBy && Truthy(userId) then userId else s.updatedBy)
    else
      s
  }

  /**
   * The fields after the stamping part of one `save(user_id)`, before the
   * storage write.  `clockAtCreate` and `clockAtUpdate` are the two separate
   * readings of `utc_now()` at lines 71 and 77.
   */
  function Stamped(schema: Schema, s: Stamps, userId: Option<ActorId>,
                   clockAtCreate: Instant, clockAtUpdate: Instant): (r: Stamps)
    // created_at is write-once; created_by is only written together with it
    ensures s.createdAt.Some? ==> r.createdAt == s.createdAt && r.createdBy == s.createdBy
    ensures schema.hasCreatedAt && s.createdAt.None? ==> r.createdAt == Some(clockAtCreate)
    ensures !schema.hasCreatedAt ==> r.createdAt == s.createdAt
    ensures r.createdBy != s.createdBy <==>
              schema.hasCreatedAt && schema.hasCreatedBy && s.createdAt.None? &&
              Truthy(userId) && userId != s.createdBy
    ensures r.createdBy != s.createdBy ==> r.createdBy == userId
    // updated_at is refreshed on every save; updated_by only for a truthy actor
    ensures schema.hasUpdatedAt ==> r.updatedAt == Some(clockAtUpdate)
    ensures !schema.hasUpdatedAt ==> r.updatedAt == s.updatedAt && r.updatedBy == s.updatedBy
    ensures schema.hasUpdatedAt && schema.hasUpdatedBy && Truthy(userId) ==> r.updatedBy == userId
    ensures r.updatedBy != s.updatedBy ==> schema.hasUpdatedAt && schema.hasUpdatedBy && Truthy(userId)
    ensures !Truthy(userId) ==> r.createdBy == s.createdBy && r.updatedBy == s.updatedBy
    // nothing undeclared is ever written
    ensures Declared(schema, s) ==> Declared(schema, r)
  {
    StampUpdate(schema, StampCreation(schema, s, userId, clockAtCreate), userId, clockAtUpdate)
  }

  /** `CreationMixin.ensure_created` (models.py lines 21-24): set created_at only if it is missing. */
  function AfterEnsureCreated(s: Stamps, now: Instant): (r: Stamps)
    ensures r.createdAt.Some?
    ensures s.createdAt.None? ==> r.createdAt == Some(now)
    ensures s.createdAt.Some? ==> r == s
    ensures r.createdBy == s.createdBy && r.updatedAt == s.updatedAt && r.updatedBy == s.updatedBy
  {
    if s.createdAt.None? then s.(createdAt := Some(now)) else s
  }

  /** `UpdationMixin.touch(user_id)` (models.py lines 33-37). */
  function AfterTouch(s: Stamps, userId: Option<ActorId>, now: Instant): (r: Stamps)
    ensures r.updatedAt == Some(now)
    ensures r.updatedBy == (if Truthy(userId) then userId else s.updatedBy)
    ensures r.createdAt == s.createdAt && r.createdBy == s.createdBy
  {
    s.(updatedAt := Some(now), updatedBy := if Truthy(userId) then userId else s.updatedBy)
  }

  /** `ensure_created` is idempotent: a second call, at any instant, changes nothing. */
  lemma EnsureCreatedIdempotent(s: Stamps, first: Instant, second: Instant)
    ensures AfterEnsureCreated(AfterEnsureCreated(s, first), second) == AfterEnsureCreated(s, first)
  {
  }

  /**
   * On a document type with all four fields, `save` agrees with the mixin
   * helpers: its creation stamp is `ensure_created`'s, and its update stamp is
   * `touch`'s.
   */
  lemma SaveAgreesWithMixins(s: Stamps, userId: Option<ActorId>, clockAtCreate: Instant, clockAtUpdate: Instant)
    ensures Stamped(FullSchema, s, userId, clockAtCreate, clockAtUpdate).createdAt
            == AfterEnsureCreated(s, clockAtCreate).createdAt
    ensures Stamped(FullSchema, s, userId, clockAtCreate, clockAtUpdate).updatedAt
            == AfterTouch(s, userId, clockAtUpdate).updatedAt
    ensures Stamped(FullSchema, s, userId, clockAtCreate, clockAtUpdate).updatedBy
            == AfterTouch(s, userId, clockAtUpdate).updatedBy
  {
  }

  // ---------------------------------------------------------------------------
  // Runs of several saves

  /** The arguments of one `save` call: the actor and the two clock readings. */
  datatype SaveCall = SaveCall(userId: Option<ActorId>, clockAtCreate: Instant, clockAtUpdate: Instant)

  /** The fields after a sequence of saves, in order. */
  function Run(schema: Schema, s: Stamps, calls: seq<SaveCall>): Stamps
    decreases |calls|
  {
    if calls == [] then s
    else Run(schema, Stamped(schema, s, calls[0].userId, calls[0].clockAtCreate, calls[0].clockAtUpdate), calls[1..])
  }

  /** Saving once more after a run is one more stamping step. */
  lemma {:induction false} RunSnoc(schema: Schema, s: Stamps, calls: seq<SaveCall>, c: SaveCall)
    ensures Run(schema, s, calls + [c])
            == Stamped(schema, Run(schema, s, calls), c.userId, c.clockAtCreate, c.clockAtUpdate)
    decreases |calls|
  {
    if calls == [] {
      assert calls + [c] == [c];
    } else {
      assert (calls + [c])[1..] == calls[1..] + [c];
      RunSnoc(schema, Stamped(schema, s, calls[0].userId, calls[0].clockAtCreate, calls[0].clockAtUpdate), calls[1..], c);
    }
  }

  /**
   * Once created_at is set (or when the type does not declare it), no run of
   * saves changes created_at or created_by, whatever actors are passed.
   */
  lemma {:induction false} RunKeepsCreation(schema: Schema, s: Stamps, calls: seq<SaveCall>)
    requires s.createdAt.Some? || !schema.hasCreatedAt
    ensures Run(schema, s, calls).createdAt == s.createdAt
    ensures Run(schema, s, calls).createdBy == s.createdBy
    decreases |calls|
  {
    if calls != [] {
      RunKeepsCreation(schema, Stamped(schema, s, calls[0].userId, calls[0].clockAtCreate, calls[0].clockAtUpdate), calls[1..]);
    }
  }

  /** After any non-empty run, created_at and created_by are what the first save made them. */
  lemma {:induction false} RunCreationIsFirstSave(schema: Schema, s: Stamps, calls: seq<SaveCall>)
    requires calls != []
    ensures Run(schema, s, calls).createdAt
            == Stamped(schema, s, calls[0].userId, calls[0].clockAtCreate, calls[0].clockAtUpdate).createdAt
    ensures Run(schema, s, calls).createdBy
            == Stamped(schema, s, calls[0].userId, calls[0].clockAtCreate, calls[0].clockAtUpdate).createdBy
  {
    RunKeepsCreation(schema, Stamped(schema, s, calls[0].userId, calls[0].clockAtCreate, calls[0].clockAtUpdate), calls[1..]);
  }

  /** A document type with none of the four fields is never stamped. */
  lemma {:induction false} RunBareUntouched(s: Stamps, calls: seq<SaveCall>)
    ensures Run(BareSchema, s, calls) == s
    decreases |calls|
  {
    if calls != [] {
      RunBareUntouched(s, calls[1..]);
    }
  }

  /** With no truthy actor anywhere in a run, created_by and updated_by keep their values. */
  lemma {:induction false} RunWithoutActors(schema: Schema, s: Stamps, calls: seq<SaveCall>)
    requires forall i | 0 <= i < |calls| :: !Truthy(calls[i].userId)
    ensures Run(schema, s, calls).createdBy == s.createdBy
    ensures Run(schema, s, calls).updatedBy == s.updatedBy
    decreases |calls|
  {
    if calls != [] {
      RunWithoutActors(schema, Stamped(schema, s, calls[0].userId, calls[0].clockAtCreate, calls[0].clockAtUpdate), calls[1..]);
    }
  }

  /** After a non-empty run, updated_at is the update-clock reading of the last save. */
  lemma {:induction false} RunUpdatedAtIsLastSave(schema: Schema, s: Stamps, calls: seq<SaveCall>)
    requires schema.hasUpdatedAt && calls != []
    ensures Run(schema, s, calls).updatedAt == Some(calls[|calls| - 1].clockAtUpdate)
  {
    var init := calls[..|calls| - 1];
    assert calls == init + [calls[|calls| - 1]];
    RunSnoc(schema, s, init, calls[|calls| - 1]);
  }

  /** The most recent truthy actor of a run, or `fallback` when there is none. */
  function LastActor(calls: seq<SaveCall>, fallback: Option<ActorId>): Option<ActorId>
    decreases |calls|
  {
    if calls == [] then fallback
    else if Truthy(calls[|calls| - 1].userId) then calls[|calls| - 1].userId
    else LastActor(calls[..|calls| - 1], fallback)
  }

  /** On a type with updated_at and updated_by, updated_by ends as the most recent truthy actor. */
  lemma {:induction false} RunUpdatedByIsLastActor(schema: Schema, s: Stamps, calls: seq<SaveCall>)
    requires schema.hasUpdatedAt && schema.hasUpdatedBy
    ensures Run(schema, s, calls).updatedBy == LastActor(calls, s.updatedBy)
    decreases |calls|
  {
    if calls != [] {
      var init := calls[..|calls| - 1];
      assert calls == init + [calls[|calls| - 1]];
      RunSnoc(schema, s, init, calls[|calls| - 1]);
      RunUpdatedByIsLastActor(schema, s, init);
    }
  }

  /** A clock whose readings never go backwards, starting no earlier than `time`. */
  predicate Monotone(time: Instant, calls: seq<SaveCall>)
    decreases |calls|
  {
    calls == [] ||
    (time <= calls[0].clockAtCreate <= calls[0].clockAtUpdate && Monotone(calls[0].clockAtUpdate, calls[1..]))
  }

  /** Every stamp is no later than `time`, and created_at is no later than updated_at. */
  predicate Settled(s: Stamps, time: Instant)
  {
    (s.createdAt.Some? ==> s.createdAt.value <= time) &&
    (s.updatedAt.Some? ==> s.updatedAt.value <= time) &&
    (s.createdAt.Some? && s.updatedAt.Some? ==> s.createdAt.value <= s.updatedAt.value)
  }

  /**
   * With a clock that never goes backwards, every run of saves keeps
   * created_at <= updated_at.
   */
  lemma {:induction false} RunKeepsOrder(schema: Schema, s: Stamps, time: Instant, calls: seq<SaveCall>)
    requires Declared(schema, s) && Settled(s, time) && Monotone(time, calls)
    ensures Declared(schema, Run(schema, s, calls))
    ensures var r := Run(schema, s, calls);
            r.createdAt.Some? && r.updatedAt.Some? ==> r.createdAt.value <= r.updatedAt.value
    decreases |calls|
  {
    if calls != [] {
      var c := calls[0];
      var next := Stamped(schema, s, c.userId, c.clockAtCreate, c.clockAtUpdate);
      assert Settled(next, c.clockAtUpdate);
      RunKeepsOrder(schema, next, c.clockAtUpdate, calls[1..]);
    }
  }

  /**
   * The scenario of a first save by "alice" and a second by "bob", from a
   * document with all four fields unset.
   */
  lemma AliceThenBob(t1: Instant, t1u: Instant, t2: Instant, t2u: Instant)
    ensures Run(FullSchema, Unsaved(), [SaveCall(Some("alice"), t1, t1u), SaveCall(Some("bob"), t2, t2u)])
            == Stamps(Some(t1), Some("alice"), Some(t2u), Some("bob"))
  {
    var calls := [SaveCall(Some("alice"), t1, t1u), SaveCall(Some("bob"), t2, t2u)];
    var first := Stamped(FullSchema, Unsaved(), Some("alice"), t1, t1u);
    assert first == Stamps(Some(t1), Some("alice"), Some(t1u), Some("alice"));
    assert calls[1..] == [SaveCall(Some("bob"), t2, t2u)];
    assert Run(FullSchema, first, calls[1..]) == Stamped(FullSchema, first, Some("bob"), t2, t2u);
  }

  // ---------------------------------------------------------------------------
  // Construction defaults of CreationMixin

  /**
   * The defaults CreationMixin gives a new document as written: created_at
   * comes from `default_factory=utc_now` (line 19), so it is already set
   * before any save.
   */
  function CreationMixinDefaults(constructedAt: Instant): (r: Stamps)
    ensures r.createdAt == Some(constructedAt) && r.createdBy.None?
  {
    Stamps(Some(constructedAt), None, None, None)
  }

  /**
   * As written, no run of saves ever records a creator on a document built
   * with CreationMixin's defaults, even when the first save names an actor.
   */
  lemma CreationMixinNeverRecordsCreator(constructedAt: Instant, calls: seq<SaveCall>)
    ensures Run(FullSchema, CreationMixinDefaults(constructedAt), calls).createdBy == None
    ensures Run(FullSchema, CreationMixinDefaults(constructedAt), calls).createdAt == Some(constructedAt)
  {
    RunKeepsCreation(FullSchema, CreationMixinDefaults(constructedAt), calls);
  }

  /** The intended defaults of a new document: every metadata field unset. */
  function Unsaved(): (r: Stamps)
    ensures r.createdAt.None? && r.createdBy.None? && r.updatedAt.None? && r.updatedBy.None?
  {
    Stamps(None, None, None, None)
  }

  /**
   * From the intended defaults, a run whose first save names an actor records
   * that actor as creator and the first save's clock as created_at, for good.
   */
  lemma FirstSaveRecordsCreator(calls: seq<SaveCall>)
    requires calls != [] && Truthy(calls[0].userId)
    ensures Run(FullSchema, Unsaved(), calls).createdBy == calls[0].userId
    ensures Run(FullSchema, Unsaved(), calls).createdAt == Some(calls[0].clockAtCreate)
  {
    RunCreationIsFirstSave(FullSchema, Unsaved(), calls);
  }
}
