/**
 * A Beanie document deriving from `BaseDocument` (backend/app/common/models.py
 * lines 54-81), with the mixin helpers of `CreationMixin` and `UpdationMixin`.
 * The metadata fields are updated in place, as the source's `setattr` calls do;
 * which fields exist is fixed by the document type and modelled as constants.
 */
module Documents {
  import opened Wrappers
  import opened Stamping

  /** What the storage write (`super().save`) reported. */
  datatype WriteOutcome = Written | StorageFailed

  class Document {
    /** The document id, generated once at construction (a uuid4 string in the source). */
    const id: string
    /** Which of the metadata fields this document type declares. */
    const schema: Schema

    var createdAt: Option<Instant>
    var createdBy: Option<ActorId>
    var updatedAt: Option<Instant>
    var updatedBy: Option<ActorId>

    /** Every record handed to the storage write, in call order, whether or not the write succeeded. */
    var writeAttempts: seq<Stamps>
    /** The record the store last accepted, if any. */
    var persisted: Option<Stamps>

    /** The four metadata fields as one value. */
    function Audit(): Stamps
      reads this
    {
      Stamps(createdAt, createdBy, updatedAt, updatedBy)
    }

    ghost predicate Valid()
      reads this
    {
      Declared(schema, Audit())
    }

    /** A document of type `schema`, in memory and not yet written. */
    constructor (id: string, schema: Schema, initial: Stamps)
      requires Declared(schema, initial)
      ensures Valid()
      ensures this.id == id && this.schema == schema
      ensures Audit() == initial && writeAttempts == [] && persisted == None
    {
      this.id := id;
      this.schema := schema;
      createdAt, createdBy := initial.createdAt, initial.createdBy;
      updatedAt, updatedBy := initial.updatedAt, initial.updatedBy;
      writeAttempts, persisted := [], None;
    }

    /**
     * `BaseDocument.save(user_id)`: stamp the metadata fields, then call the
     * storage write exactly once with the stamped record.  A failed write
     * leaves the stamps in place and changes nothing in the store.
     */
    method Save(userId: Option<ActorId>, clockAtCreate: Instant, clockAtUpdate: Instant, storageAccepts: bool)
      returns (outcome: WriteOutcome)
      requires Valid()
      modifies this
      ensures Valid()
      ensures Audit() == Stamped(schema, old(Audit()), userId, clockAtCreate, clockAtUpdate)
      ensures writeAttempts == old(writeAttempts) + [Audit()]
      ensures outcome == (if storageAccepts then Written else StorageFailed)
      ensures persisted == (if storageAccepts then Some(Audit()) else old(persisted))
    {
      // creation: lines 68-73
      if schema.hasCreatedAt {
        var current := createdAt;
        if current.None? {
          createdAt := Some(clockAtCreate);
          if schema.hasCreatedBy && Truthy(userId) {
            createdBy := userId;
          }
        }
      }
      // update: lines 76-79
      if schema.hasUpdatedAt {
        updatedAt := Some(clockAtUpdate);
        if schema.hasUpdatedBy && Truthy(userId) {
          updatedBy := userId;
        }
      }
      // line 81
      outcome := StorageWrite(storageAccepts);
    }

    /** The foreign storage write: it sees the record as it is now and may fail. */
    method StorageWrite(accepts: bool) returns (outcome: WriteOutcome)
      modifies this`writeAttempts, this`persisted
      ensures writeAttempts == old(writeAttempts) + [Audit()]
      ensures outcome == (if accepts then Written else StorageFailed)
      ensures persisted == (if accepts then Some(Audit()) else old(persisted))
    {
      writeAttempts := writeAttempts + [Audit()];
      if accepts {
        persisted := Some(Audit());
        outcome := Written;
      } else {
        outcome := StorageFailed;
      }
    }

    /** `CreationMixin.ensure_created`: set created_at only if it is missing. */
    method EnsureCreated(now: Instant)
      requires Valid() && schema.hasCreatedAt
      modifies this`createdAt
      ensures Valid()
      ensures Audit() == AfterEnsureCreated(old(Audit()), now)
    {
      if createdAt.None? {
        createdAt := Some(now);
      }
    }

    /** `UpdationMixin.touch(user_id)`: refresh updated_at, and updated_by for a truthy actor. */
    method Touch(userId: Option<ActorId>, now: Instant)
      requires Valid() && schema.hasUpdatedAt && schema.hasUpdatedBy
      modifies this`updatedAt, this`updatedBy
      ensures Valid()
      ensures Audit() == AfterTouch(old(Audit()), userId, now)
    {
      updatedAt := Some(now);
      if Truthy(userId) {
        updatedBy := userId;
      }
    }
  }

  /**
   * A client of `save`: a new document with all four fields, saved by
   * "u1" at t1 and then by "u2" at t2.  Creation stays with the first save;
   * the update stamp follows the second.
   */
  method SaveTwice(t1: Instant, t2: Instant) returns (after: Stamps, attempts: nat)
    ensures after == Stamps(Some(t1), Some("u1"), Some(t2), Some("u2"))
    ensures attempts == 2
  {
    var doc := new Document("doc-1", FullSchema, Unsaved());
    var o1 := doc.Save(Some("u1"), t1, t1, true);
    var o2 := doc.Save(Some("u2"), t2, t2, true);
    after := doc.Audit();
    attempts := |doc.writeAttempts|;
  }

  /**
   * A document whose second save fails in the store: the in-memory stamps are
   * those of the second save, the store still holds the first.
   */
  method FailedSecondSave(t1: Instant, t2: Instant) returns (inMemory: Stamps, stored: Option<Stamps>)
    ensures inMemory == Stamps(Some(t1), Some("u1"), Some(t2), Some("u2"))
    ensures stored == Some(Stamps(Some(t1), Some("u1"), Some(t1), Some("u1")))
  {
    var doc := new Document("doc-2", FullSchema, Unsaved());
    var o1 := doc.Save(Some("u1"), t1, t1, true);
    var o2 := doc.Save(Some("u2"), t2, t2, false);
    inMemory := doc.Audit();
    stored := doc.persisted;
  }

  /** A save with `user_id = ""` attributes nothing, like a save with `None`. */
  method SaveWithEmptyActor(t1: Instant) returns (after: Stamps)
    ensures after == Stamps(Some(t1), None, Some(t1), None)
  {
    var doc := new Document("doc-3", FullSchema, Unsaved());
    var o := doc.Save(Some(""), t1, t1, true);
    after := doc.Audit();
  }
}
