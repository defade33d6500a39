/** Values shared by every part of the model: identifiers, revisions and error codes.
  *
  * Identifiers are drawn from a counter that only grows, so a new identifier is one
  * that was never used before.  Sequences, revisions and generations are unbounded.
  */
module Basics {

  datatype Option<+T> = None | Some(value: T)

  datatype Result<+T, +E> = Ok(value: T) | Err(error: E)

  type Uuid = int
  type Hash = string
  type Time = int

  datatype Kind = Todo | Classification | Index | Image

  datatype ObjectId = ObjectId(kind: Kind, id: string)

  /** A row of `object_revisions`. */
  datatype Revision = Revision(
    obj: ObjectId,
    revision: int,
    base: Option<int>,
    schema: Option<int>,
    payload: Option<Uuid>,
    hash: Option<Hash>,
    tombstone: bool,
    changedAt: Time,
    device: Uuid)

  /** A row of `change_log` joined with the revision it names. */
  datatype LogRow = LogRow(sequence: int, rev: Revision)

  /** A row of `object_heads`, apart from its key. */
  datatype Head = Head(revision: int, revisionId: Uuid)

  /** A row of `payloads`, apart from its key; `essence` is the normalized media type. */
  datatype Payload = Payload(id: Uuid, size: int, essence: string, createdAt: Time)

  type Catalogue = map<Hash, Payload>

  /** The request-level push failures that are recorded under an idempotency key. */
  datatype Failure =
    | MaintenanceFailure
    | GenerationFailure(expected: int, actual: int)
    | BootstrapFailure

  datatype Error =
    | Database
    | Conflict
    | NotFound
    | ProjectMaintenance
    | GenerationMismatch(expected: int, actual: int)
    | BootstrapRequired
    | IdempotencyConflict
    | IdempotencyReplay(failure: Failure, status: int)
    | PayloadNotFound
    | InvalidPayload
    | InvalidRestoreTarget
    | RestoreNotReopenable
    | RestoreCancelled

  /** What a user can see of an object: whether it is deleted, and its content. */
  datatype Visible = Visible(tombstone: bool, schema: Option<int>, hash: Option<Hash>)

  function VisibleOf(rev: Revision): Visible {
    Visible(rev.tombstone, rev.schema, rev.hash)
  }

  /** The check constraint on `object_revisions`, and the positivity checks beside it. */
  predicate RowCheck(rev: Revision) {
    && rev.revision > 0
    && (rev.base.Some? ==> rev.base.value > 0)
    && (if rev.tombstone
        then rev.payload.None? && rev.hash.None? && rev.schema.None?
        else rev.payload.Some? && rev.hash.Some? && rev.schema.Some? && rev.schema.value > 0)
  }

  ghost predicate NoDuplicates<T>(s: seq<T>) {
    forall i, j :: 0 <= i < j < |s| ==> s[i] != s[j]
  }

  /** `order` names every key once: an order in which a query may return keyed rows. */
  ghost predicate Lists<T(!new)>(order: seq<T>, keys: set<T>) {
    && NoDuplicates(order)
    && (forall k :: k in order <==> k in keys)
  }

  /** The rows of `rows` in the order in which a query returns them. */
  function InOrder<K, V>(rows: map<K, V>, order: seq<K>): (items: seq<V>)
    requires forall k :: k in order ==> k in rows
    ensures |items| == |order|
    ensures forall i :: 0 <= i < |items| ==> items[i] == rows[order[i]]
  {
    seq(|order|, i requires 0 <= i < |order| => assert order[i] in order; rows[order[i]])
  }

  // ---- Sequences built at their end ----

  function Init<T>(s: seq<T>): seq<T>
    requires s != []
  {
    s[..|s| - 1]
  }

  function Last<T>(s: seq<T>): T
    requires s != []
  {
    s[|s| - 1]
  }

  // ---- Calls that may go wrong ----

  /** What becomes of a call: it is answered, it commits without its answer arriving, or it does
    * not happen. */
  datatype Fate = Answered | Unanswered | NotMade

  function Committed<S>(before: S, after: S, fate: Fate): S {
    if fate == NotMade then before else after
  }
}
