/** Uploads, catalogue collection, the orphan sweep and the purge of whole projects, as sections
  * that interleave step by step under one lock per project and content hash.
  *
  * A section is the code between taking a payload lock and its commit or rollback.  Once the
  * collector has selected its row `FOR UPDATE`, no revision can come to reference the row, and no
  * purge can delete it, until the section ends.
  */
module PayloadLocks {
  import opened Basics
  import opened PayloadKeys

  datatype Name = Name(project: Uuid128, hash: string)

  datatype Row = Row(key: string, createdAt: Time, referenced: bool)

  datatype ProjectRow = ProjectRow(owner: Uuid128, active: bool)

  datatype Section =
    | Uploading(owner: Uuid128)
    | Registering(owner: Uuid128)
    | Checking(olderThan: Time)
    | Deleting(key: string)
    | Removing
    | SweepChecking(swept: string)
    | SweepDeleting(swept: string)

  datatype World = World(
    projects: map<Uuid128, ProjectRow>,
    purged: set<Uuid128>,
    catalogue: map<Name, Row>,
    objects: set<string>,
    sections: map<Name, Section>)

  /** `acknowledged` says whether the store or the database answered; `gone` and `stored` say what
    * became of the object when it did not. */
  datatype Event =
    | CreateProject(project: Uuid128, owner: Uuid128)
    | SetActive(project: Uuid128, active: bool)
    | Refer(name: Name)
    | StartUpload(name: Name, owner: Uuid128)
    | PutObject(name: Name, acknowledged: bool, stored: bool)
    | Register(name: Name, committed: bool, now: Time)
    | StartCollect(name: Name, olderThan: Time)
    | Check(name: Name)
    | DeleteObject(name: Name, acknowledged: bool, gone: bool)
    | RemoveRow(name: Name, committed: bool)
    | StartSweep(key: string)
    | CheckSwept(name: Name)
    | DeleteSwept(name: Name, acknowledged: bool, gone: bool)
    | PurgeRows(project: Uuid128)
    | PurgeObject(name: Name, owner: Uuid128)

  function KeyOf(owner: Uuid128, n: Name): string {
    PayloadKey(owner, n.project, n.hash)
  }

  predicate ValidHash(hash: string) {
    |hash| == SHA256_LENGTH && '/' !in hash
  }

  predicate Free(w: World, n: Name) {
    n !in w.sections
  }

  predicate In(w: World, n: Name, s: Section) {
    n in w.sections && w.sections[n] == s
  }

  function Release(w: World, n: Name): map<Name, Section> {
    w.sections - {n}
  }

  /** The collector holds the row itself. */
  predicate RowLocked(w: World, n: Name) {
    n in w.sections && (w.sections[n].Deleting? || w.sections[n].Removing?)
  }

  /** The name whose lock the sweep takes for a key it found. */
  function SweptName(key: string): Option<Name> {
    match ParsePayloadKey(key)
    case None => None
    case Some((_, project, hash)) => Some(Name(project, hash))
  }

  ghost predicate UploadHappens(w: World, e: Event, v: World) {
    match e
    case StartUpload(n, owner) =>
      Free(w, n) && ValidHash(n.hash) && v == w.(sections := w.sections[n := Uploading(owner)])
    case PutObject(n, acknowledged, stored) =>
      && n in w.sections && w.sections[n].Uploading? && (acknowledged ==> stored)
      && var owner := w.sections[n].owner;
         v == w.(objects := if stored then w.objects + {KeyOf(owner, n)} else w.objects,
                 sections := if acknowledged then w.sections[n := Registering(owner)] else Release(w, n))
    case Register(n, committed, now) =>
      && n in w.sections && w.sections[n].Registering?
      && var owner := w.sections[n].owner;
         var accepted := committed && n.project in w.projects && w.projects[n.project] == ProjectRow(owner, true);
         v == w.(catalogue := if accepted && n !in w.catalogue
                              then w.catalogue[n := Row(KeyOf(owner, n), now, false)] else w.catalogue,
                 sections := Release(w, n))
    case _ => false
  }

  ghost predicate CollectHappens(w: World, e: Event, v: World) {
    match e
    case StartCollect(n, olderThan) => Free(w, n) && v == w.(sections := w.sections[n := Checking(olderThan)])
    case Check(n) =>
      && n in w.sections && w.sections[n].Checking?
      && var found := n in w.catalogue && w.catalogue[n].createdAt < w.sections[n].olderThan && !w.catalogue[n].referenced;
         v == w.(sections := if found then w.sections[n := Deleting(w.catalogue[n].key)] else Release(w, n))
    case DeleteObject(n, acknowledged, gone) =>
      && n in w.sections && w.sections[n].Deleting? && (acknowledged ==> gone)
      && v == w.(objects := if gone then w.objects - {w.sections[n].key} else w.objects,
                 sections := if acknowledged then w.sections[n := Removing] else Release(w, n))
    case RemoveRow(n, committed) =>
      && In(w, n, Removing)
      && v == w.(catalogue := if committed && n in w.catalogue && !w.catalogue[n].referenced
                              then w.catalogue - {n} else w.catalogue,
                 sections := Release(w, n))
    case _ => false
  }

  ghost predicate SweepHappens(w: World, e: Event, v: World) {
    match e
    case StartSweep(key) =>
      && SweptName(key).Some? && Free(w, SweptName(key).value)
      && v == w.(sections := w.sections[SweptName(key).value := SweepChecking(key)])
    case CheckSwept(n) =>
      && n in w.sections && w.sections[n].SweepChecking?
      && v == w.(sections := if n in w.catalogue then Release(w, n) else w.sections[n := SweepDeleting(w.sections[n].swept)])
    case DeleteSwept(n, acknowledged, gone) =>
      && n in w.sections && w.sections[n].SweepDeleting? && (acknowledged ==> gone)
      && v == w.(objects := if gone then w.objects - {w.sections[n].swept} else w.objects, sections := Release(w, n))
    case _ => false
  }

  ghost predicate ProjectHappens(w: World, e: Event, v: World) {
    match e
    case CreateProject(p, owner) =>
      p !in w.projects && p !in w.purged && v == w.(projects := w.projects[p := ProjectRow(owner, true)])
    case SetActive(p, active) =>
      p in w.projects && v == w.(projects := w.projects[p := w.projects[p].(active := active)])
    case Refer(n) =>
      && n in w.catalogue && !RowLocked(w, n)
      && v == w.(catalogue := w.catalogue[n := w.catalogue[n].(referenced := true)])
    case PurgeRows(p) =>
      && p in w.projects && (forall n :: n in w.sections && RowLocked(w, n) ==> n.project != p)
      && v == w.(projects := w.projects - {p}, purged := w.purged + {p},
                 catalogue := map n | n in w.catalogue && n.project != p :: w.catalogue[n])
    case PurgeObject(n, owner) =>
      n.project in w.purged && ValidHash(n.hash) && v == w.(objects := w.objects - {KeyOf(owner, n)})
    case _ => false
  }

  ghost predicate Happens(w: World, e: Event, v: World) {
    UploadHappens(w, e, v) || CollectHappens(w, e, v) || SweepHappens(w, e, v) || ProjectHappens(w, e, v)
  }

  // ---- The invariant ----

  /** The row names its own payload's object, and the object is stored unless the collector, whose
    * row this is, has just deleted it. */
  ghost predicate RowOk(w: World, n: Name)
    requires n in w.catalogue
  {
    && n.project in w.projects && ValidHash(n.hash)
    && w.catalogue[n].key == KeyOf(w.projects[n.project].owner, n)
    && (In(w, n, Removing) <==> w.catalogue[n].key !in w.objects)
  }

  ghost predicate SectionOk(w: World, n: Name)
    requires n in w.sections
  {
    match w.sections[n]
    case Uploading(_) => ValidHash(n.hash)
    case Registering(owner) => ValidHash(n.hash) && (n.project in w.purged || KeyOf(owner, n) in w.objects)
    case Checking(_) => true
    case Deleting(key) => n in w.catalogue && key == w.catalogue[n].key && !w.catalogue[n].referenced
    case Removing => n in w.catalogue && !w.catalogue[n].referenced
    case SweepChecking(key) => ValidHash(n.hash) && SweptName(key) == Some(n)
    case SweepDeleting(key) => ValidHash(n.hash) && SweptName(key) == Some(n) && n !in w.catalogue
  }

  ghost predicate Ok(w: World) {
    && w.projects.Keys !! w.purged
    && (forall n :: n in w.catalogue ==> RowOk(w, n))
    && (forall n :: n in w.sections ==> SectionOk(w, n))
  }

  /** While a payload's lock is free, a catalogue row implies that its object is stored. */
  ghost predicate Backed(w: World) {
    forall n :: n in w.catalogue && Free(w, n) ==> w.catalogue[n].key in w.objects
  }

  /** A revision's payload is stored at every moment, inside and outside sections. */
  ghost predicate ReferencedIsStored(w: World) {
    forall n :: n in w.catalogue && w.catalogue[n].referenced ==> w.catalogue[n].key in w.objects
  }

  lemma {:induction false} OkIsBacked(w: World)
    requires Ok(w)
    ensures Backed(w) && ReferencedIsStored(w)
  {
    hide KeyOf, ValidHash;
  }

  // ---- Keys and names ----

  /** Deleting one payload's object leaves every other payload's object alone. */
  lemma {:induction false} OtherKeys(owner: Uuid128, n: Name, owner': Uuid128, n': Name)
    requires ValidHash(n.hash) && ValidHash(n'.hash) && n != n'
    ensures KeyOf(owner, n) != KeyOf(owner', n')
  {
    if KeyOf(owner, n) == KeyOf(owner', n') {
      KeysAreDistinct(owner, n.project, n.hash, owner', n'.project, n'.hash);
    }
  }

  /** The sweep takes the lock that an upload of the same object takes. */
  lemma {:induction false} SweepTakesUploadLock(owner: Uuid128, n: Name)
    requires ValidHash(n.hash)
    ensures SweptName(KeyOf(owner, n)) == Some(n)
  {
    ParseInvertsKey(owner, n.project, n.hash);
  }

  /** And it takes no other lock: a key it accepts names a payload that an upload could name. */
  lemma {:induction false} SweptNameIsValid(key: string)
    requires SweptName(key).Some?
    ensures ValidHash(SweptName(key).value.hash)
  {
    ParsedHash(key);
  }

  // ---- Every event ----

  /** The two ways a section can end with the object deleted and the row still there: the store
    * deleted the object but did not say so, or the row's deletion did not commit. */
  predicate Loses(e: Event) {
    || (e.DeleteObject? && !e.acknowledged && e.gone)
    || (e.RemoveRow? && !e.committed)
  }

  /** Storing one payload's object leaves the question whether another's is stored as it was. */
  lemma {:induction false} PutIsElsewhere(w: World, n: Name, owner: Uuid128)
    requires Ok(w) && ValidHash(n.hash)
    ensures forall m :: m in w.catalogue && m != n ==> w.catalogue[m].key != KeyOf(owner, n)
  {
    hide KeyOf, ValidHash, SweptName, SectionOk;
    forall m | m in w.catalogue && m != n ensures w.catalogue[m].key != KeyOf(owner, n) {
      assert RowOk(w, m);
      OtherKeys(w.projects[m.project].owner, m, owner, n);
    }
  }

  lemma {:induction false} PutKeeps(w: World, e: Event, v: World)
    requires Ok(w) && UploadHappens(w, e, v) && e.PutObject?
    ensures Ok(v)
  {
    hide KeyOf, ValidHash, SweptName;
    assert SectionOk(w, e.name);
    PutIsElsewhere(w, e.name, w.sections[e.name].owner);
  }

  lemma {:induction false} UploadKeeps(w: World, e: Event, v: World)
    requires Ok(w) && UploadHappens(w, e, v)
    ensures Ok(v)
  {
    hide KeyOf, ValidHash, SweptName;
    if e.PutObject? {
      PutKeeps(w, e, v);
    } else {
      assert v.objects == w.objects;
    }
  }

  lemma {:induction false} CollectKeeps(w: World, e: Event, v: World)
    requires Ok(w) && CollectHappens(w, e, v) && !Loses(e)
    ensures Ok(v)
  {
    hide KeyOf, ValidHash, SweptName;
    if e.DeleteObject? {
      assert RowOk(w, e.name) && SectionOk(w, e.name);
      forall n | n in w.catalogue && n != e.name ensures w.catalogue[n].key != w.catalogue[e.name].key {
        assert RowOk(w, n);
        OtherKeys(w.projects[n.project].owner, n, w.projects[e.name.project].owner, e.name);
      }
      RegisteringElsewhere(w, e.name);
    }
  }

  /** The key the collector deletes is not one that an upload is about to register. */
  lemma {:induction false} RegisteringElsewhere(w: World, n: Name)
    requires Ok(w) && n in w.catalogue && n in w.sections && !w.sections[n].Registering?
    ensures forall m :: m in w.sections && w.sections[m].Registering? ==> KeyOf(w.sections[m].owner, m) != w.catalogue[n].key
  {
    hide KeyOf, ValidHash, SweptName;
    assert RowOk(w, n);
    forall m | m in w.sections && w.sections[m].Registering? ensures KeyOf(w.sections[m].owner, m) != w.catalogue[n].key {
      assert SectionOk(w, m);
      OtherKeys(w.sections[m].owner, m, w.projects[n.project].owner, n);
    }
  }

  lemma {:induction false} SweepKeeps(w: World, e: Event, v: World)
    requires Ok(w) && SweepHappens(w, e, v)
    ensures Ok(v)
  {
    hide KeyOf, ValidHash, SweptName;
    if e.StartSweep? {
      SweptNameIsValid(e.key);
    }
    if e.DeleteSwept? {
      assert SectionOk(w, e.name);
      forall n | n in w.catalogue ensures w.catalogue[n].key != w.sections[e.name].swept {
        assert RowOk(w, n);
        SweepTakesUploadLock(w.projects[n.project].owner, n);
      }
      forall m | m in w.sections && w.sections[m].Registering? ensures KeyOf(w.sections[m].owner, m) != w.sections[e.name].swept {
        assert SectionOk(w, m);
        SweepTakesUploadLock(w.sections[m].owner, m);
      }
    }
  }

  lemma {:induction false} ProjectKeeps(w: World, e: Event, v: World)
    requires Ok(w) && ProjectHappens(w, e, v)
    ensures Ok(v)
  {
    hide KeyOf, ValidHash, SweptName;
    if e.PurgeObject? {
      forall n | n in w.catalogue ensures w.catalogue[n].key != KeyOf(e.owner, e.name) {
        assert RowOk(w, n);
        OtherKeys(w.projects[n.project].owner, n, e.owner, e.name);
      }
      forall m | m in w.sections && w.sections[m].Registering? && m.project !in w.purged
        ensures KeyOf(w.sections[m].owner, m) != KeyOf(e.owner, e.name)
      {
        assert SectionOk(w, m);
        OtherKeys(w.sections[m].owner, m, e.owner, e.name);
      }
    }
  }

  /** From any state that meets the invariant, an event leads to one where rows with a free lock
    * are backed by their objects exactly when it is not one of the two losing ends; and unless it
    * is, the invariant holds again. */
  lemma {:induction false} EventKeepsExactly(w: World, e: Event, v: World)
    requires Ok(w) && Happens(w, e, v)
    ensures !Loses(e) ==> Ok(v)
    ensures Backed(v) <==> !Loses(e)
  {
    hide Ok, UploadHappens, SweepHappens, ProjectHappens, CollectHappens;
    if Loses(e) {
      LosingEnds(w, e, v);
    } else {
      if UploadHappens(w, e, v) {
        UploadKeeps(w, e, v);
      } else if CollectHappens(w, e, v) {
        CollectKeeps(w, e, v);
      } else if SweepHappens(w, e, v) {
        SweepKeeps(w, e, v);
      } else {
        ProjectKeeps(w, e, v);
      }
      OkIsBacked(v);
    }
  }

  lemma {:induction false} LosingEnds(w: World, e: Event, v: World)
    requires Ok(w) && Happens(w, e, v) && Loses(e)
    ensures !Backed(v)
  {
    hide KeyOf, ValidHash, SweptName;
    assert CollectHappens(w, e, v);
    assert SectionOk(w, e.name) && RowOk(w, e.name);
    assert e.name in v.catalogue && Free(v, e.name) && v.catalogue[e.name].key !in v.objects;
  }

  // ---- Runs ----

  const EMPTY := World(map[], {}, map[], {}, map[])

  ghost predicate IsRun(run: seq<World>, events: seq<Event>) {
    && |run| == |events| + 1 && run[0] == EMPTY
    && (forall i :: 0 <= i < |events| ==> Happens(run[i], events[i], run[i + 1]))
  }

  /** In every run without a losing end, however uploads, collections, sweeps and purges interleave:
    * whenever a payload's lock is free, a catalogue row implies that its object is stored, and the
    * payload of a revision is stored at every moment. */
  lemma {:induction false} RowsAreBacked(run: seq<World>, events: seq<Event>, i: nat)
    requires IsRun(run, events) && i < |run| && (forall j :: 0 <= j < i ==> !Loses(events[j]))
    ensures Ok(run[i]) && Backed(run[i]) && ReferencedIsStored(run[i])
  {
    hide Ok, Happens, Loses, Backed, ReferencedIsStored;
    if i == 0 {
      EmptyIsOk();
    } else {
      RowsAreBacked(run, events, i - 1);
      EventKeepsExactly(run[i - 1], events[i - 1], run[i]);
    }
    OkIsBacked(run[i]);
  }

  lemma {:induction false} EmptyIsOk()
    ensures Ok(EMPTY)
  {
  }

  // ---- What an uninterrupted section achieves ----

  /** An upload to an active project whose every step succeeds leaves the payload registered by its
    * owner, its object stored under the payload's key, and the lock free. */
  lemma {:induction false} UploadArrives(w: World, n: Name, owner: Uuid128, now: Time, a: World, b: World, v: World)
    requires Ok(w) && UploadHappens(w, StartUpload(n, owner), a)
    requires UploadHappens(a, PutObject(n, true, true), b) && UploadHappens(b, Register(n, true, now), v)
    requires n.project in w.projects && w.projects[n.project] == ProjectRow(owner, true)
    ensures Free(v, n) && n in v.catalogue && v.catalogue[n].key == PayloadKey(owner, n.project, n.hash)
    ensures v.catalogue[n].key in v.objects
    ensures n !in w.catalogue ==> v.catalogue == w.catalogue[n := Row(PayloadKey(owner, n.project, n.hash), now, false)]
    ensures n in w.catalogue ==> v.catalogue == w.catalogue
  {
    hide ValidHash, SweptName;
    if n in w.catalogue {
      assert RowOk(w, n);
    }
  }

  /** An upload to a project that is not active, or not the uploader's, registers nothing. */
  lemma {:induction false} UploadIsRefused(w: World, n: Name, now: Time, committed: bool, v: World)
    requires UploadHappens(w, Register(n, committed, now), v)
    requires n in w.sections && w.sections[n].Registering?
    requires !committed || n.project !in w.projects || w.projects[n.project] != ProjectRow(w.sections[n].owner, true)
    ensures v.catalogue == w.catalogue && Free(v, n)
  {
  }

  /** A collection whose every step succeeds removes the row and the object of an old payload that no
    * revision uses. */
  lemma {:induction false} CollectionRemoves(w: World, n: Name, olderThan: Time, a: World, b: World, c: World, v: World)
    requires Ok(w) && n in w.catalogue && w.catalogue[n].createdAt < olderThan && !w.catalogue[n].referenced
    requires CollectHappens(w, StartCollect(n, olderThan), a) && CollectHappens(a, Check(n), b)
    requires CollectHappens(b, DeleteObject(n, true, true), c) && CollectHappens(c, RemoveRow(n, true), v)
    ensures Free(v, n) && v.catalogue == w.catalogue - {n} && v.objects == w.objects - {w.catalogue[n].key}
  {
    hide KeyOf, ValidHash, SweptName;
  }

  /** A collection of a payload that is young, used or unknown ends at its check and changes nothing. */
  lemma {:induction false} CollectionSpares(w: World, n: Name, olderThan: Time, a: World, v: World)
    requires n !in w.catalogue || w.catalogue[n].createdAt >= olderThan || w.catalogue[n].referenced
    requires CollectHappens(w, StartCollect(n, olderThan), a) && CollectHappens(a, Check(n), v)
    ensures v == w
  {
    hide KeyOf, ValidHash, SweptName;
    assert w.sections[n := Checking(olderThan)] - {n} == w.sections;
  }

  /** A sweep whose every step succeeds deletes an object whose payload has no row, and spares one
    * whose payload has. */
  lemma {:induction false} SweepDeletesOrphans(w: World, key: string, n: Name, a: World, b: World)
    requires SweptName(key) == Some(n) && SweepHappens(w, StartSweep(key), a) && SweepHappens(a, CheckSwept(n), b)
    ensures n in w.catalogue ==> b == w
    ensures forall v :: n !in w.catalogue && SweepHappens(b, DeleteSwept(n, true, true), v) ==>
      Free(v, n) && v.catalogue == w.catalogue && v.objects == w.objects - {key}
  {
    hide KeyOf, ValidHash;
    assert w.sections[n := SweepChecking(key)] - {n} == w.sections;
  }
}
