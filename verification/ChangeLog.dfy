/** The append-only change log of one project and the tables derived from it.
  *
  * `Tables` holds the four tables a write touches.  `Entries` reads them as one sequence
  * of revisions, and `Latest` is the meaning of that sequence: the newest row of every object.
  */
module ChangeLog {
  import opened Basics

  datatype Tables = Tables(
    changeSeq: nat,
    revisions: map<Uuid, Revision>,
    changeLog: map<int, Uuid>,
    heads: map<ObjectId, Head>)

  const EmptyTables := Tables(0, map[], map[], map[])

  // ---- The log as a sequence of revisions ----

  /** The newest row of every object in `log`; entry i carries sequence i + 1. */
  function Latest(log: seq<Revision>): map<ObjectId, LogRow> {
    if log == [] then map[]
    else
      var rows := Latest(Init(log));
      rows[Last(log).obj := LogRow(|log|, Last(log))]
  }

  /** The visible state of every object in `log`. */
  ghost function VisibleAt(log: seq<Revision>): map<ObjectId, Visible> {
    map o | o in Latest(log) :: VisibleOf(Latest(log)[o].rev)
  }

  /** The first `s` entries, or all of them when the log is shorter. */
  function Upto(log: seq<Revision>, s: int): seq<Revision> {
    if s <= 0 then [] else if s >= |log| then log else log[..s]
  }

  lemma {:induction false} LatestOfAppend(log: seq<Revision>, rev: Revision)
    ensures Latest(log + [rev]) == Latest(log)[rev.obj := LogRow(|log| + 1, rev)]
  {
    assert Init(log + [rev]) == log;
  }

  lemma {:induction false} LatestIsNewest(log: seq<Revision>)
    ensures forall o :: o in Latest(log) ==>
      var row := Latest(log)[o];
      && 1 <= row.sequence <= |log| && log[row.sequence - 1] == row.rev && row.rev.obj == o
      && (forall j :: row.sequence <= j < |log| ==> log[j].obj != o)
    ensures forall i :: 0 <= i < |log| ==> log[i].obj in Latest(log)
  {
    if log != [] {
      LatestIsNewest(Init(log));
    }
  }

  /** The rows a `ROW_NUMBER() ... ORDER BY sequence DESC` query over `sequence <= s` ranks first. */
  ghost predicate RankedFirst(log: seq<Revision>, s: int, row: LogRow) {
    && 1 <= row.sequence <= |log| && row.sequence <= s
    && row.rev == log[row.sequence - 1]
    && (forall j :: row.sequence <= j < |log| && j < s ==> log[j].obj != row.rev.obj)
  }

  /** The window query used by bootstrap and by a sequence restore returns the newest rows. */
  lemma {:induction false} RankedRowsAreLatest(log: seq<Revision>, s: int, row: LogRow)
    requires 0 <= s
    ensures RankedFirst(log, s, row) <==>
      row.rev.obj in Latest(Upto(log, s)) && Latest(Upto(log, s))[row.rev.obj] == row
  {
    var part := Upto(log, s);
    LatestIsNewest(part);
    if row.rev.obj in Latest(part) && Latest(part)[row.rev.obj] == row {
      forall j | row.sequence <= j < |log| && j < s ensures log[j].obj != row.rev.obj {
        assert part[j] == log[j];
      }
    }
  }

  // ---- Linear history ----

  function RevisionIn(rows: map<ObjectId, LogRow>, o: ObjectId): int {
    if o in rows then rows[o].rev.revision else 0
  }

  /** `rev` continues the history of its object after `rows`. */
  predicate Continues(rows: map<ObjectId, LogRow>, rev: Revision) {
    && rev.revision == RevisionIn(rows, rev.obj) + 1
    && rev.base == if rev.obj in rows then Some(rows[rev.obj].rev.revision) else None
  }

  predicate Linear(log: seq<Revision>) {
    log == [] || (Linear(Init(log)) && Continues(Latest(Init(log)), Last(log)))
  }

  lemma {:induction false} LinearOfAppend(log: seq<Revision>, rev: Revision)
    requires Linear(log) && Continues(Latest(log), rev)
    ensures Linear(log + [rev])
  {
    assert Init(log + [rev]) == log;
  }

  lemma {:induction false} LinearPrefix(log: seq<Revision>, n: nat)
    requires Linear(log) && n <= |log|
    ensures Linear(log[..n])
  {
    if n == |log| {
      assert log[..n] == log;
    } else {
      LinearPrefix(Init(log), n);
      assert Init(log)[..n] == log[..n];
    }
  }

  /** The revisions of one object, in log order. */
  function History(log: seq<Revision>, o: ObjectId): seq<Revision> {
    if log == [] then []
    else History(Init(log), o) + if Last(log).obj == o then [Last(log)] else []
  }

  /** In a linear log every object's revisions are 1..n in log order, each naming its predecessor. */
  lemma {:induction false} HistoryIsNumbered(log: seq<Revision>, o: ObjectId)
    requires Linear(log)
    ensures |History(log, o)| == RevisionIn(Latest(log), o)
    ensures o in Latest(log) <==> History(log, o) != []
    ensures forall k :: 0 <= k < |History(log, o)| ==>
      && History(log, o)[k].revision == k + 1
      && History(log, o)[k].base == if k == 0 then None else Some(k)
  {
    if log != [] {
      HistoryIsNumbered(Init(log), o);
    }
  }

  lemma {:induction false} EntryContinues(log: seq<Revision>, j: nat)
    requires Linear(log) && j < |log|
    ensures Linear(log[..j]) && Continues(Latest(log[..j]), log[j])
    ensures log[j].revision >= 1
    ensures log[j].base == if log[j].revision == 1 then None else Some(log[j].revision - 1)
  {
    LinearPrefix(log, j + 1);
    assert Init(log[..j + 1]) == log[..j];
    assert Last(log[..j + 1]) == log[j];
    HistoryIsNumbered(log[..j], log[j].obj);
  }

  lemma {:induction false} RevisionsGrow(log: seq<Revision>, i: nat, j: nat)
    requires Linear(log) && i < j < |log| && log[i].obj == log[j].obj
    ensures log[i].revision < log[j].revision
    decreases j
  {
    EntryContinues(log, j);
    LatestIsNewest(log[..j]);
    assert log[..j][i].obj in Latest(log[..j]);
    var p := Latest(log[..j])[log[j].obj].sequence - 1;
    assert log[..j][p] == log[p];
    if i < p {
      RevisionsGrow(log, i, p);
    } else {
      assert i == p;
    }
  }

  /** At most one entry of a linear log writes a given object over a given base revision. */
  lemma {:induction false} OneWritePerBase(log: seq<Revision>, i: nat, j: nat)
    requires Linear(log) && i < |log| && j < |log|
    requires log[i].obj == log[j].obj && log[i].base == log[j].base
    ensures i == j
  {
    EntryContinues(log, i);
    EntryContinues(log, j);
    if i < j {
      RevisionsGrow(log, i, j);
    } else if j < i {
      RevisionsGrow(log, j, i);
    }
  }

  /** A base revision that some entry already wrote over is no longer the head revision. */
  lemma {:induction false} UsedBaseIsStale(log: seq<Revision>, i: nat)
    requires Linear(log) && i < |log|
    ensures log[i].obj in Latest(log)
    ensures log[i].base != Some(Latest(log)[log[i].obj].rev.revision)
  {
    LatestIsNewest(log);
    assert log[i].obj in Latest(log);
    EntryContinues(log, i);
    var top := Latest(log)[log[i].obj].sequence - 1;
    if i < top {
      RevisionsGrow(log, i, top);
    } else {
      assert i == top;
    }
  }

  // ---- The tables ----

  /** Sequences run without gaps from 1 to `changeSeq` and every entry names a stored revision. */
  ghost predicate Logged(t: Tables) {
    && (forall n :: n in t.changeLog <==> 1 <= n <= t.changeSeq)
    && (forall n :: n in t.changeLog ==> t.changeLog[n] in t.revisions)
  }

  ghost function Entries(t: Tables): (log: seq<Revision>)
    requires Logged(t)
    ensures |log| == t.changeSeq
    ensures forall i :: 0 <= i < |log| ==> log[i] == t.revisions[t.changeLog[i + 1]]
  {
    seq(t.changeSeq, i requires 0 <= i < t.changeSeq => t.revisions[t.changeLog[i + 1]])
  }

  /** `heads` names, for every object of `rows`, the revision logged in its row. */
  ghost predicate HeadsMatch(heads: map<ObjectId, Head>, rows: map<ObjectId, LogRow>, changeLog: map<int, Uuid>) {
    && heads.Keys == rows.Keys
    && (forall o :: o in heads ==>
      && rows[o].sequence in changeLog
      && heads[o] == Head(rows[o].rev.revision, changeLog[rows[o].sequence]))
  }

  /** `object_heads` holds exactly the newest logged revision of every object. */
  ghost predicate HeadsAreLatest(t: Tables)
    requires Logged(t)
  {
    HeadsMatch(t.heads, Latest(Entries(t)), t.changeLog)
  }

  ghost predicate TablesOk(t: Tables) {
    Logged(t) && Linear(Entries(t)) && HeadsAreLatest(t)
  }

  /** The heads joined with the revisions they name. */
  function HeadRows(t: Tables): map<ObjectId, Revision> {
    map o | o in t.heads && t.heads[o].revisionId in t.revisions :: t.revisions[t.heads[o].revisionId]
  }

  lemma {:induction false} HeadRowsAreLatest(t: Tables)
    requires TablesOk(t)
    ensures HeadRows(t).Keys == t.heads.Keys == Latest(Entries(t)).Keys
    ensures forall o :: o in t.heads ==>
      HeadRows(t)[o] == Latest(Entries(t))[o].rev && HeadRows(t)[o].revision == t.heads[o].revision > 0
      && HeadRows(t)[o].obj == o
  {
    hide Linear, Latest, History;
    LatestIsNewest(Entries(t));
    forall o | o in t.heads
      ensures o in HeadRows(t) && HeadRows(t)[o] == Latest(Entries(t))[o].rev
      ensures HeadRows(t)[o].revision == t.heads[o].revision > 0
      ensures HeadRows(t)[o].obj == o
    {
      HistoryIsNumbered(Entries(t), o);
    }
  }

  /** The four statements of one write: bump the counter, insert, upsert the head, log. */
  function Append(t: Tables, id: Uuid, rev: Revision): Tables {
    Tables(
      t.changeSeq + 1,
      t.revisions[id := rev],
      t.changeLog[t.changeSeq + 1 := id],
      t.heads[rev.obj := Head(rev.revision, id)])
  }

  function HeadRevision(t: Tables, o: ObjectId): Option<int> {
    if o in t.heads then Some(t.heads[o].revision) else None
  }

  lemma {:induction false} EntriesOfAppend(t: Tables, id: Uuid, rev: Revision)
    requires Logged(t) && id !in t.revisions
    ensures Logged(Append(t, id, rev))
    ensures Entries(Append(t, id, rev)) == Entries(t) + [rev]
  {
    var u := Append(t, id, rev);
    assert Logged(u);
    forall i | 0 <= i < t.changeSeq ensures Entries(u)[i] == Entries(t)[i] {
      assert u.changeLog[i + 1] == t.changeLog[i + 1];
    }
  }

  lemma {:induction false} HeadsOfAppend(heads: map<ObjectId, Head>, rows: map<ObjectId, LogRow>, changeLog: map<int, Uuid>,
      n: nat, id: Uuid, rev: Revision)
    requires HeadsMatch(heads, rows, changeLog)
    requires n !in changeLog
    ensures HeadsMatch(heads[rev.obj := Head(rev.revision, id)], rows[rev.obj := LogRow(n, rev)], changeLog[n := id])
  {
  }

  /** A write over the current head keeps the log, the history and the heads consistent. */
  lemma {:induction false} AppendKeepsTables(t: Tables, id: Uuid, rev: Revision)
    requires TablesOk(t) && id !in t.revisions
    requires rev.base == HeadRevision(t, rev.obj)
    requires rev.revision == (if rev.base.Some? then rev.base.value else 0) + 1
    ensures TablesOk(Append(t, id, rev))
    ensures Entries(Append(t, id, rev)) == Entries(t) + [rev]
  {
    var u := Append(t, id, rev);
    EntriesOfAppend(t, id, rev);
    assert Linear(Entries(u)) by {
      LinearOfAppend(Entries(t), rev);
    }
    LatestOfAppend(Entries(t), rev);
    HeadsOfAppend(t.heads, Latest(Entries(t)), t.changeLog, t.changeSeq + 1, id, rev);
  }
}
