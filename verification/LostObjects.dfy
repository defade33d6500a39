/** The two runs that show why `PayloadLocks.EventKeepsExactly` carries a condition.  Both upload and
  * register one payload and then collect it.  In the first the store deletes the object without
  * saying so; in the second the deletion of the catalogue row does not commit.
  */
module LostObjects {
  import opened Basics
  import opened PayloadKeys
  import opened PayloadLocks

  const OWNER: Uuid128 := 7
  const PROJECT: Uuid128 := 1

  function Payload0(): Name {
    Name(PROJECT, seq(SHA256_LENGTH, _ => 'a'))
  }

  function Key0(): string {
    KeyOf(OWNER, Payload0())
  }

  /** The world of these runs, where only the catalogue, the objects and one section ever differ. */
  function At(catalogue: map<Name, Row>, objects: set<string>, sections: map<Name, Section>): World {
    World(map[PROJECT := ProjectRow(OWNER, true)], {}, catalogue, objects, sections)
  }

  function Registered(): map<Name, Row> {
    map[Payload0() := Row(Key0(), 0, false)]
  }

  function Held(section: Section): map<Name, Section> {
    map[Payload0() := section]
  }

  ghost function Start(): seq<World> {
    [EMPTY,
     At(map[], {}, map[]),
     At(map[], {}, Held(Uploading(OWNER))),
     At(map[], {Key0()}, Held(Registering(OWNER))),
     At(Registered(), {Key0()}, map[]),
     At(Registered(), {Key0()}, Held(Checking(1))),
     At(Registered(), {Key0()}, Held(Deleting(Key0())))]
  }

  ghost function StartEvents(): seq<Event> {
    [CreateProject(PROJECT, OWNER), StartUpload(Payload0(), OWNER), PutObject(Payload0(), true, true),
     Register(Payload0(), true, 0), StartCollect(Payload0(), 1), Check(Payload0())]
  }

  lemma {:induction false} Releases(s: Section)
    ensures Held(s) - {Payload0()} == map[]
    ensures forall t: Section :: Held(s)[Payload0() := t] == Held(t)
    ensures forall t: Section :: (map[])[Payload0() := t] == Held(t)
  {
  }

  lemma {:induction false} Uploads()
    ensures forall i :: 0 <= i < 4 ==> Happens(Start()[i], StartEvents()[i], Start()[i + 1])
  {
    hide KeyOf;
    Releases(Uploading(OWNER));
    Releases(Registering(OWNER));
    var run, events := Start(), StartEvents();
    assert (map[])[PROJECT := ProjectRow(OWNER, true)] == map[PROJECT := ProjectRow(OWNER, true)];
    assert ProjectHappens(run[0], events[0], run[1]);
    assert ValidHash(Payload0().hash);
    assert UploadHappens(run[1], events[1], run[2]);
    assert {} + {Key0()} == {Key0()};
    assert UploadHappens(run[2], events[2], run[3]);
    assert (map[])[Payload0() := Row(Key0(), 0, false)] == Registered();
    assert UploadHappens(run[3], events[3], run[4]);
  }

  lemma {:induction false} Collects()
    ensures forall i :: 4 <= i < 6 ==> Happens(Start()[i], StartEvents()[i], Start()[i + 1])
  {
    hide KeyOf;
    Releases(Checking(1));
    var run, events := Start(), StartEvents();
    assert CollectHappens(run[4], events[4], run[5]);
    assert CollectHappens(run[5], events[5], run[6]);
  }

  lemma {:induction false} StartIsRun()
    ensures IsRun(Start(), StartEvents())
  {
    hide Happens;
    Uploads();
    Collects();
  }

  lemma {:induction false} Extends(run: seq<World>, events: seq<Event>, e: Event, v: World)
    requires IsRun(run, events) && Happens(run[|events|], e, v)
    ensures IsRun(run + [v], events + [e])
  {
    hide Happens;
    var longer, more := run + [v], events + [e];
    forall i | 0 <= i < |more| ensures Happens(longer[i], more[i], longer[i + 1]) {
      if i < |events| {
        assert longer[i] == run[i] && longer[i + 1] == run[i + 1] && more[i] == events[i];
      }
    }
  }

  /** The store deletes the object and reports a failure: the lock is released, the row stays. */
  lemma {:induction false} UnacknowledgedDeleteLoses() returns (run: seq<World>, events: seq<Event>)
    ensures IsRun(run, events) && |events| == 7 && !Backed(run[7])
    ensures events[6] == DeleteObject(Payload0(), false, true)
    ensures forall i :: 0 <= i < 6 ==> !Loses(events[i])
  {
    hide KeyOf, IsRun;
    StartIsRun();
    Releases(Deleting(Key0()));
    var end := At(Registered(), {}, map[]);
    assert {Key0()} - {Key0()} == {};
    assert CollectHappens(Start()[6], DeleteObject(Payload0(), false, true), end);
    Extends(Start(), StartEvents(), DeleteObject(Payload0(), false, true), end);
    run, events := Start() + [end], StartEvents() + [DeleteObject(Payload0(), false, true)];
    assert Payload0() in end.catalogue && Free(end, Payload0());
  }

  /** The object is deleted and acknowledged, but the deletion of its row does not commit. */
  lemma {:induction false} UncommittedRemovalLoses() returns (run: seq<World>, events: seq<Event>)
    ensures IsRun(run, events) && |events| == 8 && !Backed(run[8])
    ensures events[7] == RemoveRow(Payload0(), false)
    ensures forall i :: 0 <= i < 7 ==> !Loses(events[i])
  {
    hide KeyOf, IsRun;
    StartIsRun();
    Releases(Deleting(Key0()));
    Releases(Removing);
    var mid, end := At(Registered(), {}, Held(Removing)), At(Registered(), {}, map[]);
    var delete, remove := DeleteObject(Payload0(), true, true), RemoveRow(Payload0(), false);
    assert {Key0()} - {Key0()} == {};
    assert CollectHappens(Start()[6], delete, mid);
    Extends(Start(), StartEvents(), delete, mid);
    assert CollectHappens(mid, remove, end);
    Extends(Start() + [mid], StartEvents() + [delete], remove, end);
    run, events := Start() + [mid] + [end], StartEvents() + [delete] + [remove];
    assert Payload0() in end.catalogue && Free(end, Payload0());
  }
}
