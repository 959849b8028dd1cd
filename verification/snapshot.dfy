/** What one qualifying `log_state` call learns from its caller's variables
    (logger.py:64-126): the display size, one snapshot per sprite group, and at
    most one stand-alone sprite. The caller's variables are an ordered sequence
    of named candidates; what reflection would find out about each is spelt out
    as capability fields. */
module Snapshot {
  import opened Options
  import opened Dict
  import opened Json

  function Min(a: int, b: int): int {
    if a <= b then a else b
  }

  /** At most this many sprites are summarised per group (logger.py:29). */
  const SpriteSampleLimit: nat := 10

  datatype Vec2 = Vec2(x: real, y: real)

  datatype Size = Size(width: int, height: int)

  /** A value found among the caller's variables, or a member of a group.
      `surfaceSize` is present when the value is a pygame object with `get_size`;
      `members` is present when its class name contains "Group", and holds the
      group's sprites in iteration order; the four remaining fields are the
      attributes `position`, `velocity`, `radius` and `rotation`, when exposed.
      The radius is copied unrounded, so it is kept as the JSON number it is
      (an int such as 16, or a float). */
  datatype Obj = Obj(
    className: string,
    surfaceSize: Option<Size>,
    members: Option<seq<Obj>>,
    position: Option<Vec2>,
    velocity: Option<Vec2>,
    radius: Option<Json>,
    rotation: Option<real>)

  /** One variable of the caller's scope: its name and its value. */
  datatype Candidate = Candidate(name: string, value: Obj)

  /** A group snapshot `{count, sprites}`, or a stand-alone sprite. Each keeps
      the objects it summarises; the summaries themselves (`SpriteInfo`, a pure
      function of the object) are taken when the entry is rendered. */
  datatype Snap =
    | Group(count: nat, sprites: seq<Obj>)
    | Single(obj: Obj)

  /** The result of walking the caller's variables. */
  datatype Discovery = Discovery(screenSize: Option<Size>, objects: Dict<Snap>)

  function Pair(v: Vec2): Json {
    JArr([JReal(v.x), JReal(v.y)])
  }

  /** The summary of one object (logger.py:81-99, and 107-124 for a stand-alone
      object): `type`, then each optional field in the source's order. Every key
      is new when it is assigned, so each assignment appends. */
  function SpriteInfo(o: Obj): Dict<Json> {
    [("type", JStr(o.className))]
    + Field("pos", if o.position.Some? then Some(Pair(o.position.value)) else None)
    + Field("vel", if o.velocity.Some? then Some(Pair(o.velocity.value)) else None)
    + Field("rad", o.radius)
    + Field("rot", if o.rotation.Some? then Some(JReal(o.rotation.value)) else None)
  }

  /** One `if hasattr(...)` of the summary: the key and value, or nothing. */
  function Field(k: string, v: Option<Json>): Dict<Json> {
    if v.Some? then [(k, v.value)] else []
  }

  /** The five summary keys are distinct strings. */
  lemma SummaryKeysDistinct()
    ensures "type" != "pos" && "type" != "vel" && "type" != "rad" && "type" != "rot"
    ensures "pos" != "vel" && "pos" != "rad" && "pos" != "rot"
    ensures "vel" != "rad" && "vel" != "rot" && "rad" != "rot"
  {
  }

  /** The keys of `type` followed by four optional fields. */
  lemma SummaryShapeKeys(f0: Dict<Json>, f1: Dict<Json>, f2: Dict<Json>, f3: Dict<Json>, f4: Dict<Json>)
    requires Keys(f0) == {"type"}
    requires Keys(f1) <= {"pos"} && Keys(f2) <= {"vel"} && Keys(f3) <= {"rad"} && Keys(f4) <= {"rot"}
    ensures Keys(f0 + f1 + f2 + f3 + f4) == Keys(f0) + Keys(f1) + Keys(f2) + Keys(f3) + Keys(f4)
  {
    KeysConcat(f0, f1);
    KeysConcat(f0 + f1, f2);
    KeysConcat(f0 + f1 + f2, f3);
    KeysConcat(f0 + f1 + f2 + f3, f4);
  }

  /** Where a key of `type` followed by four optional fields is looked up. */
  lemma SummaryShapeLookup(f0: Dict<Json>, f1: Dict<Json>, f2: Dict<Json>, f3: Dict<Json>, f4: Dict<Json>, k: string)
    requires Keys(f0) == {"type"}
    requires Keys(f1) <= {"pos"} && Keys(f2) <= {"vel"} && Keys(f3) <= {"rad"} && Keys(f4) <= {"rot"}
    ensures k == "type" ==> Lookup(f0 + f1 + f2 + f3 + f4, k) == Lookup(f0, k)
    ensures k == "pos" ==> Lookup(f0 + f1 + f2 + f3 + f4, k) == Lookup(f1, k)
    ensures k == "vel" ==> Lookup(f0 + f1 + f2 + f3 + f4, k) == Lookup(f2, k)
    ensures k == "rad" ==> Lookup(f0 + f1 + f2 + f3 + f4, k) == Lookup(f3, k)
    ensures k == "rot" ==> Lookup(f0 + f1 + f2 + f3 + f4, k) == Lookup(f4, k)
  {
    SummaryKeysDistinct();
    KeysConcat(f0, f1);
    KeysConcat(f0 + f1, f2);
    KeysConcat(f0 + f1 + f2, f3);
    LookupPresent(f1, k);
    LookupPresent(f2, k);
    LookupPresent(f3, k);
    LookupPresent(f4, k);
    LookupConcat(f0 + f1 + f2 + f3, f4, k);
    LookupConcat(f0 + f1 + f2, f3, k);
    LookupConcat(f0 + f1, f2, k);
    LookupConcat(f0, f1, k);
  }

  /** The keys and value of one optional field. */
  lemma FieldShape(k: string, v: Option<Json>)
    ensures Keys(Field(k, v)) == if v.Some? then {k} else {}
    ensures v.Some? ==> Lookup(Field(k, v), k) == v
  {
  }

  /** A summary always has `type`, and each of `pos`, `vel`, `rad`, `rot`
      exactly when the object exposes the matching attribute (logger.py:81-99). */
  lemma SpriteInfoKeys(o: Obj)
    ensures Keys(SpriteInfo(o)) ==
      {"type"}
      + (if o.position.Some? then {"pos"} else {})
      + (if o.velocity.Some? then {"vel"} else {})
      + (if o.radius.Some? then {"rad"} else {})
      + (if o.rotation.Some? then {"rot"} else {})
  {
    var f0: Dict<Json> := [("type", JStr(o.className))];
    var f1 := Field("pos", if o.position.Some? then Some(Pair(o.position.value)) else None);
    var f2 := Field("vel", if o.velocity.Some? then Some(Pair(o.velocity.value)) else None);
    var f3 := Field("rad", o.radius);
    var f4 := Field("rot", if o.rotation.Some? then Some(JReal(o.rotation.value)) else None);
    FieldShape("pos", if o.position.Some? then Some(Pair(o.position.value)) else None);
    FieldShape("vel", if o.velocity.Some? then Some(Pair(o.velocity.value)) else None);
    FieldShape("rad", o.radius);
    FieldShape("rot", if o.rotation.Some? then Some(JReal(o.rotation.value)) else None);
    SummaryShapeKeys(f0, f1, f2, f3, f4);
  }

  /** Each field of a summary holds the attribute's value (logger.py:81-99). */
  lemma SpriteInfoValues(o: Obj)
    ensures Lookup(SpriteInfo(o), "type") == Some(JStr(o.className))
    ensures o.position.Some? ==> Lookup(SpriteInfo(o), "pos") == Some(Pair(o.position.value))
    ensures o.velocity.Some? ==> Lookup(SpriteInfo(o), "vel") == Some(Pair(o.velocity.value))
    ensures o.radius.Some? ==> Lookup(SpriteInfo(o), "rad") == o.radius
    ensures o.rotation.Some? ==> Lookup(SpriteInfo(o), "rot") == Some(JReal(o.rotation.value))
  {
    var f0: Dict<Json> := [("type", JStr(o.className))];
    var f1 := Field("pos", if o.position.Some? then Some(Pair(o.position.value)) else None);
    var f2 := Field("vel", if o.velocity.Some? then Some(Pair(o.velocity.value)) else None);
    var f3 := Field("rad", o.radius);
    var f4 := Field("rot", if o.rotation.Some? then Some(JReal(o.rotation.value)) else None);
    FieldShape("pos", if o.position.Some? then Some(Pair(o.position.value)) else None);
    FieldShape("vel", if o.velocity.Some? then Some(Pair(o.velocity.value)) else None);
    FieldShape("rad", o.radius);
    FieldShape("rot", if o.rotation.Some? then Some(JReal(o.rotation.value)) else None);
    SummaryShapeLookup(f0, f1, f2, f3, f4, "type");
    SummaryShapeLookup(f0, f1, f2, f3, f4, "pos");
    SummaryShapeLookup(f0, f1, f2, f3, f4, "vel");
    SummaryShapeLookup(f0, f1, f2, f3, f4, "rad");
    SummaryShapeLookup(f0, f1, f2, f3, f4, "rot");
  }

  /** The sprites the `enumerate` loop visits before it breaks at index
      `limit` (logger.py:77-101): the first `limit` of `g`, in iteration order. */
  function Sample(g: seq<Obj>, limit: nat): (r: seq<Obj>)
    ensures |r| == Min(|g|, limit)
    ensures forall j :: 0 <= j < |r| ==> r[j] == g[j]
  {
    if |g| == 0 || limit == 0 then []
    else [g[0]] + Sample(g[1..], limit - 1)
  }

  /** The snapshot of a group (logger.py:103): its true size and a bounded
      prefix of its sprites. */
  function GroupSnapshot(g: seq<Obj>): (r: Snap)
    ensures r.Group? && r.count == |g|
    ensures |r.sprites| == Min(|g|, SpriteSampleLimit)
    ensures forall j :: 0 <= j < |r.sprites| ==> r.sprites[j] == g[j]
  {
    Group(|g|, Sample(g, SpriteSampleLimit))
  }

  /** One iteration of the walk over the caller's variables (logger.py:68-126):
      three independent checks, in this order. */
  function Visit(d: Discovery, c: Candidate): Discovery {
    var screen := if c.value.surfaceSize.Some? then c.value.surfaceSize else d.screenSize;
    var withGroup :=
      if c.value.members.Some? then Put(d.objects, c.name, GroupSnapshot(c.value.members.value))
      else d.objects;
    var withSingle :=
      if |withGroup| == 0 && c.value.position.Some? then Put(withGroup, c.name, Single(c.value))
      else withGroup;
    Discovery(screen, withSingle)
  }

  /** The walk over all of the caller's variables, starting from no screen size
      and an empty snapshot map (logger.py:64-65). */
  function Discover(cs: seq<Candidate>): Discovery {
    if |cs| == 0 then Discovery(None, [])
    else Visit(Discover(cs[..|cs| - 1]), cs[|cs| - 1])
  }

  /** An object that the walk could store: a group, or something with a position. */
  predicate Loggable(o: Obj) {
    o.members.Some? || o.position.Some?
  }

  /** Candidate `i` is stored as a stand-alone sprite: it has a position, is not a
      group, and nothing before it was loggable, so the snapshot map was still
      empty when it was reached. */
  ghost predicate SingletonAt(cs: seq<Candidate>, i: int)
    requires 0 <= i < |cs|
  {
    cs[i].value.position.Some? && cs[i].value.members.None? &&
    forall j :: 0 <= j < i ==> !Loggable(cs[j].value)
  }

  /** Candidate `i` gets a key in the snapshot map. */
  ghost predicate Stored(cs: seq<Candidate>, i: int)
    requires 0 <= i < |cs|
  {
    cs[i].value.members.Some? || SingletonAt(cs, i)
  }

  /** The caller's variables have distinct names, as the keys of a Python dict do. */
  ghost predicate DistinctNames(cs: seq<Candidate>) {
    forall i, j :: 0 <= i < j < |cs| ==> cs[i].name != cs[j].name
  }

  /** The stand-alone sprite, if any, sits first and has a position. */
  ghost predicate SingleFirst(objs: Dict<Snap>) {
    forall k :: 0 <= k < |objs| && objs[k].1.Single? ==> k == 0 && objs[k].1.obj.position.Some?
  }

  /** What one visit does to the display size. */
  lemma VisitScreen(d: Discovery, c: Candidate)
    ensures Visit(d, c).screenSize == if c.value.surfaceSize.Some? then c.value.surfaceSize else d.screenSize
  {
  }

  /** What one visit does to the keys of the snapshot map. */
  lemma VisitKeys(d: Discovery, c: Candidate)
    ensures Keys(Visit(d, c).objects) ==
      Keys(d.objects) + if c.value.members.Some? || (c.value.position.Some? && |d.objects| == 0) then {c.name} else {}
    ensures |Visit(d, c).objects| == 0 <==> |d.objects| == 0 && !Loggable(c.value)
  {
  }

  /** One visit stores a group under its name, stores a positioned non-group
      under its name when the map is still empty, and leaves every other key alone. */
  lemma VisitLookup(d: Discovery, c: Candidate)
    ensures forall k :: k != c.name ==> Lookup(Visit(d, c).objects, k) == Lookup(d.objects, k)
    ensures c.value.members.Some? ==>
      Lookup(Visit(d, c).objects, c.name) == Some(GroupSnapshot(c.value.members.value))
    ensures c.value.members.None? && c.value.position.Some? && |d.objects| == 0 ==>
      Lookup(Visit(d, c).objects, c.name) == Some(Single(c.value))
  {
    if c.value.members.Some? {
      var withGroup := Put(d.objects, c.name, GroupSnapshot(c.value.members.value));
      LookupPresent(withGroup, c.name);
      assert Visit(d, c).objects == withGroup;
    }
  }

  /** One visit keeps the stand-alone sprite first. */
  lemma VisitSingleFirst(d: Discovery, c: Candidate)
    requires SingleFirst(d.objects)
    ensures SingleFirst(Visit(d, c).objects)
  {
    var withGroup :=
      if c.value.members.Some? then Put(d.objects, c.name, GroupSnapshot(c.value.members.value)) else d.objects;
    if c.value.members.Some? {
      PutPlaces(d.objects, c.name, GroupSnapshot(c.value.members.value));
    }
    assert SingleFirst(withGroup);
    if |withGroup| == 0 && c.value.position.Some? {
      PutPlaces(withGroup, c.name, Single(c.value));
      assert Visit(d, c).objects == [(c.name, Single(c.value))];
    }
  }

  /** `screen_size` stays empty when no variable is a display surface; otherwise
      it is the size of the last surface in iteration order (logger.py:64, 70-71). */
  lemma {:induction false} DiscoverScreenSize(cs: seq<Candidate>)
    ensures Discover(cs).screenSize.None? <==> forall i :: 0 <= i < |cs| ==> cs[i].value.surfaceSize.None?
    ensures Discover(cs).screenSize.Some? ==>
      exists i :: 0 <= i < |cs| && cs[i].value.surfaceSize == Discover(cs).screenSize &&
        forall j :: i < j < |cs| ==> cs[j].value.surfaceSize.None?
  {
    if |cs| > 0 {
      var n := |cs| - 1;
      var p := cs[..n];
      var c := cs[n];
      DiscoverScreenSize(p);
      VisitScreen(Discover(p), c);
      var got := Discover(cs).screenSize;
      assert forall i :: 0 <= i < n ==> p[i] == cs[i];
      if c.value.surfaceSize.None? && got.Some? {
        var i :| 0 <= i < n && p[i].value.surfaceSize == got &&
          forall j :: i < j < n ==> p[j].value.surfaceSize.None?;
        assert cs[i].value.surfaceSize == got;
      }
    }
  }

  /** The snapshot map is empty exactly while nothing loggable has been seen. */
  lemma {:induction false} DiscoverEmpty(cs: seq<Candidate>)
    ensures |Discover(cs).objects| == 0 <==> forall j :: 0 <= j < |cs| ==> !Loggable(cs[j].value)
  {
    if |cs| > 0 {
      var p := cs[..|cs| - 1];
      DiscoverEmpty(p);
      VisitKeys(Discover(p), cs[|cs| - 1]);
      assert forall i :: 0 <= i < |p| ==> p[i] == cs[i];
    }
  }

  /** The snapshot map has one key per group and per stand-alone sprite, and no
      other (logger.py:103, 106, 126). */
  lemma {:induction false} DiscoverKeys(cs: seq<Candidate>)
    ensures Keys(Discover(cs).objects) == set i | 0 <= i < |cs| && Stored(cs, i) :: cs[i].name
  {
    if |cs| > 0 {
      var n := |cs| - 1;
      var p := cs[..n];
      DiscoverKeys(p);
      DiscoverEmpty(p);
      VisitKeys(Discover(p), cs[n]);
      StoredLast(cs);
    }
  }

  /** The names stored for a sequence of variables are those stored for all but
      the last, plus the last one's when it is stored. */
  lemma StoredLast(cs: seq<Candidate>)
    requires |cs| > 0
    ensures var n := |cs| - 1;
      (Stored(cs, n) <==> (cs[n].value.members.Some? ||
        (cs[n].value.position.Some? && forall j :: 0 <= j < n ==> !Loggable(cs[..n][j].value))))
    ensures var n := |cs| - 1;
      (set i | 0 <= i < |cs| && Stored(cs, i) :: cs[i].name) ==
        (set i | 0 <= i < n && Stored(cs[..n], i) :: cs[..n][i].name) +
        (if Stored(cs, n) then {cs[n].name} else {})
  {
    var n := |cs| - 1;
    var p := cs[..n];
    assert forall i :: 0 <= i < n ==> p[i] == cs[i];
    assert forall i :: 0 <= i < n ==> (Stored(p, i) <==> Stored(cs, i));
  }

  /** Every group is stored under its name as its group snapshot
      (logger.py:103). */
  lemma {:induction false} DiscoverGroups(cs: seq<Candidate>)
    requires DistinctNames(cs)
    ensures forall i :: 0 <= i < |cs| && cs[i].value.members.Some? ==>
      Lookup(Discover(cs).objects, cs[i].name) == Some(GroupSnapshot(cs[i].value.members.value))
  {
    if |cs| > 0 {
      var n := |cs| - 1;
      var p := cs[..n];
      var c := cs[n];
      assert forall i :: 0 <= i < n ==> p[i] == cs[i] && p[i].name != c.name;
      DiscoverGroups(p);
      VisitLookup(Discover(p), c);
    }
  }

  /** The stand-alone sprite is stored under its name (logger.py:106-126). */
  lemma {:induction false} DiscoverSingles(cs: seq<Candidate>)
    requires DistinctNames(cs)
    ensures forall i :: 0 <= i < |cs| && SingletonAt(cs, i) ==>
      Lookup(Discover(cs).objects, cs[i].name) == Some(Single(cs[i].value))
  {
    if |cs| > 0 {
      var n := |cs| - 1;
      var p := cs[..n];
      var c := cs[n];
      assert forall i :: 0 <= i < n ==> p[i] == cs[i] && p[i].name != c.name;
      assert forall i :: 0 <= i < n ==> (SingletonAt(cs, i) <==> SingletonAt(p, i));
      DiscoverSingles(p);
      DiscoverEmpty(p);
      VisitLookup(Discover(p), c);
    }
  }

  /** A stand-alone sprite only ever sits first in the snapshot map, so there is
      at most one, and it always has a position (logger.py:106-126). */
  lemma {:induction false} DiscoverSingleFirst(cs: seq<Candidate>)
    ensures SingleFirst(Discover(cs).objects)
  {
    if |cs| > 0 {
      var p := cs[..|cs| - 1];
      DiscoverSingleFirst(p);
      VisitSingleFirst(Discover(p), cs[|cs| - 1]);
    }
  }

  /** With distinct variable names: a variable is logged as a stand-alone sprite
      exactly when it has a position, is not a group, and no group or positioned
      object precedes it; so no variable after the first group, and none after
      a stand-alone sprite, is ever logged as one (logger.py:106, 126). */
  lemma DiscoverSingleton(cs: seq<Candidate>, i: int)
    requires DistinctNames(cs)
    requires 0 <= i < |cs|
    ensures (Lookup(Discover(cs).objects, cs[i].name).Some? &&
             Lookup(Discover(cs).objects, cs[i].name).value.Single?) <==> SingletonAt(cs, i)
    ensures forall j :: 0 <= j < i && Loggable(cs[j].value) ==>
      !(Lookup(Discover(cs).objects, cs[i].name).Some? &&
        Lookup(Discover(cs).objects, cs[i].name).value.Single?)
  {
    DiscoverGroups(cs);
    DiscoverSingles(cs);
    DiscoverKeys(cs);
    var objs := Discover(cs).objects;
    LookupPresent(objs, cs[i].name);
  }

  /** The walk never stores two entries under one key, as a Python dict cannot. */
  lemma {:induction false} DiscoverUnique(cs: seq<Candidate>)
    ensures UniqueKeys(Discover(cs).objects)
  {
    if |cs| > 0 {
      var p := cs[..|cs| - 1];
      var c := cs[|cs| - 1];
      DiscoverUnique(p);
      var objs := Discover(p).objects;
      var withGroup :=
        if c.value.members.Some? then Put(objs, c.name, GroupSnapshot(c.value.members.value)) else objs;
      if c.value.members.Some? {
        PutUnique(objs, c.name, GroupSnapshot(c.value.members.value));
      }
      if |withGroup| == 0 && c.value.position.Some? {
        PutUnique(withGroup, c.name, Single(c.value));
      }
    }
  }
}
