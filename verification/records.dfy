/** The JSON objects `log_state` and `log_event` serialise (logger.py:129-135,
    151-157): four fixed fields first, then the discovered snapshots or the
    caller's details, merged in as a Python dict literal `{..., **rest}` does. */
module Records {
  import opened Options
  import opened Dict
  import opened Json
  import opened Snapshot
  import opened Logger

  /** A snapshot as JSON (logger.py:103, 126). */
  function SnapJson(x: Snap): Json {
    match x
    case Group(count, sprites) =>
      JObj([("count", JInt(count)), ("sprites", JArr(seq(|sprites|, j requires 0 <= j < |sprites| => JObj(SpriteInfo(sprites[j])))))])
    case Single(obj) => JObj(SpriteInfo(obj))
  }

  /** Every snapshot of `d` as JSON, under the same key and in the same order. */
  function SnapsJson(d: Dict<Snap>): (r: Dict<Json>)
    ensures |r| == |d|
    ensures Keys(r) == Keys(d)
    ensures forall k :: Lookup(r, k) == if Lookup(d, k).Some? then Some(SnapJson(Lookup(d, k).value)) else None
  {
    if |d| == 0 then [] else [(d[0].0, SnapJson(d[0].1))] + SnapsJson(d[1..])
  }

  /** `[width, height]`, or `[]` when no display surface was found (logger.py:64, 71). */
  function ScreenJson(size: Option<Size>): Json {
    match size
    case None => JArr([])
    case Some(sz) => JArr([JInt(sz.width), JInt(sz.height)])
  }

  /** The timestamp, elapsed seconds and frame both entries start with. */
  function Stamp(clock: Clock, frame: nat): (r: Dict<Json>)
    ensures Keys(r) == {"timestamp", "elapsed_s", "frame"}
    ensures Lookup(r, "timestamp") == Some(JStr(clock.timestamp))
    ensures Lookup(r, "elapsed_s") == Some(JInt(clock.elapsedSeconds))
    ensures Lookup(r, "frame") == Some(JInt(frame))
  {
    assert "frame" != "timestamp" && "frame" != "elapsed_s" && "elapsed_s" != "timestamp";
    var d := Put([], "timestamp", JStr(clock.timestamp));
    var d := Put(d, "elapsed_s", JInt(clock.elapsedSeconds));
    Put(d, "frame", JInt(frame))
  }

  /** The state entry as written (logger.py:129-135). */
  function StateJson(e: StateEntry): (r: Dict<Json>)
    ensures Keys(r) == {"timestamp", "elapsed_s", "frame", "screen_size"} + Keys(e.objects)
    ensures "timestamp" !in Keys(e.objects) ==> Lookup(r, "timestamp") == Some(JStr(e.clock.timestamp))
    ensures "elapsed_s" !in Keys(e.objects) ==> Lookup(r, "elapsed_s") == Some(JInt(e.clock.elapsedSeconds))
    ensures "frame" !in Keys(e.objects) ==> Lookup(r, "frame") == Some(JInt(e.frame))
    ensures "screen_size" !in Keys(e.objects) ==> Lookup(r, "screen_size") == Some(ScreenJson(e.screenSize))
    ensures UniqueKeys(e.objects) ==> forall k :: k in Keys(e.objects) ==>
      Lookup(e.objects, k).Some? && Lookup(r, k) == Some(SnapJson(Lookup(e.objects, k).value))
  {
    assert "screen_size" != "frame" && "screen_size" != "timestamp" && "screen_size" != "elapsed_s";
    var fixed := Put(Stamp(e.clock, e.frame), "screen_size", ScreenJson(e.screenSize));
    var objs := SnapsJson(e.objects);
    assert UniqueKeys(e.objects) ==> UniqueKeys(objs) by {
      if UniqueKeys(e.objects) {
        assert forall i :: 0 <= i < |objs| ==> objs[i].0 == e.objects[i].0 by {
          SnapsJsonKeys(e.objects);
        }
      }
    }
    forall k | k in Keys(e.objects)
      ensures Lookup(e.objects, k).Some?
    {
      LookupPresent(e.objects, k);
    }
    Merge(fixed, objs)
  }

  /** Rendering keeps each key where it stood. */
  lemma {:induction false} SnapsJsonKeys(d: Dict<Snap>)
    ensures forall i :: 0 <= i < |d| ==> SnapsJson(d)[i].0 == d[i].0
  {
    if |d| > 0 {
      SnapsJsonKeys(d[1..]);
    }
  }

  /** The event entry as written (logger.py:151-157). */
  function EventJson(e: EventEntry): (r: Dict<Json>)
    ensures Keys(r) == {"timestamp", "elapsed_s", "frame", "type"} + Keys(e.details)
    ensures "timestamp" !in Keys(e.details) ==> Lookup(r, "timestamp") == Some(JStr(e.clock.timestamp))
    ensures "elapsed_s" !in Keys(e.details) ==> Lookup(r, "elapsed_s") == Some(JInt(e.clock.elapsedSeconds))
    ensures "frame" !in Keys(e.details) ==> Lookup(r, "frame") == Some(JInt(e.frame))
    ensures "type" !in Keys(e.details) ==> Lookup(r, "type") == Some(JStr(e.eventType))
    ensures UniqueKeys(e.details) ==> forall k :: k in Keys(e.details) ==> Lookup(r, k) == Lookup(e.details, k)
  {
    assert "type" != "frame" && "type" != "timestamp" && "type" != "elapsed_s";
    var fixed := Put(Stamp(e.clock, e.frame), "type", JStr(e.eventType));
    Merge(fixed, e.details)
  }

  /** A state record's keys are exactly the four fixed ones plus the name of
      every group and of the stand-alone sprite, if any (logger.py:64-135). */
  lemma StateRecordKeys(s: LoggerState, now: Clock, caller: seq<Candidate>)
    requires LogState(s, now, Some(caller)).1.Some?
    ensures Keys(StateJson(LogState(s, now, Some(caller)).1.value.state)) ==
      {"timestamp", "elapsed_s", "frame", "screen_size"} +
      set i | 0 <= i < |caller| && Stored(caller, i) :: caller[i].name
  {
    DiscoverKeys(caller);
  }

  /** A group renders as `{"count": n, "sprites": [...]}` with n the group's
      true size and the summaries of its first ten sprites, in order
      (logger.py:77-103). */
  lemma GroupJson(g: seq<Obj>)
    ensures SnapJson(GroupSnapshot(g)).JObj?
    ensures Lookup(SnapJson(GroupSnapshot(g)).fields, "count") == Some(JInt(|g|))
    ensures Lookup(SnapJson(GroupSnapshot(g)).fields, "sprites").Some?
    ensures Lookup(SnapJson(GroupSnapshot(g)).fields, "sprites").value.JArr?
    ensures |Lookup(SnapJson(GroupSnapshot(g)).fields, "sprites").value.items| == Min(|g|, SpriteSampleLimit)
    ensures forall j :: 0 <= j < Min(|g|, SpriteSampleLimit) ==>
      Lookup(SnapJson(GroupSnapshot(g)).fields, "sprites").value.items[j] == JObj(SpriteInfo(g[j]))
  {
  }

  /** The stand-alone sprite of a state record renders with a `pos` field
      (logger.py:106-126). */
  lemma SingletonJsonHasPos(cs: seq<Candidate>, k: nat)
    requires k < |Discover(cs).objects| && Discover(cs).objects[k].1.Single?
    ensures k == 0
    ensures SnapJson(Discover(cs).objects[k].1).JObj?
    ensures "pos" in Keys(SnapJson(Discover(cs).objects[k].1).fields)
  {
    DiscoverSingleFirst(cs);
    SpriteInfoKeys(Discover(cs).objects[k].1.obj);
  }

  /** In a written state record, every group of the caller's scope appears
      under its name as `{count, sprites}` and the stand-alone sprite, if any,
      as its summary (logger.py:74-135). */
  lemma StateRecordSnapshots(s: LoggerState, now: Clock, caller: seq<Candidate>)
    requires LogState(s, now, Some(caller)).1.Some?
    requires DistinctNames(caller)
    ensures forall i :: 0 <= i < |caller| && caller[i].value.members.Some? ==>
      Lookup(StateJson(LogState(s, now, Some(caller)).1.value.state), caller[i].name) ==
        Some(SnapJson(GroupSnapshot(caller[i].value.members.value)))
    ensures forall i :: 0 <= i < |caller| && SingletonAt(caller, i) ==>
      Lookup(StateJson(LogState(s, now, Some(caller)).1.value.state), caller[i].name) ==
        Some(JObj(SpriteInfo(caller[i].value)))
  {
    var objs := Discover(caller).objects;
    DiscoverUnique(caller);
    DiscoverGroups(caller);
    DiscoverSingles(caller);
    forall i | 0 <= i < |caller| && (caller[i].value.members.Some? || SingletonAt(caller, i))
      ensures caller[i].name in Keys(objs)
    {
      LookupPresent(objs, caller[i].name);
    }
  }
}
