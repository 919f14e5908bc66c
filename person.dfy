/**
 * `ThreedPersonComponent`: a person who, on a strong enough earthquake,
 * claims the nearest free desk it can reach, walks there one grid cell per
 * tween and then crawls under it. Path finding, the grid lookups around it
 * and the tween engine are inputs: a path is a list of grid cells and a
 * finished tween is a call to `CompleteTween`.
 */
module Person {
  import opened Wrappers
  import opened ThreedModels
  import opened NavMesh

  /** A desk PIR sensor (`Pir`): where it is and whether a person has claimed it. */
  class Desk {
    const pirPosition: Vector3
    var isOccupied: bool

    constructor(pirPosition: Vector3)
      ensures this.pirPosition == pirPosition && !isOccupied
    {
      this.pirPosition := pirPosition;
      isOccupied := false;
    }
  }

  /** Squared distance, which orders desks exactly as `distanceTo` does. */
  function SqDist(a: Vector3, b: Vector3): (d: real)
    ensures d >= 0.0
  {
    (a.x - b.x) * (a.x - b.x) + (a.y - b.y) * (a.y - b.y) + (a.z - b.z) * (a.z - b.z)
  }

  /** The sort key of a desk: its squared distance to the person. */
  function Dist(d: Desk, from: Vector3): real
  {
    SqDist(d.pirPosition, from)
  }

  ghost predicate SortedByDistance(s: seq<Desk>, from: Vector3)
  {
    forall i, j :: 0 <= i < j < |s| ==> Dist(s[i], from) <= Dist(s[j], from)
  }

  /**
   * One pass of insertion sort: `x` goes after every desk of `t` that is not
   * farther than it, so it passes only strictly farther desks.
   */
  function Ins(t: seq<Desk>, x: Desk, from: Vector3): seq<Desk>
    decreases |t|
  {
    if |t| == 0 then [x]
    else if Dist(t[|t| - 1], from) > Dist(x, from) then Ins(t[..|t| - 1], x, from) + [t[|t| - 1]]
    else t + [x]
  }

  /** The order `deskPirs.sort(...)` leaves: a stable sort by distance, by insertion. */
  function SortedDesks(s: seq<Desk>, from: Vector3): seq<Desk>
    decreases |s|
  {
    if |s| == 0 then [] else Ins(SortedDesks(s[..|s| - 1], from), s[|s| - 1], from)
  }

  /** The desks of `s` at distance `r`, in their order in `s`. */
  function AtDistance(s: seq<Desk>, from: Vector3, r: real): seq<Desk>
    decreases |s|
  {
    if s == [] then []
    else AtDistance(s[..|s| - 1], from, r) + (if Dist(s[|s| - 1], from) == r then [s[|s| - 1]] else [])
  }

  lemma {:induction false} InsMultiset(t: seq<Desk>, x: Desk, from: Vector3)
    ensures multiset(Ins(t, x, from)) == multiset(t) + multiset{x}
    decreases |t|
  {
    if t != [] && Dist(t[|t| - 1], from) > Dist(x, from) {
      InsMultiset(t[..|t| - 1], x, from);
      assert t == t[..|t| - 1] + [t[|t| - 1]];
    }
  }

  lemma {:induction false} InsSorted(t: seq<Desk>, x: Desk, from: Vector3)
    requires SortedByDistance(t, from)
    ensures SortedByDistance(Ins(t, x, from), from)
    decreases |t|
  {
    if t != [] && Dist(t[|t| - 1], from) > Dist(x, from) {
      var init, last := t[..|t| - 1], t[|t| - 1];
      InsSorted(init, x, from);
      InsMultiset(init, x, from);
      var u := Ins(init, x, from);
      forall k | 0 <= k < |u|
        ensures Dist(u[k], from) <= Dist(last, from)
      {
        assert u[k] in multiset(u);
        if u[k] != x {
          assert u[k] in multiset(init);
          var m :| 0 <= m < |init| && init[m] == u[k];
          assert t[m] == init[m];
        }
      }
    }
  }

  /** Inserting a desk keeps the order of the desks at every distance and puts it last among its own. */
  lemma {:induction false} InsAtDistance(t: seq<Desk>, x: Desk, from: Vector3, r: real)
    ensures AtDistance(Ins(t, x, from), from, r) == AtDistance(t, from, r) + (if Dist(x, from) == r then [x] else [])
    decreases |t|
  {
    if t == [] {
      assert [x][..0] == [];
    } else if Dist(t[|t| - 1], from) > Dist(x, from) {
      var init, last := t[..|t| - 1], t[|t| - 1];
      InsAtDistance(init, x, from, r);
      var u := Ins(init, x, from);
      assert (u + [last])[..|u + [last]| - 1] == u;
    } else {
      assert (t + [x])[..|t + [x]| - 1] == t;
    }
  }

  /**
   * `SortedDesks` is a stable sort: nearest first, the same desks, and the
   * desks at any one distance in their input order.
   */
  lemma {:induction false} SortedDesksSorts(s: seq<Desk>, from: Vector3)
    ensures SortedByDistance(SortedDesks(s, from), from)
    ensures multiset(SortedDesks(s, from)) == multiset(s)
    ensures forall r :: AtDistance(SortedDesks(s, from), from, r) == AtDistance(s, from, r)
    decreases |s|
  {
    if s != [] {
      var init, last := s[..|s| - 1], s[|s| - 1];
      SortedDesksSorts(init, from);
      InsSorted(SortedDesks(init, from), last, from);
      InsMultiset(SortedDesks(init, from), last, from);
      assert s == init + [last];
      forall r
        ensures AtDistance(SortedDesks(s, from), from, r) == AtDistance(s, from, r)
      {
        InsAtDistance(SortedDesks(init, from), last, from, r);
      }
    }
  }

  /** Sorting keeps exactly the desks it was given. */
  lemma SortedDesksSameDesks(s: seq<Desk>, from: Vector3)
    ensures forall x :: x in s <==> x in SortedDesks(s, from)
  {
    SortedDesksSorts(s, from);
    SameMembers(s, SortedDesks(s, from));
  }

  /** Two desks at the same distance stay in the order given, whichever it is. */
  lemma EquidistantKeepOrder(d1: Desk, d2: Desk, from: Vector3)
    requires Dist(d1, from) == Dist(d2, from)
    ensures SortedDesks([d1, d2], from) == [d1, d2]
  {
    assert [d1, d2][..1] == [d1];
    assert [d1][..0] == [];
    assert SortedDesks([d1], from) == [d1];
    assert Ins([d1], d2, from) == [d1, d2];
  }

  /** The `deskPirs.sort(...)` of `earthquakeAlert`: the caller's array, reordered as `SortedDesks`. */
  method SortByDistance(a: array<Desk>, from: Vector3)
    modifies a
    ensures a[..] == SortedDesks(old(a[..]), from)
  {
    ghost var s := a[..];
    var i := 0;
    while i < a.Length
      invariant 0 <= i <= a.Length
      invariant a[..i] == SortedDesks(s[..i], from)
      invariant a[i..] == s[i..]
    {
      Insert(a, i, from);
      assert s[..i + 1][..i] == s[..i];
      assert a[i + 1..] == s[i + 1..];
      i := i + 1;
    }
    assert a[..i] == a[..] && s[..i] == s;
  }

  /**
   * Where the pass puts `x`: after the first `j` desks, when every desk from
   * `j` on is strictly farther and the one before `j`, if any, is not.
   */
  lemma {:induction false} InsPlace(t: seq<Desk>, x: Desk, from: Vector3, j: nat)
    requires j <= |t| && (j == 0 || Dist(t[j - 1], from) <= Dist(x, from))
    requires forall k :: j <= k < |t| ==> Dist(t[k], from) > Dist(x, from)
    ensures Ins(t, x, from) == t[..j] + [x] + t[j..]
    decreases |t|
  {
    if j < |t| {
      var init := t[..|t| - 1];
      InsPlace(init, x, from, j);
      assert init[..j] == t[..j] && init[j..] + [t[|t| - 1]] == t[j..];
    } else if j > 0 {
      assert t[..j] == t;
    }
  }

  /** One insertion-sort pass: `a[i]` moves down past every strictly farther desk before it. */
  method Insert(a: array<Desk>, i: nat, from: Vector3)
    requires i < a.Length
    modifies a
    ensures a[..i + 1] == Ins(old(a[..i]), old(a[i]), from)
    ensures a[i + 1..] == old(a[i + 1..])
  {
    ghost var t, x := a[..i], a[i];
    var j := i;
    while j > 0 && Dist(a[j - 1], from) > Dist(a[j], from)
      invariant 0 <= j <= i
      invariant a[j] == x
      invariant forall k :: 0 <= k < j ==> a[k] == t[k]
      invariant forall k :: j < k <= i ==> a[k] == t[k - 1]
      invariant forall k :: i < k < a.Length ==> a[k] == old(a[k])
      invariant forall k :: j <= k < i ==> Dist(t[k], from) > Dist(x, from)
    {
      a[j - 1], a[j] := a[j], a[j - 1];
      j := j - 1;
    }
    ghost var r := t[..j] + [x] + t[j..];
    assert forall k :: 0 <= k <= i ==> a[k] == r[k];
    assert a[..i + 1] == r;
    assert a[i + 1..] == old(a[i + 1..]);
    InsPlace(t, x, from, j);
  }

  /** Sequences with the same multiset hold the same elements. */
  lemma SameMembers<T>(a: seq<T>, b: seq<T>)
    requires multiset(a) == multiset(b)
    ensures forall x :: x in a <==> x in b
  {
    forall x
      ensures x in a <==> x in b
    {
      assert x in a <==> x in multiset(a);
      assert x in b <==> x in multiset(b);
    }
  }

  /**
   * The claiming loop of `earthquakeAlert` over the sorted desks: occupied
   * desks are skipped, the path to each other desk is looked up, and the
   * first one with a non-empty path is marked occupied. `lastPath` is the
   * last path looked up.
   */
  method ClaimNearest(desks: array<Desk>, pathTo: Vector3 -> seq<Coords>) returns (claimed: Option<nat>, lastPath: Option<seq<Coords>>)
    modifies set k | 0 <= k < desks.Length :: desks[k]
    ensures claimed.Some? ==> claimed.value < desks.Length
    ensures claimed.Some? ==> !old(desks[claimed.value].isOccupied) && desks[claimed.value].isOccupied &&
                              pathTo(desks[claimed.value].pirPosition) != [] &&
                              lastPath == Some(pathTo(desks[claimed.value].pirPosition))
    ensures forall k :: 0 <= k < desks.Length && (claimed.None? || k < claimed.value) ==>
              old(desks[k].isOccupied) || pathTo(desks[k].pirPosition) == []
    ensures forall d: Desk :: d in desks[..] ==> d.isOccupied == (old(d.isOccupied) || (claimed.Some? && d == desks[claimed.value]))
    ensures claimed.None? && lastPath.Some? ==> lastPath.value == []
    ensures lastPath.None? ==> claimed.None? && forall k :: 0 <= k < desks.Length ==> old(desks[k].isOccupied)
  {
    claimed, lastPath := None, None;
    var i := 0;
    while i < desks.Length
      invariant 0 <= i <= desks.Length
      invariant forall k :: 0 <= k < i ==> old(desks[k].isOccupied) || pathTo(desks[k].pirPosition) == []
      invariant forall d: Desk :: d in desks[..] ==> d.isOccupied == old(d.isOccupied)
      invariant lastPath.Some? ==> lastPath.value == []
      invariant lastPath.None? ==> forall k :: 0 <= k < i ==> old(desks[k].isOccupied)
    {
      var desk := desks[i];
      if desk.isOccupied {
        i := i + 1;
        continue;
      }
      var p := pathTo(desk.pirPosition);
      lastPath := Some(p);
      if p != [] {
        desk.isOccupied := true;
        claimed := Some(i);
        return;
      }
      i := i + 1;
    }
  }

  /** The two tweens a person runs: a step to the next cell, and the crawl under the desk. */
  datatype Tween = Walk(target: Vector3) | Crawl(target: Vector3)

  const Idle: string := "Idle"
  const Walking: string := "Walking"
  const Laying: string := "Laying"
  const Crawling: string := "Crawling"

  /** The target of a step to a grid cell: the cell's position on the floor plane. */
  function StepTarget(cellPosition: Coords -> Vector3, c: Coords): (v: Vector3)
    ensures v.y == 0.0 && v.x == cellPosition(c).x && v.z == cellPosition(c).z
  {
    var p := cellPosition(c);
    Vector3(p.x, 0.0, p.z)
  }

  /** Where a person lies under a desk: the sensor's position brought down to the floor. */
  function UnderDesk(pir: Vector3): (v: Vector3)
    ensures v.x == pir.x && v.y == 0.0 && v.z == pir.z
  {
    Vector3(pir.x, pir.y - pir.y, pir.z)
  }

  /** What a tick decides for a person: the cells left to walk, whether it lies under its desk, the tween running and the clips playing. */
  datatype Motion = Motion(clonedPath: Option<seq<Coords>>, pirUnderDesk: bool, tween: Option<Tween>, playing: set<string>)

  /** `walkToDesk` on a person's motion, `hasDesk` saying whether a desk was claimed. */
  function Walked(m: Motion, hasDesk: bool, cellPosition: Coords -> Vector3): Motion
  {
    if m.clonedPath.None? || !hasDesk || m.pirUnderDesk then m
    else if m.clonedPath.value == [] then m.(pirUnderDesk := true, playing := {Laying})
    else
      var playing := if Walking in m.playing then m.playing else {Walking};
      if m.tween.Some? then m.(playing := playing)
      else m.(playing := playing, clonedPath := Some(m.clonedPath.value[1..]),
            tween := Some(Walk(StepTarget(cellPosition, m.clonedPath.value[0]))))
  }

  /** `updatePositionUnderDesk` on the motion of a person standing at `position`. */
  function Settled(m: Motion, position: Vector3, desk: Option<Desk>): Motion
  {
    if !m.pirUnderDesk || m.tween.Some? || desk.None? then m
    else
      var spot := UnderDesk(desk.value.pirPosition);
      if SqDist(position, spot) > 0.01 then m.(tween := Some(Crawl(spot)), playing := m.playing + {Crawling}) else m
  }

  /** While a person is still on its way, the settling half of a tick does nothing. */
  lemma TickOnTheWay(m: Motion, hasDesk: bool, cellPosition: Coords -> Vector3, position: Vector3, desk: Option<Desk>)
    requires !m.pirUnderDesk && !(hasDesk && m.clonedPath == Some([]))
    ensures Settled(Walked(m, hasDesk, cellPosition), position, desk) == Walked(m, hasDesk, cellPosition)
    ensures var w := Walked(m, hasDesk, cellPosition).clonedPath;
            w == m.clonedPath || (m.clonedPath.Some? && m.clonedPath.value != [] && w == Some(m.clonedPath.value[1..]))
  {
  }

  /**
   * The tick that uses the path up lays the person under its desk and, when
   * the person stands more than 0.1 from the spot under the desk, starts the
   * crawl there in the same tick.
   */
  lemma TickReachesDesk(m: Motion, cellPosition: Coords -> Vector3, position: Vector3, desk: Desk)
    requires m.clonedPath == Some([]) && !m.pirUnderDesk && m.tween.None?
    ensures var r := Settled(Walked(m, true, cellPosition), position, Some(desk));
            var spot := UnderDesk(desk.pirPosition);
            r.pirUnderDesk && r.clonedPath == Some([]) &&
            (SqDist(position, spot) > 0.01 ==> r.tween == Some(Crawl(spot)) && r.playing == {Laying, Crawling}) &&
            (SqDist(position, spot) <= 0.01 ==> r.tween.None? && r.playing == {Laying})
  {
  }

  class ThreedPersonComponent {
    var position: Vector3
    var path: Option<seq<Coords>>
    var clonedPath: Option<seq<Coords>>
    var alerted: bool
    var pirUnderDesk: bool
    var deskPirFound: Option<Desk>
    var tween: Option<Tween>
    /** The animation clips playing: `animator.play` adds one, `animator.stop` removes one or, without a name, all. */
    var playing: set<string>

    /** The part of the person a tick changes. */
    ghost function Moves(): Motion
      reads this
    {
      Motion(clonedPath, pirUnderDesk, tween, playing)
    }

    /** A desk is only held once alerted, and only a person with a desk lies under one. */
    ghost predicate Valid()
      reads this
    {
      (!alerted ==> deskPirFound.None?) && (pirUnderDesk ==> deskPirFound.Some?)
    }

    constructor(position: Vector3)
      ensures Valid()
      ensures this.position == position && path.None? && clonedPath.None? && !alerted && !pirUnderDesk
      ensures deskPirFound.None? && tween.None? && playing == {Idle}
    {
      this.position := position;
      path, clonedPath := None, None;
      alerted, pirUnderDesk := false, false;
      deskPirFound := None;
      tween := None;
      playing := {Idle};
    }

    /** `findPathToDesk`, given what the path finder returns: both the path and a separate walking copy are kept. */
    method FindPathToDesk(found: seq<Coords>) returns (ok: bool)
      modifies this
      ensures ok <==> found != []
      ensures path == Some(found) && clonedPath == Some(found)
      ensures position == old(position) && alerted == old(alerted) && pirUnderDesk == old(pirUnderDesk)
      ensures deskPirFound == old(deskPirFound) && tween == old(tween) && playing == old(playing)
    {
      path := Some(found);
      clonedPath := Some(found);
      ok := |found| > 0;
    }

    /**
     * `earthquakeAlert`: ignored once alerted or for a magnitude up to 0.5;
     * otherwise the desks are sorted nearest first, at most the first free
     * reachable one is claimed, and the person is alerted either way.
     */
    method EarthquakeAlert(magnitude: real, desks: array<Desk>, pathTo: Vector3 -> seq<Coords>)
      modifies this`alerted, this`path, this`clonedPath, this`deskPirFound, desks, set k | 0 <= k < desks.Length :: desks[k]
      requires Valid()
      ensures Valid()
      ensures old(alerted) || magnitude <= 0.5 ==>
                unchanged(this) && unchanged(desks) && forall d: Desk :: d in old(desks[..]) ==> d.isOccupied == old(d.isOccupied)
      ensures !old(alerted) && magnitude > 0.5 ==>
                alerted && desks[..] == SortedDesks(old(desks[..]), position)
      ensures !old(alerted) && magnitude > 0.5 && deskPirFound.Some? ==>
                deskPirFound.value in desks[..] && deskPirFound.value in old(desks[..]) &&
                (var d := deskPirFound.value;
                 !old(d.isOccupied) && d.isOccupied && clonedPath == Some(pathTo(d.pirPosition)) && clonedPath.value != [])
      ensures !old(alerted) && magnitude > 0.5 ==>
                forall d: Desk :: d in old(desks[..]) ==> d.isOccupied == (old(d.isOccupied) || deskPirFound == Some(d))
      ensures !old(alerted) && magnitude > 0.5 && deskPirFound.Some? ==>
                exists c :: 0 <= c < desks.Length && desks[c] == deskPirFound.value &&
                            forall k :: 0 <= k < c ==> var d := desks[k]; d in old(desks[..]) && (old(d.isOccupied) || pathTo(d.pirPosition) == [])
      ensures !old(alerted) && magnitude > 0.5 && deskPirFound.None? ==>
                forall k :: 0 <= k < desks.Length ==> var d := desks[k]; d in old(desks[..]) && (old(d.isOccupied) || pathTo(d.pirPosition) == [])
      ensures (path == old(path) && clonedPath == old(clonedPath)) || path == clonedPath
    {
      if alerted || magnitude <= 0.5 {
        return;
      }
      Alert(desks, pathTo);
    }

    /** `earthquakeAlert` past its opening check: sort the desks, claim the nearest free reachable one, become alerted. */
    method Alert(desks: array<Desk>, pathTo: Vector3 -> seq<Coords>)
      modifies this`alerted, this`path, this`clonedPath, this`deskPirFound, desks, set k | 0 <= k < desks.Length :: desks[k]
      requires Valid() && !alerted
      ensures Valid()
      ensures alerted && desks[..] == SortedDesks(old(desks[..]), position)
      ensures forall d: Desk :: d in old(desks[..]) ==> d.isOccupied == (old(d.isOccupied) || deskPirFound == Some(d))
      ensures deskPirFound.Some? ==>
                var desk := deskPirFound.value;
                desk in old(desks[..]) && !old(desk.isOccupied) && desk.isOccupied &&
                clonedPath == Some(pathTo(desk.pirPosition)) && clonedPath.value != [] &&
                exists c :: 0 <= c < desks.Length && desks[c] == desk &&
                            forall k :: 0 <= k < c ==> var d := desks[k]; d in old(desks[..]) && (old(d.isOccupied) || pathTo(d.pirPosition) == [])
      ensures deskPirFound.None? ==>
                forall k :: 0 <= k < desks.Length ==> var d := desks[k]; d in old(desks[..]) && (old(d.isOccupied) || pathTo(d.pirPosition) == [])
      ensures (path == old(path) && clonedPath == old(clonedPath)) || path == clonedPath
    {
      ghost var before := desks[..];
      SortByDistance(desks, position);
      SortedDesksSameDesks(before, position);
      Claim(desks, pathTo, before);
      assert desks[..] == SortedDesks(before, position);
      alerted := true;
    }

    /** The claiming part of `earthquakeAlert`, on the desks as sorted: the person keeps the last path looked up. */
    method Claim(desks: array<Desk>, pathTo: Vector3 -> seq<Coords>, ghost before: seq<Desk>)
      modifies this`path, this`clonedPath, this`deskPirFound, set k | 0 <= k < |before| :: before[k]
      requires deskPirFound.None?
      requires forall k :: 0 <= k < desks.Length ==> desks[k] in before
      requires desks[..] == SortedDesks(before, position)
      ensures desks[..] == SortedDesks(before, position)
      ensures deskPirFound.Some? ==>
                var desk := deskPirFound.value;
                desk in before && !old(desk.isOccupied) && desk.isOccupied &&
                clonedPath == Some(pathTo(desk.pirPosition)) && clonedPath.value != [] &&
                exists c :: 0 <= c < desks.Length && desks[c] == desk &&
                            forall k :: 0 <= k < c ==> var d := desks[k]; d in before && (old(d.isOccupied) || pathTo(d.pirPosition) == [])
      ensures deskPirFound.None? ==>
                forall k :: 0 <= k < desks.Length ==> var d := desks[k]; d in before && (old(d.isOccupied) || pathTo(d.pirPosition) == [])
      ensures forall d: Desk :: d in before ==> d.isOccupied == (old(d.isOccupied) || deskPirFound == Some(d))
      ensures (path == old(path) && clonedPath == old(clonedPath)) || path == clonedPath
    {
      var claimed, lastPath := ClaimNearest(desks, pathTo);
      if lastPath.Some? {
        path := lastPath;
        clonedPath := lastPath;
      }
      if claimed.Some? {
        deskPirFound := Some(desks[claimed.value]);
      }
    }

    /**
     * `walkToDesk`: nothing without a path or a desk, or once under it; an
     * exhausted path puts the person under the desk, laying; otherwise the
     * walk animation plays and, unless a step is under way, the next cell is
     * taken off the path and a step towards it starts.
     */
    method WalkToDesk(cellPosition: Coords -> Vector3)
      requires Valid()
      ensures Valid()
      modifies this
      ensures path == old(path) && deskPirFound == old(deskPirFound) && alerted == old(alerted) && position == old(position)
      ensures old(clonedPath).None? || old(deskPirFound).None? || old(pirUnderDesk) ==> unchanged(this)
      ensures old(clonedPath) == Some([]) && old(deskPirFound).Some? && !old(pirUnderDesk) ==>
                pirUnderDesk && playing == {Laying} && clonedPath == old(clonedPath) && tween == old(tween)
      ensures old(clonedPath).Some? && old(clonedPath).value != [] && old(deskPirFound).Some? && !old(pirUnderDesk) ==>
                !pirUnderDesk && Walking in playing &&
                (Walking in old(playing) ==> playing == old(playing)) && (Walking !in old(playing) ==> playing == {Walking}) &&
                (old(tween).Some? ==> tween == old(tween) && clonedPath == old(clonedPath)) &&
                (old(tween).None? ==> clonedPath == Some(old(clonedPath).value[1..]) &&
                                      tween == Some(Walk(StepTarget(cellPosition, old(clonedPath).value[0]))))
      ensures Moves() == Walked(old(Moves()), deskPirFound.Some?, cellPosition)
    {
      if clonedPath.None? || deskPirFound.None? || pirUnderDesk {
        return;
      }
      if |clonedPath.value| == 0 {
        pirUnderDesk := true;
        playing := {};
        playing := playing + {Laying};
        return;
      }
      if Walking !in playing {
        playing := {};
        playing := playing + {Walking};
      }
      if tween.Some? {
        return;
      }
      var first := clonedPath.value[0];
      clonedPath := Some(clonedPath.value[1..]);
      tween := Some(Walk(StepTarget(cellPosition, first)));
    }

    /** `updatePositionUnderDesk`: once under the desk and idle, a person farther than 0.1 from its spot crawls there. */
    method UpdatePositionUnderDesk()
      requires Valid()
      modifies this
      ensures Valid()
      ensures path == old(path) && clonedPath == old(clonedPath) && deskPirFound == old(deskPirFound)
      ensures alerted == old(alerted) && pirUnderDesk == old(pirUnderDesk) && position == old(position)
      ensures !pirUnderDesk || old(tween).Some? ==> unchanged(this)
      ensures pirUnderDesk && old(tween).None? ==>
                var spot := UnderDesk(deskPirFound.value.pirPosition);
                if SqDist(position, spot) > 0.01 then tween == Some(Crawl(spot)) && playing == old(playing) + {Crawling}
                else tween.None? && playing == old(playing)
      ensures Moves() == Settled(old(Moves()), position, deskPirFound)
    {
      if !pirUnderDesk || tween.Some? {
        return;
      }
      var spot := UnderDesk(deskPirFound.value.pirPosition);
      if SqDist(position, spot) > 0.01 {
        playing := playing + {Crawling};
        tween := Some(Crawl(spot));
      }
    }

    /** `tick`: walk on, then settle under the desk. */
    method Tick(cellPosition: Coords -> Vector3)
      requires Valid()
      modifies this
      ensures Valid()
      ensures path == old(path) && deskPirFound == old(deskPirFound) && alerted == old(alerted) && position == old(position)
      ensures Moves() == Settled(Walked(old(Moves()), deskPirFound.Some?, cellPosition), position, deskPirFound)
    {
      WalkToDesk(cellPosition);
      UpdatePositionUnderDesk();
    }

    /**
     * A tween finishing: the person reaches its target; a finished step
     * walks on to the next cell, a finished crawl stops the crawl clip only.
     */
    method CompleteTween(cellPosition: Coords -> Vector3)
      requires tween.Some?
      requires Valid()
      ensures Valid()
      modifies this
      ensures position == old(tween).value.target
      ensures path == old(path) && deskPirFound == old(deskPirFound) && alerted == old(alerted)
      ensures old(tween).value.Crawl? ==>
                tween.None? && playing == old(playing) - {Crawling} && clonedPath == old(clonedPath) && pirUnderDesk == old(pirUnderDesk)
      ensures old(tween).value.Walk? && old(clonedPath).Some? && old(clonedPath).value != [] && old(deskPirFound).Some? && !old(pirUnderDesk) ==>
                clonedPath == Some(old(clonedPath).value[1..]) && tween == Some(Walk(StepTarget(cellPosition, old(clonedPath).value[0]))) &&
                !pirUnderDesk
      ensures old(tween).value.Walk? && old(clonedPath) == Some([]) && old(deskPirFound).Some? && !old(pirUnderDesk) ==>
                pirUnderDesk && tween.None? && playing == {Laying} && clonedPath == old(clonedPath)
      ensures old(tween).value.Walk? ==> Moves() == Walked(old(Moves()).(tween := None), deskPirFound.Some?, cellPosition)
    {
      position := tween.value.target;
      if tween.value.Crawl? {
        playing := playing - {Crawling};
        tween := None;
      } else {
        tween := None;
        WalkToDesk(cellPosition);
      }
    }

    /**
     * `reset`: forgets the path, the alert and the desk, frees the desk and
     * goes back to idle at the given position. The claimed desk is read
     * unguarded, so the source only calls it after a claim.
     */
    method Reset(newPosition: Vector3)
      requires deskPirFound.Some?
      modifies this, deskPirFound.value
      ensures Valid()
      ensures path.None? && !alerted && !pirUnderDesk && deskPirFound.None? && tween.None?
      ensures position == newPosition && playing == {Idle} && clonedPath == old(clonedPath)
      ensures !old(deskPirFound).value.isOccupied
    {
      path := None;
      alerted := false;
      pirUnderDesk := false;
      var desk := deskPirFound.value;
      if desk.isOccupied {
        desk.isOccupied := false;
      }
      deskPirFound := None;
      tween := None;
      position := newPosition;
      playing := {};
      playing := playing + {Idle};
    }
  }

  /**
   * Walking a path of n cells: each finished step takes the next cell, so
   * after n steps the person stands on the last cell and one more tick of
   * the walk puts it under the desk.
   */
  method WalkWholePath(p: ThreedPersonComponent, cellPosition: Coords -> Vector3)
    requires p.Valid() && p.clonedPath.Some? && p.clonedPath.value != [] && p.deskPirFound.Some? && !p.pirUnderDesk && p.tween.None?
    modifies p
    ensures p.pirUnderDesk && p.playing == {Laying} && p.tween.None? && p.clonedPath == Some([])
    ensures p.position == StepTarget(cellPosition, old(p.clonedPath.value[|p.clonedPath.value| - 1]))
    ensures p.path == old(p.path)
  {
    var cells := p.clonedPath.value;
    p.WalkToDesk(cellPosition);
    var n := 1;
    while p.tween.Some?
      invariant 1 <= n <= |cells|
      invariant p.Valid()
      invariant p.deskPirFound == old(p.deskPirFound) && p.path == old(p.path) && !p.pirUnderDesk
      invariant p.clonedPath == Some(cells[n..])
      invariant p.tween == Some(Walk(StepTarget(cellPosition, cells[n - 1])))
      decreases |cells| - n
    {
      p.CompleteTween(cellPosition);
      if n < |cells| {
        n := n + 1;
      } else {
        assert p.pirUnderDesk;
        break;
      }
    }
  }
}
