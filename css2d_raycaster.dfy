/**
 * `CSS2DRaycaster`: picks the HTML elements of CSS2D labels under the
 * scene manager's screen centre. Layout (`getBoundingClientRect`) and the
 * DOM query (`querySelectorAll`) belong to the browser: an element carries
 * its rectangle, and a label carries its descendants in document order with
 * the selector as a predicate.
 */
module Css2dRaycasting {
  /** A `DOMRect`: origin and signed size. */
  datatype DomRect = DomRect(x: real, y: real, width: real, height: real)
  {
    function Left(): real { if width < 0.0 then x + width else x }
    function Right(): real { if width < 0.0 then x else x + width }
    function Top(): real { if height < 0.0 then y + height else y }
    function Bottom(): real { if height < 0.0 then y else y + height }
  }

  datatype Point = Point(x: real, y: real)

  datatype Element = Element(id: nat, rect: DomRect)

  /** A scene object: a CSS2D label with the elements under its root, or anything else. */
  datatype Object3D = Css2dObject(descendants: seq<Element>) | OtherObject

  /** The rectangle of an element that is not laid out (for instance hidden). */
  predicate IsZeroRect(r: DomRect)
  {
    r.x == 0.0 && r.y == 0.0 && r.width == 0.0 && r.height == 0.0
  }

  predicate InsideClosed(p: Point, r: DomRect)
  {
    r.Left() <= p.x <= r.Right() && r.Top() <= p.y <= r.Bottom()
  }

  /** `intersectHtml`: an element is under the point unless it has no layout box. */
  predicate IntersectHtml(center: Point, e: Element)
  {
    !(e.rect.x == 0.0 && e.rect.y == 0.0 && e.rect.width == 0.0 && e.rect.height == 0.0) &&
    center.x >= e.rect.Left() && center.x <= e.rect.Right() && center.y >= e.rect.Top() && center.y <= e.rect.Bottom()
  }

  /**
   * A box without layout is never hit, not even by the origin it nominally
   * covers; any other box is hit exactly on its closed area.
   */
  lemma IntersectHtmlIsClosedArea(center: Point, e: Element)
    ensures IsZeroRect(e.rect) ==> !IntersectHtml(center, e)
    ensures !IsZeroRect(e.rect) ==> (IntersectHtml(center, e) <==> InsideClosed(center, e.rect))
    ensures IsZeroRect(e.rect) ==> InsideClosed(Point(0.0, 0.0), e.rect)
    ensures !IsZeroRect(e.rect) && e.rect.width >= 0.0 && e.rect.height >= 0.0 ==>
              IntersectHtml(Point(e.rect.x, e.rect.y), e) &&
              IntersectHtml(Point(e.rect.x + e.rect.width, e.rect.y + e.rect.height), e)
  {
  }

  /** The selected descendants under the point, in document order. */
  function HitsIn(elements: seq<Element>, selector: Element -> bool, center: Point): seq<Element>
  {
    if elements == [] then []
    else
      var e := elements[|elements| - 1];
      HitsIn(elements[..|elements| - 1], selector, center) + (if selector(e) && IntersectHtml(center, e) then [e] else [])
  }

  /** What `intersectObject` returns: nothing for an object that is not a CSS2D label. */
  function ObjectHits(o: Object3D, selector: Element -> bool, center: Point): seq<Element>
  {
    if o.Css2dObject? then HitsIn(o.descendants, selector, center) else []
  }

  /** What `intersectObjects` returns: the hits of each object, object after object. */
  function AllHits(objects: seq<Object3D>, selector: Element -> bool, center: Point): seq<Element>
  {
    if objects == [] then [] else AllHits(objects[..|objects| - 1], selector, center) + ObjectHits(objects[|objects| - 1], selector, center)
  }

  /** `elements` keeps the order of `of`: it is `of` with some elements dropped. */
  predicate SubsequenceOf(elements: seq<Element>, of: seq<Element>)
    decreases |of|
  {
    if elements == [] then true
    else if of == [] then false
    else (elements[|elements| - 1] == of[|of| - 1] && SubsequenceOf(elements[..|elements| - 1], of[..|of| - 1])) ||
         SubsequenceOf(elements, of[..|of| - 1])
  }

  /**
   * An element is a hit exactly when it is a selected descendant under the
   * point, and the hits keep document order.
   */
  lemma {:induction false} HitsInExactly(elements: seq<Element>, selector: Element -> bool, center: Point)
    decreases |elements|
    ensures forall e :: e in HitsIn(elements, selector, center) <==> e in elements && selector(e) && IntersectHtml(center, e)
    ensures SubsequenceOf(HitsIn(elements, selector, center), elements)
  {
    if elements != [] {
      var init := elements[..|elements| - 1];
      var e := elements[|elements| - 1];
      HitsInExactly(init, selector, center);
      assert elements == init + [e];
      var h := HitsIn(init, selector, center);
      if selector(e) && IntersectHtml(center, e) {
        assert (h + [e])[..|h + [e]| - 1] == h;
      } else {
        assert h + [] == h;
      }
    }
  }

  /** `o` is a CSS2D label with `e` as a selected descendant under the point. */
  predicate LabelHit(o: Object3D, selector: Element -> bool, center: Point, e: Element)
  {
    o.Css2dObject? && e in o.descendants && selector(e) && IntersectHtml(center, e)
  }

  /**
   * Over several objects an element is a hit exactly when some CSS2D label
   * among them has it as a selected descendant under the point.
   */
  lemma {:induction false} AllHitsExactly(objects: seq<Object3D>, selector: Element -> bool, center: Point)
    decreases |objects|
    ensures forall e :: e in AllHits(objects, selector, center) <==>
              exists k :: 0 <= k < |objects| && LabelHit(objects[k], selector, center, e)
  {
    if objects != [] {
      var init := objects[..|objects| - 1];
      var o := objects[|objects| - 1];
      AllHitsExactly(init, selector, center);
      if o.Css2dObject? {
        HitsInExactly(o.descendants, selector, center);
      }
      assert forall e :: e in ObjectHits(o, selector, center) <==> LabelHit(o, selector, center, e);
      forall e
        ensures e in AllHits(objects, selector, center) <==> exists k :: 0 <= k < |objects| && LabelHit(objects[k], selector, center, e)
      {
        assert e in AllHits(objects, selector, center) <==> e in AllHits(init, selector, center) || e in ObjectHits(o, selector, center);
        if exists k :: 0 <= k < |init| && LabelHit(init[k], selector, center, e) {
          var k :| 0 <= k < |init| && LabelHit(init[k], selector, center, e);
          assert objects[k] == init[k];
        }
        if exists k :: 0 <= k < |objects| && LabelHit(objects[k], selector, center, e) {
          var k :| 0 <= k < |objects| && LabelHit(objects[k], selector, center, e);
          if k < |init| {
            assert init[k] == objects[k];
          }
        }
      }
    }
  }

  /** Objects that are not CSS2D labels contribute nothing. */
  lemma OnlyLabelsHit(objects: seq<Object3D>, selector: Element -> bool, center: Point)
    requires forall k :: 0 <= k < |objects| ==> objects[k].OtherObject?
    ensures AllHits(objects, selector, center) == []
  {
    AllHitsExactly(objects, selector, center);
  }

  class Css2dRaycaster {
    /** The screen centre read at the last label test. */
    var cachedCenter: Point

    constructor()
      ensures cachedCenter == Point(0.0, 0.0)
    {
      cachedCenter := Point(0.0, 0.0);
    }

    /** `intersectObject`: a label caches the centre and tests each selected descendant in order. */
    method IntersectObject(o: Object3D, selector: Element -> bool, center: Point) returns (hits: seq<Element>)
      modifies this
      ensures hits == ObjectHits(o, selector, center)
      ensures cachedCenter == (if o.Css2dObject? then center else old(cachedCenter))
    {
      if !o.Css2dObject? {
        return [];
      }
      hits := [];
      cachedCenter := center;
      for i := 0 to |o.descendants|
        invariant hits == HitsIn(o.descendants[..i], selector, center)
        invariant cachedCenter == center
      {
        var e := o.descendants[i];
        assert o.descendants[..i + 1][..i] == o.descendants[..i];
        if selector(e) && IntersectHtml(cachedCenter, e) {
          hits := hits + [e];
        }
      }
      assert o.descendants[..|o.descendants|] == o.descendants;
    }

    /** `intersectObjects`: the hits of every object, appended in input order. */
    method IntersectObjects(objects: seq<Object3D>, selector: Element -> bool, center: Point) returns (intersects: seq<Element>)
      modifies this
      ensures intersects == AllHits(objects, selector, center)
      ensures (exists k :: 0 <= k < |objects| && objects[k].Css2dObject?) ==> cachedCenter == center
      ensures (forall k :: 0 <= k < |objects| ==> objects[k].OtherObject?) ==> cachedCenter == old(cachedCenter)
    {
      intersects := [];
      for i := 0 to |objects|
        invariant intersects == AllHits(objects[..i], selector, center)
        invariant (exists k :: 0 <= k < i && objects[k].Css2dObject?) ==> cachedCenter == center
        invariant (forall k :: 0 <= k < i ==> objects[k].OtherObject?) ==> cachedCenter == old(cachedCenter)
      {
        var hits := IntersectObject(objects[i], selector, center);
        assert objects[..i + 1][..i] == objects[..i];
        intersects := intersects + hits;
      }
      assert objects[..|objects|] == objects;
    }
  }
}
