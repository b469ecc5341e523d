/** The image carousel of each product card in the frontend: a map from the
    card's position to the index of the image it shows, moved by the arrow
    buttons, the colour dots and horizontal swipes. */
module Gallery {
  import opened Js

  /** Horizontal distance, in pixels, a swipe must exceed to count. */
  const SWIPE_THRESHOLD: real := 30.0

  /** A product card as the carousel sees it: its image paths. A record
      without `images` behaves exactly like one with an empty list. */
  datatype Card = Card(images: seq<string>)

  /** The image index of card `idx`: `prev[idx] ?? 0`. It is a stored index
      or the default 0, and writing it back under `idx` changes the map at
      most by turning a missing entry into an explicit 0. */
  function Current(m: map<nat, int>, idx: nat): (c: int)
    ensures c in m.Values || c == 0
    ensures m[idx := c] == if idx in m then m else m[idx := 0]
  {
    if idx in m then m[idx] else 0
  }

  /** `items[idx]?.images?.length || 1`: the image count, or 1 when the card
      or its images are missing or empty. */
  function ImageCount(items: seq<Card>, idx: nat): (n: nat)
    ensures n >= 1
    ensures idx < |items| && items[idx].images != [] ==> n == |items[idx].images|
  {
    if idx < |items| && items[idx].images != [] then |items[idx].images| else 1
  }

  /** The state update of `handleNext`: `{...prev, [idx]: (current + 1) % n}`. */
  function AfterNext(prev: map<nat, int>, items: seq<Card>, idx: nat): (m: map<nat, int>)
    ensures m.Keys == prev.Keys + {idx}
    ensures forall k :: k in prev && k != idx ==> m[k] == prev[k]
    ensures Current(prev, idx) >= 0 ==> 0 <= m[idx] < ImageCount(items, idx)
    ensures 0 <= Current(prev, idx) < ImageCount(items, idx) - 1 ==> m[idx] == Current(prev, idx) + 1
    ensures Current(prev, idx) == ImageCount(items, idx) - 1 ==> m[idx] == 0
  {
    var n := ImageCount(items, idx);
    RemInRange(Current(prev, idx) + 1, n);
    prev[idx := Rem(Current(prev, idx) + 1, n)]
  }

  /** The state update of `handlePrev`: `{...prev, [idx]: (current - 1 + n) % n}`. */
  function AfterPrev(prev: map<nat, int>, items: seq<Card>, idx: nat): (m: map<nat, int>)
    ensures m.Keys == prev.Keys + {idx}
    ensures forall k :: k in prev && k != idx ==> m[k] == prev[k]
    ensures Current(prev, idx) >= 0 ==> 0 <= m[idx] < ImageCount(items, idx)
    ensures 0 < Current(prev, idx) <= ImageCount(items, idx) ==> m[idx] == Current(prev, idx) - 1
    ensures Current(prev, idx) == 0 ==> m[idx] == ImageCount(items, idx) - 1
  {
    var n := ImageCount(items, idx);
    RemInRange(Current(prev, idx) - 1 + n, n);
    prev[idx := Rem(Current(prev, idx) - 1 + n, n)]
  }

  /** The state update of `handlePickColor`: `{...prev, [idx]: imageIndex}`. */
  function AfterPick(prev: map<nat, int>, idx: nat, imageIndex: int): (m: map<nat, int>)
    ensures m.Keys == prev.Keys + {idx}
    ensures forall k :: k in prev && k != idx ==> m[k] == prev[k]
    ensures Current(m, idx) == imageIndex
  {
    prev[idx := imageIndex]
  }

  /** Stepping back after stepping forward restores the index. */
  lemma PrevUndoesNext(m: map<nat, int>, items: seq<Card>, idx: nat)
    requires 0 <= Current(m, idx) < ImageCount(items, idx)
    ensures AfterPrev(AfterNext(m, items, idx), items, idx) == m[idx := Current(m, idx)]
  {
    var n := ImageCount(items, idx);
    var c := Current(m, idx);
    var m1 := AfterNext(m, items, idx);
    assert Current(m1, idx) == (if c == n - 1 then 0 else c + 1);
    var m2 := AfterPrev(m1, items, idx);
    assert m2[idx] == c;
  }

  /** Stepping forward after stepping back restores the index. */
  lemma NextUndoesPrev(m: map<nat, int>, items: seq<Card>, idx: nat)
    requires 0 <= Current(m, idx) < ImageCount(items, idx)
    ensures AfterNext(AfterPrev(m, items, idx), items, idx) == m[idx := Current(m, idx)]
  {
    var n := ImageCount(items, idx);
    var c := Current(m, idx);
    var m1 := AfterPrev(m, items, idx);
    assert Current(m1, idx) == (if c == 0 then n - 1 else c - 1);
    var m2 := AfterNext(m1, items, idx);
    assert m2[idx] == c;
  }

  /** The direction a horizontal swipe of `delta` pixels selects. */
  datatype Swipe = ToPrev | ToNext | Ignored

  /** A right swipe beyond the threshold goes back, a left swipe beyond it
      goes forward, anything shorter does nothing. */
  function Classify(delta: real): (s: Swipe)
    ensures s == ToPrev <==> delta > SWIPE_THRESHOLD
    ensures s == ToNext <==> delta < -SWIPE_THRESHOLD
    ensures s == Ignored <==> -SWIPE_THRESHOLD <= delta <= SWIPE_THRESHOLD
  {
    if delta > SWIPE_THRESHOLD then ToPrev
    else if delta < -SWIPE_THRESHOLD then ToNext
    else Ignored
  }

  /** The image shown for a card: `images[activeIndex] || images[0]`. An
      index out of range, or an empty path, falls back to the first image;
      a card without images shows nothing. */
  function ShownImage(images: seq<string>, activeIndex: int): (r: Option<string>)
    ensures r.Some? <==> images != []
    ensures r.Some? ==> r.value in images
    ensures 0 <= activeIndex < |images| && images[activeIndex] != "" ==> r == Some(images[activeIndex])
    ensures !(0 <= activeIndex < |images| && images[activeIndex] != "") && images != [] ==> r == Some(images[0])
  {
    if 0 <= activeIndex < |images| && images[activeIndex] != "" then Some(images[activeIndex])
    else if images != [] then Some(images[0])
    else None
  }

  /** Whatever the arrows did, a card with images always shows one of its
      own images, and the one at the stored index when that path is set. */
  lemma ArrowsShowOwnImage(m: map<nat, int>, items: seq<Card>, idx: nat, forward: bool)
    requires idx < |items| && items[idx].images != [] && Current(m, idx) >= 0
    ensures var m' := if forward then AfterNext(m, items, idx) else AfterPrev(m, items, idx);
            0 <= m'[idx] < |items[idx].images| &&
            (items[idx].images[m'[idx]] != "" ==> ShownImage(items[idx].images, Current(m', idx)) == Some(items[idx].images[m'[idx]]))
  {
  }

  /** The component's carousel state: the cards last received, the image
      index per card, and the x coordinate where the current touch began. */
  class Carousel {
    var items: seq<Card>
    var activeImageIndexByProduct: map<nat, int>
    var touchStartX: Option<real>

    /** `useState([])`, `useState({})`, `useState(null)`. */
    constructor ()
      ensures items == [] && activeImageIndexByProduct == map[] && touchStartX == None
    {
      items := [];
      activeImageIndexByProduct := map[];
      touchStartX := None;
    }

    /** `setItems(items || [])` after a search: the index map is kept, so
        indices stored for the old cards may exceed the new image counts. */
    method SetItems(received: seq<Card>)
      modifies this
      ensures items == received
      ensures activeImageIndexByProduct == old(activeImageIndexByProduct) && touchStartX == old(touchStartX)
    {
      items := received;
    }

    /** `handlePrev(idx)`: hands the `AfterPrev` updater to the state setter. */
    method HandlePrev(idx: nat)
      modifies this
      ensures activeImageIndexByProduct == AfterPrev(old(activeImageIndexByProduct), items, idx)
      ensures items == old(items) && touchStartX == old(touchStartX)
    {
      activeImageIndexByProduct := AfterPrev(activeImageIndexByProduct, items, idx);
    }

    /** `handleNext(idx)`: hands the `AfterNext` updater to the state setter. */
    method HandleNext(idx: nat)
      modifies this
      ensures activeImageIndexByProduct == AfterNext(old(activeImageIndexByProduct), items, idx)
      ensures items == old(items) && touchStartX == old(touchStartX)
    {
      activeImageIndexByProduct := AfterNext(activeImageIndexByProduct, items, idx);
    }

    /** `handlePickColor(idx, imageIndex)`: hands the `AfterPick` updater to
        the state setter. */
    method HandlePickColor(idx: nat, imageIndex: int)
      modifies this
      ensures activeImageIndexByProduct == AfterPick(old(activeImageIndexByProduct), idx, imageIndex)
      ensures items == old(items) && touchStartX == old(touchStartX)
    {
      activeImageIndexByProduct := AfterPick(activeImageIndexByProduct, idx, imageIndex);
    }

    /** `onTouchStart`: record the first touch's x, or null without one. */
    method OnTouchStart(x: Option<real>)
      modifies this
      ensures touchStartX == x
      ensures items == old(items) && activeImageIndexByProduct == old(activeImageIndexByProduct)
    {
      touchStartX := x;
    }

    /** `onTouchEnd(idx)`: without a recorded start nothing happens;
        otherwise the swipe is classified, dispatched to `handlePrev` or
        `handleNext`, and the start is cleared. A missing end touch counts
        as ending where it began. */
    method OnTouchEnd(idx: nat, endX: Option<real>)
      modifies this
      ensures items == old(items)
      ensures old(touchStartX).None? ==> touchStartX == None && activeImageIndexByProduct == old(activeImageIndexByProduct)
      ensures old(touchStartX).Some? ==> touchStartX == None
      ensures old(touchStartX).Some? ==>
        var delta := (if endX.Some? then endX.value else old(touchStartX).value) - old(touchStartX).value;
        activeImageIndexByProduct ==
          match Classify(delta)
          case ToPrev => AfterPrev(old(activeImageIndexByProduct), items, idx)
          case ToNext => AfterNext(old(activeImageIndexByProduct), items, idx)
          case Ignored => old(activeImageIndexByProduct)
    {
      if touchStartX.None? {
        return;
      }
      var start := touchStartX.value;
      var end := if endX.Some? then endX.value else start;
      var delta := end - start;
      if delta > SWIPE_THRESHOLD {
        HandlePrev(idx);
      } else if delta < -SWIPE_THRESHOLD {
        HandleNext(idx);
      }
      touchStartX := None;
    }

    /** The image card `idx` shows: `activeImageIndexByProduct[idx] ?? 0`
        selects it, `images[activeIndex] || images[0]` falls back. */
    function ActiveImage(idx: nat): (r: Option<string>)
      reads this
      requires idx < |items|
      ensures r.Some? <==> items[idx].images != []
      ensures r.Some? ==> r.value in items[idx].images
    {
      ShownImage(items[idx].images, Current(activeImageIndexByProduct, idx))
    }
  }
}
