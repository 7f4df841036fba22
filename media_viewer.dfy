/** The full-screen media viewer: wrap-around navigation, clamped zoom, deletion through the
    optional callback, and the position counter. Zoom is kept in half-units: the source's
    zoom z in {0.5, 1, ..., 3} is 2z here, an integer from 1 to 6. */
module MediaViewer {
  import opened Wrappers

  datatype MediaKind = Image | Video

  datatype MediaItem = MediaItem(id: string, kind: MediaKind)

  /** `prev < length - 1 ? prev + 1 : 0`. */
  function NextIndex(i: int, n: int): (r: int)
    requires 0 <= i < n
    ensures 0 <= r < n
    ensures r == (i + 1) % n
  {
    if i < n - 1 then i + 1 else 0
  }

  /** `prev > 0 ? prev - 1 : length - 1`. */
  function PrevIndex(i: int, n: int): (r: int)
    requires 0 <= i < n
    ensures 0 <= r < n
    ensures r == (i + n - 1) % n
  {
    if i > 0 then i - 1 else n - 1
  }

  /** Next and previous undo each other. */
  lemma NextPrevInverse(i: int, n: int)
    requires 0 <= i < n
    ensures PrevIndex(NextIndex(i, n), n) == i
    ensures NextIndex(PrevIndex(i, n), n) == i
  {
  }

  /** Zoom of one in half-units. */
  const ZoomReset: int := 2

  /** `Math.min(prev + 0.5, 3)`. */
  function ZoomIn(h: int): (r: int)
    requires 1 <= h <= 6
    ensures 1 <= r <= 6
    ensures r == if h < 6 then h + 1 else 6
  {
    if h + 1 < 6 then h + 1 else 6
  }

  /** `Math.max(prev - 0.5, 0.5)`. */
  function ZoomOut(h: int): (r: int)
    requires 1 <= h <= 6
    ensures 1 <= r <= 6
    ensures r == if h > 1 then h - 1 else 1
  {
    if h - 1 > 1 then h - 1 else 1
  }

  /** Zooming in and then out restores the zoom unless it was already at the maximum, and the
      other way round unless at the minimum. */
  lemma ZoomInOut(h: int)
    requires 1 <= h <= 6
    ensures h < 6 ==> ZoomOut(ZoomIn(h)) == h
    ensures h > 1 ==> ZoomIn(ZoomOut(h)) == h
  {
  }

  /** The zoom buttons are disabled at the ends of the range, exactly where pressing them would
      change nothing. */
  lemma ZoomButtonsDisabledAtLimits(h: int)
    requires 1 <= h <= 6
    ensures h >= 6 <==> ZoomIn(h) == h
    ensures h <= 1 <==> ZoomOut(h) == h
  {
  }

  /** `Math.round(zoom * 100)`: exact in half-units. */
  function ZoomPercent(h: int): (p: int)
    requires 1 <= h <= 6
    ensures p as real == (h as real / 2.0) * 100.0
    ensures 50 <= p <= 300 && p % 50 == 0
  {
    50 * h
  }

  class Viewer {
    const media: seq<MediaItem>
    var currentMediaIndex: int
    var zoom: int

    /** The list is non-empty, the index points into it and zoom stays in [0.5, 3]. */
    ghost predicate Valid()
      reads this
    {
      |media| >= 1 && 0 <= currentMediaIndex < |media| && 1 <= zoom <= 6
    }

    constructor (media: seq<MediaItem>, currentIndex: int)
      requires |media| >= 1 && 0 <= currentIndex < |media|
      ensures Valid() && this.media == media && currentMediaIndex == currentIndex && zoom == ZoomReset
    {
      this.media := media;
      currentMediaIndex, zoom := currentIndex, ZoomReset;
    }

    method Previous()
      requires Valid()
      modifies this`currentMediaIndex, this`zoom
      ensures Valid()
      ensures currentMediaIndex == PrevIndex(old(currentMediaIndex), |media|) && zoom == ZoomReset
    {
      currentMediaIndex := if currentMediaIndex > 0 then currentMediaIndex - 1 else |media| - 1;
      zoom := ZoomReset;
    }

    method Next()
      requires Valid()
      modifies this`currentMediaIndex, this`zoom
      ensures Valid()
      ensures currentMediaIndex == NextIndex(old(currentMediaIndex), |media|) && zoom == ZoomReset
    {
      currentMediaIndex := if currentMediaIndex < |media| - 1 then currentMediaIndex + 1 else 0;
      zoom := ZoomReset;
    }

    method ZoomInPressed()
      requires Valid()
      modifies this`zoom
      ensures Valid() && zoom == ZoomIn(old(zoom))
    {
      zoom := if zoom + 1 < 6 then zoom + 1 else 6;
    }

    method ZoomOutPressed()
      requires Valid()
      modifies this`zoom
      ensures Valid() && zoom == ZoomOut(old(zoom))
    {
      zoom := if zoom - 1 > 1 then zoom - 1 else 1;
    }

    /** `handleDelete`: without `onDelete` nothing happens; otherwise the current id is reported,
        then the viewer closes if it held one item and moves on to the next item if not. */
    method Delete(hasOnDelete: bool) returns (deleted: Option<string>, closed: bool)
      requires Valid()
      modifies this`currentMediaIndex, this`zoom
      ensures Valid()
      ensures !hasOnDelete ==>
        deleted == None && !closed && currentMediaIndex == old(currentMediaIndex) && zoom == old(zoom)
      ensures hasOnDelete ==> deleted == Some(media[old(currentMediaIndex)].id)
      ensures hasOnDelete && |media| == 1 ==> closed && currentMediaIndex == old(currentMediaIndex) && zoom == old(zoom)
      ensures hasOnDelete && |media| > 1 ==>
        !closed && currentMediaIndex == NextIndex(old(currentMediaIndex), |media|) && zoom == ZoomReset
    {
      deleted, closed := None, false;
      if hasOnDelete {
        deleted := Some(media[currentMediaIndex].id);
        if |media| == 1 {
          closed := true;
        } else {
          Next();
        }
      }
    }

    /** "i of n", shown only when there is more than one item. */
    function Counter(): (r: Option<(int, int)>)
      reads this
      requires Valid()
      ensures r.Some? <==> |media| > 1
      ensures r.Some? ==> r.value == (currentMediaIndex + 1, |media|)
      ensures r.Some? ==> 1 <= r.value.0 <= r.value.1
    {
      if |media| > 1 then Some((currentMediaIndex + 1, |media|)) else None
    }
  }
}
