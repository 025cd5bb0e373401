/** The media carousel: wrap-around navigation over a non-empty item list,
    the five-slot thumbnail window, and the modal's flags. The component
    indexes `mediaItems[currentIndex]` unguarded, so every operation here
    requires a non-empty list and an index inside it. */
module MediaGallery {
  import opened Wrappers
  import opened Records

  /** Number of thumbnails in the visible window. */
  const MaxVisible: nat := 5

  /** `handleNext`: the following index, back to 0 after the last. */
  function Next(i: int, n: int): (r: int)
    requires n >= 1 && 0 <= i < n
    ensures 0 <= r < n
    ensures r == (i + 1) % n
  {
    if i == n - 1 then 0 else i + 1
  }

  /** `handlePrevious`: the preceding index, the last one before 0. */
  function Previous(i: int, n: int): (r: int)
    requires n >= 1 && 0 <= i < n
    ensures 0 <= r < n
    ensures r == (i - 1) % n
  {
    if i == 0 then n - 1 else i - 1
  }

  /** Next and previous undo each other. */
  lemma NextPreviousInverse(i: int, n: int)
    requires n >= 1 && 0 <= i < n
    ensures Next(Previous(i, n), n) == i
    ensures Previous(Next(i, n), n) == i
  {
  }

  /** The index after `k` presses of "next". */
  function Advance(i: int, n: int, k: nat): (r: int)
    requires n >= 1 && 0 <= i < n
    ensures 0 <= r < n
    decreases k
  {
    if k == 0 then i else Next(Advance(i, n, k - 1), n)
  }

  lemma {:induction false} MulAtLeast(d: int, n: int)
    requires d >= 1 && n >= 1
    ensures d * n >= n
    decreases d
  {
    if d > 1 {
      MulAtLeast(d - 1, n);
      assert d * n == (d - 1) * n + n;
    }
  }

  /** Euclidean division is unique: a quotient and an in-range remainder
      that rebuild `a` are `a / n` and `a % n`. */
  lemma ModUnique(a: int, n: int, q: int, r: int)
    requires n >= 1 && 0 <= r < n && a == q * n + r
    ensures a % n == r && a / n == q
  {
    var q0, r0 := a / n, a % n;
    assert a == q0 * n + r0;
    assert (q - q0) * n == q * n - q0 * n;
    assert (q0 - q) * n == q0 * n - q * n;
    if q > q0 {
      MulAtLeast(q - q0, n);
    } else if q < q0 {
      MulAtLeast(q0 - q, n);
    }
  }

  lemma ModSucc(a: int, n: int)
    requires n >= 1
    ensures (a % n + 1) % n == (a + 1) % n
  {
    var q, m := a / n, a % n;
    assert a == q * n + m;
    if m + 1 < n {
      ModUnique(a + 1, n, q, m + 1);
      ModUnique(m + 1, n, 0, m + 1);
    } else {
      assert a + 1 == (q + 1) * n + 0;
      ModUnique(a + 1, n, q + 1, 0);
      ModUnique(m + 1, n, 1, 0);
    }
  }

  /** `k` presses of "next" move the index `k` places, modulo the list length. */
  lemma {:induction false} AdvanceIsModular(i: int, n: int, k: nat)
    requires n >= 1 && 0 <= i < n
    ensures Advance(i, n, k) == (i + k) % n
    decreases k
  {
    if k > 0 {
      AdvanceIsModular(i, n, k - 1);
      ModSucc(i + k - 1, n);
    }
  }

  /** `n` presses of "next" on an `n`-item list return to the start. */
  lemma FullCycle(i: int, n: int)
    requires n >= 1 && 0 <= i < n
    ensures Advance(i, n, n) == i
  {
    AdvanceIsModular(i, n, n);
    ModUnique(i + n, n, 1, i);
  }

  /** `visibleThumbnails`: five items starting at the current one, wrapping
      around and so repeating items when the list is shorter than five. */
  method VisibleThumbnails(items: seq<MediaItem>, index: int) returns (r: seq<MediaItem>)
    requires |items| >= 1 && 0 <= index < |items|
    ensures |r| == MaxVisible
    ensures forall k :: 0 <= k < MaxVisible ==> r[k] == items[(index + k) % |items|]
    ensures r[0] == items[index]
    ensures |items| < MaxVisible ==> r[|items|] == r[0]
  {
    r := [];
    var i := 0;
    while i < MaxVisible
      invariant 0 <= i <= MaxVisible
      invariant |r| == i
      invariant forall k :: 0 <= k < i ==> r[k] == items[(index + k) % |items|]
    {
      r := r + [items[(index + i) % |items|]];
      i := i + 1;
    }
    ModUnique(index, |items|, 0, index);
    if |items| < MaxVisible {
      ModUnique(index + |items|, |items|, 1, index);
    }
  }

  /** The carousel's state: the current index, whether the modal video is
      playing, and the item open in the modal. */
  datatype Gallery = Gallery(index: int, isPlaying: bool, selected: Option<MediaItem>)

  const InitialGallery: Gallery := Gallery(0, false, None)

  predicate Valid(g: Gallery, n: int) {
    0 <= g.index < n
  }

  /** The carousel opens on the first item with no modal, and going back
      from there wraps to the last item. */
  lemma InitialGalleryWraps(n: int)
    requires n >= 1
    ensures Valid(InitialGallery, n) && InitialGallery.selected.None? && !InitialGallery.isPlaying
    ensures HandlePrevious(InitialGallery, n).index == n - 1
  {
  }

  function HandleNext(g: Gallery, n: int): (g': Gallery)
    requires n >= 1 && Valid(g, n)
    ensures Valid(g', n) && g'.index == (g.index + 1) % n
    ensures g' == g.(index := g'.index)
  {
    g.(index := Next(g.index, n))
  }

  function HandlePrevious(g: Gallery, n: int): (g': Gallery)
    requires n >= 1 && Valid(g, n)
    ensures Valid(g', n) && g'.index == (g.index - 1) % n
    ensures g' == g.(index := g'.index)
  {
    g.(index := Previous(g.index, n))
  }

  /** `handleThumbnailClick(j)` with the index of a rendered thumbnail. */
  function ThumbnailClick(g: Gallery, n: int, j: int): (g': Gallery)
    requires Valid(g, n) && 0 <= j < n
    ensures Valid(g', n) && g'.index == j
    ensures g' == g.(index := g'.index)
  {
    g.(index := j)
  }

  /** `handleMediaClick`: open the modal on `m`; a video opens paused. */
  function MediaClick(g: Gallery, m: MediaItem): (g': Gallery)
    ensures g'.selected == Some(m) && g'.index == g.index
    ensures m.kind == Video ==> !g'.isPlaying
    ensures m.kind == Image ==> g'.isPlaying == g.isPlaying
  {
    if m.kind == Video then g.(selected := Some(m), isPlaying := false) else g.(selected := Some(m))
  }

  /** `handleCloseModal`: no selection and not playing. */
  function CloseModal(g: Gallery): (g': Gallery)
    ensures g'.selected.None? && !g'.isPlaying && g'.index == g.index
  {
    g.(selected := None, isPlaying := false)
  }

  /** `togglePlayPause`: flips the flag only when the video element exists. */
  function TogglePlayPause(g: Gallery, videoMounted: bool): (g': Gallery)
    ensures videoMounted ==> g'.isPlaying != g.isPlaying
    ensures !videoMounted ==> g' == g
    ensures g' == g.(isPlaying := g'.isPlaying)
  {
    if videoMounted then g.(isPlaying := !g.isPlaying) else g
  }

  /** Events of the modal's video element. */
  datatype VideoEvent = Played | Paused | Ended

  function OnVideoEvent(g: Gallery, ev: VideoEvent): (g': Gallery)
    ensures g'.isPlaying <==> ev == Played
    ensures g' == g.(isPlaying := g'.isPlaying)
  {
    g.(isPlaying := ev == Played)
  }
}
