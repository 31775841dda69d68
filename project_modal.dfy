/** The image carousel of the project detail modal (components/ProjectModal.tsx):
    `currentImageIndex` and its `nextImage` / `prevImage` updates. */
module ProjectModal {
  import opened Wrappers
  import opened Types

  /** `project.images || []`: a missing image list reads as empty. */
  function Images(images: Option<seq<ProjectImage>>): (r: seq<ProjectImage>)
    ensures images.Some? ==> r == images.value
    ensures images.None? ==> r == []
  {
    if images.Some? then images.value else []
  }

  /** JavaScript's `%`: the remainder truncates toward zero, so it takes the
      sign of the dividend (unlike Dafny's Euclidean `%`). */
  function JsRem(a: int, n: int): (r: int)
    requires n > 0
    ensures a >= 0 ==> 0 <= r < n
    ensures a < 0 ==> -n < r <= 0
  {
    if a >= 0 then a % n else -((-a) % n)
  }

  /** The index `nextImage` moves to; with no images it stays put. */
  function NextIndex(i: int, n: nat): (r: int)
    ensures n == 0 ==> r == i
    ensures n > 0 && 0 <= i < n ==> 0 <= r < n
    ensures n > 0 && 0 <= i < n ==> r == (if i == n - 1 then 0 else i + 1)
  {
    if n == 0 then i else JsRem(i + 1, n)
  }

  /** The index `prevImage` moves to; with no images it stays put. */
  function PrevIndex(i: int, n: nat): (r: int)
    ensures n == 0 ==> r == i
    ensures n > 0 && 0 <= i < n ==> 0 <= r < n
    ensures n > 0 && 0 <= i < n ==> r == (if i == 0 then n - 1 else i - 1)
  {
    if n == 0 then i else JsRem(i - 1 + n, n)
  }

  /** Going back after going forward, or forward after going back, restores
      the index. */
  lemma PrevUndoesNext(i: int, n: nat)
    requires 0 <= i < n
    ensures PrevIndex(NextIndex(i, n), n) == i
    ensures NextIndex(PrevIndex(i, n), n) == i
  {
  }

  /** `nextImage` pressed `k` times from index `i`. */
  function NextTimes(i: int, n: nat, k: nat): int {
    if k == 0 then i else NextIndex(NextTimes(i, n, k - 1), n)
  }

  /** Below the last image, `k` presses of `nextImage` move `k` positions
      forward without wrapping. */
  lemma {:induction false} NextTimesForward(i: int, n: nat, k: nat)
    requires 0 <= i && i + k < n
    ensures NextTimes(i, n, k) == i + k
  {
    if k > 0 {
      NextTimesForward(i, n, k - 1);
    }
  }

  /** Pressing `a` times and then `b` times is pressing `a + b` times. */
  lemma {:induction false} NextTimesCompose(i: int, n: nat, a: nat, b: nat)
    ensures NextTimes(i, n, a + b) == NextTimes(NextTimes(i, n, a), n, b)
  {
    if b > 0 {
      NextTimesCompose(i, n, a, b - 1);
    }
  }

  /** As many `nextImage` presses as there are images return to the start. */
  lemma FullTurn(i: int, n: nat)
    requires 0 <= i < n
    ensures NextTimes(i, n, n) == i
  {
    NextTimesForward(i, n, n - 1 - i);
    NextTimesCompose(i, n, n - 1 - i, i + 1);
    NextTimesCompose(n - 1, n, 1, i);
    assert NextTimes(n - 1, n, 1) == 0;
    NextTimesForward(0, n, i);
  }

  /** The previous/next controls are rendered only with more than one image. */
  predicate ShowsNavigation(images: Option<seq<ProjectImage>>) {
    |Images(images)| > 1
  }

  /** The image area shows a picture (rather than the placeholder) only when
      there is at least one image. */
  predicate ShowsPicture(images: Option<seq<ProjectImage>>) {
    |Images(images)| > 0
  }

  /** With navigation on screen there is a picture to show. */
  lemma NavigationNeedsPicture(images: Option<seq<ProjectImage>>)
    requires ShowsNavigation(images)
    ensures ShowsPicture(images)
  {
  }

  /** The carousel state of one open modal. */
  class Carousel {
    const images: seq<ProjectImage>
    var index: int

    /** The state cell starts at the first image. */
    constructor (images: Option<seq<ProjectImage>>)
      ensures this.images == Images(images)
      ensures index == 0
    {
      this.images := Images(images);
      index := 0;
    }

    /** The index is a position of the image list (or 0 when it is empty). */
    predicate Valid()
      reads this
    {
      if |images| == 0 then index == 0 else 0 <= index < |images|
    }

    /** The image currently displayed. */
    function Current(): (r: ProjectImage)
      reads this
      requires Valid() && |images| > 0
      ensures r in images
    {
      images[index]
    }

    method Next()
      requires Valid()
      modifies this
      ensures Valid()
      ensures index == NextIndex(old(index), |images|)
    {
      if |images| == 0 {
        return;
      }
      index := JsRem(index + 1, |images|);
    }

    method Prev()
      requires Valid()
      modifies this
      ensures Valid()
      ensures index == PrevIndex(old(index), |images|)
    {
      if |images| == 0 {
        return;
      }
      index := JsRem(index - 1 + |images|, |images|);
    }
  }
}
