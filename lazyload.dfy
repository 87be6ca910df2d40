/** Lazy image loading (js/main.js, section 9): the source an image gets
    when it first enters the viewport. */
module LazyLoad {
  import opened Common

  /** `img.dataset.src || img.src`: the deferred source when it is truthy,
      otherwise the current one. */
  function LoadSource(dataSrc: Option<string>, src: string): (r: string)
    ensures Truthy(dataSrc) ==> Some(r) == dataSrc && r != ""
    ensures !Truthy(dataSrc) ==> r == src
  {
    if Truthy(dataSrc) then dataSrc.value else src
  }

  /** An observed image: its sources, the `loaded` class, and whether the
      observer still watches it. */
  datatype LazyImage = LazyImage(src: string, dataSrc: Option<string>, loaded: bool, observed: bool)

  /** One intersection entry for the image. Once handled the image is
      unobserved, so the observer delivers nothing for it any more. */
  function OnIntersection(img: LazyImage, isIntersecting: bool): (r: LazyImage)
    ensures !img.observed || !isIntersecting ==> r == img
    ensures img.observed && isIntersecting ==> r.loaded && !r.observed && r.src == LoadSource(img.dataSrc, img.src)
    ensures r.dataSrc == img.dataSrc
  {
    if img.observed && isIntersecting then
      img.(src := LoadSource(img.dataSrc, img.src), loaded := true, observed := false)
    else img
  }

  /** Loading is one-shot: after the image has been handled once, a later
      entry, intersecting or not, changes nothing. */
  lemma LoadIsOneShot(img: LazyImage, later: bool)
    ensures OnIntersection(OnIntersection(img, true), later) == OnIntersection(img, true)
  {
  }
}
