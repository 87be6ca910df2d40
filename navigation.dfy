/** Sticky navigation and scroll-spy (js/main.js, section 2) and the
    smooth-scroll anchor offset (section 4). */
module Navigation {
  import opened Common

  /** Scroll offset past which the navbar carries the `scrolled` class. */
  const ScrolledThreshold := 50
  /** Distance below the viewport top at which the current section is probed. */
  const SpyOffset := 100

  /** The navbar's `scrolled` flag after a scroll event: it no longer
      depends on the flag it had before. */
  function ScrolledAfter(wasScrolled: bool, scrollY: int): (scrolled: bool)
    ensures scrolled <==> scrollY > ScrolledThreshold
  {
    scrollY > ScrolledThreshold
  }

  /** Handling the same scroll offset twice is the same as handling it once. */
  lemma ScrolledIdempotent(wasScrolled: bool, scrollY: int)
    ensures ScrolledAfter(ScrolledAfter(wasScrolled, scrollY), scrollY) == ScrolledAfter(wasScrolled, scrollY)
  {
  }

  /** A `section[id]` element: its id, `offsetTop` and `offsetHeight`. */
  datatype Section = Section(id: string, top: int, height: int)

  /** The half-open range [top, top + height) of a section holds `pos`. */
  predicate Covers(s: Section, pos: int)
  {
    s.top <= pos < s.top + s.height
  }

  /** The last section in document order whose range holds `pos`. */
  function LastCovering(sections: seq<Section>, pos: int): (r: Option<nat>)
    ensures r.Some? ==> r.value < |sections| && Covers(sections[r.value], pos)
    ensures r.Some? ==> forall j :: r.value < j < |sections| ==> !Covers(sections[j], pos)
    ensures r.None? <==> forall j :: 0 <= j < |sections| ==> !Covers(sections[j], pos)
    decreases |sections|
  {
    if sections == [] then None
    else if Covers(sections[|sections| - 1], pos) then Some(|sections| - 1)
    else LastCovering(sections[..|sections| - 1], pos)
  }

  /** The link flags after every link is cleared and those pointing at
      `#id` are set. */
  function LinkFlagsFor(hrefs: seq<string>, id: string): (flags: seq<bool>)
    ensures |flags| == |hrefs|
    ensures forall j :: 0 <= j < |hrefs| ==> (flags[j] <==> hrefs[j] == "#" + id)
  {
    seq(|hrefs|, j requires 0 <= j < |hrefs| => hrefs[j] == "#" + id)
  }

  /** The link flags once every section has been examined: each covering
      section rewrites all flags, so the last one decides; no covering
      section leaves them as they were. */
  function SpyFlags(sections: seq<Section>, pos: int, hrefs: seq<string>, active: seq<bool>): (flags: seq<bool>)
    requires |active| == |hrefs|
    ensures |flags| == |hrefs|
  {
    match LastCovering(sections, pos)
    case None => active
    case Some(k) => LinkFlagsFor(hrefs, sections[k].id)
  }

  /** When section k holds the probe point and no later section does, exactly
      the links to `#id` of section k are active afterwards. */
  lemma SpyActivatesLastCovering(sections: seq<Section>, scrollY: int, hrefs: seq<string>, active: seq<bool>, k: nat)
    requires |active| == |hrefs|
    requires k < |sections| && Covers(sections[k], scrollY + SpyOffset)
    requires forall j :: k < j < |sections| ==> !Covers(sections[j], scrollY + SpyOffset)
    ensures forall j :: 0 <= j < |hrefs| ==>
      (SpyFlags(sections, scrollY + SpyOffset, hrefs, active)[j] <==> hrefs[j] == "#" + sections[k].id)
  {
  }

  /** When no section holds the probe point, no link flag changes. */
  lemma SpyNoCoverUnchanged(sections: seq<Section>, scrollY: int, hrefs: seq<string>, active: seq<bool>)
    requires |active| == |hrefs|
    requires forall j :: 0 <= j < |sections| ==> !Covers(sections[j], scrollY + SpyOffset)
    ensures SpyFlags(sections, scrollY + SpyOffset, hrefs, active) == active
  {
  }

  /** No two sections share a point of their ranges. */
  ghost predicate Disjoint(sections: seq<Section>)
  {
    forall i, j, pos :: 0 <= i < j < |sections| && Covers(sections[i], pos) ==> !Covers(sections[j], pos)
  }

  /** For disjoint sections the covering section is unique, so taking the
      last covering one is the same as taking the first. */
  lemma DisjointCoveringIsUnique(sections: seq<Section>, pos: int, k: nat)
    requires Disjoint(sections)
    requires k < |sections| && Covers(sections[k], pos)
    ensures LastCovering(sections, pos) == Some(k)
  {
  }

  /** Links with pairwise distinct targets. */
  predicate DistinctHrefs(hrefs: seq<string>)
  {
    forall i, j :: 0 <= i < j < |hrefs| ==> hrefs[i] != hrefs[j]
  }

  /** With distinct link targets, a covering section leaves at most one link
      active. */
  lemma SpyAtMostOneActive(sections: seq<Section>, pos: int, hrefs: seq<string>, active: seq<bool>, i: nat, j: nat)
    requires |active| == |hrefs| && DistinctHrefs(hrefs)
    requires LastCovering(sections, pos).Some?
    requires i < j < |hrefs|
    ensures !(SpyFlags(sections, pos, hrefs, active)[i] && SpyFlags(sections, pos, hrefs, active)[j])
  {
  }

  /** The offset a click on an in-page anchor asks `window.scrollTo` for:
      nothing when the target element is missing, otherwise the target's
      `offsetTop` less the navbar's height. */
  function AnchorScrollTarget(targetTop: Option<int>, navHeight: int): (top: Option<int>)
    ensures top.Some? <==> targetTop.Some?
    ensures top.Some? ==> top.value + navHeight == targetTop.value
  {
    match targetTop
    case None => None
    case Some(offsetTop) => Some(offsetTop - navHeight)
  }

  /** The navbar and its links: the targets are fixed, the flags change. */
  class NavBar {
    var scrolled: bool
    const hrefs: seq<string>
    var active: seq<bool>

    ghost predicate Valid()
      reads this
    {
      |active| == |hrefs|
    }

    /** The navbar as the markup leaves it: the `scrolled` class and the
        link flags are whatever the page was served with. */
    constructor (scrolled: bool, hrefs: seq<string>, active: seq<bool>)
      requires |active| == |hrefs|
      ensures Valid()
      ensures this.scrolled == scrolled && this.hrefs == hrefs && this.active == active
    {
      this.scrolled := scrolled;
      this.hrefs := hrefs;
      this.active := active;
    }

    /** The scroll listener: the threshold flag, then the active link. */
    method OnScroll(scrollY: int, sections: seq<Section>)
      requires Valid()
      modifies this
      ensures Valid()
      ensures scrolled == ScrolledAfter(old(scrolled), scrollY)
      ensures active == SpyFlags(sections, scrollY + SpyOffset, hrefs, old(active))
    {
      if scrollY > ScrolledThreshold {
        scrolled := true;
      } else {
        scrolled := false;
      }
      UpdateActiveNavLink(sections, scrollY);
    }

    method UpdateActiveNavLink(sections: seq<Section>, scrollY: int)
      requires Valid()
      modifies this`active
      ensures Valid()
      ensures active == SpyFlags(sections, scrollY + SpyOffset, hrefs, old(active))
    {
      var scrollPosition := scrollY + SpyOffset;
      var i := 0;
      while i < |sections|
        invariant 0 <= i <= |sections|
        invariant Valid()
        invariant active == SpyFlags(sections[..i], scrollPosition, hrefs, old(active))
      {
        var section := sections[i];
        if scrollPosition >= section.top && scrollPosition < section.top + section.height {
          ActivateLinksTo(section.id);
        }
        assert sections[..i + 1][..i] == sections[..i];
        i := i + 1;
      }
      assert sections[..|sections|] == sections;
    }

    /** The inner loop: clear each link, then set it if it points at `#id`. */
    method ActivateLinksTo(id: string)
      requires Valid()
      modifies this`active
      ensures Valid()
      ensures active == LinkFlagsFor(hrefs, id)
    {
      var j := 0;
      while j < |hrefs|
        invariant 0 <= j <= |hrefs|
        invariant Valid()
        invariant forall k :: 0 <= k < j ==> (active[k] <==> hrefs[k] == "#" + id)
      {
        active := active[j := false];
        if hrefs[j] == "#" + id {
          active := active[j := true];
        }
        j := j + 1;
      }
    }
  }
}
