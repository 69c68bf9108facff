/** The active-section rule of the page root (src/App.tsx): on every scroll
    event every `section[id]` element is compared with the scroll offset and
    the last one in document order whose shifted range contains the offset
    becomes the active section; when none does, the previous value stays. */
module ActiveSection {
  import opened Wrappers

  /** The active id before the first evaluation. */
  const InitialActive: string := "hero"

  /** A section counts as in view this many pixels before its top edge
      reaches the top of the viewport. */
  const Lookahead: int := 100

  /** One `section[id]` element as read from the layout on a scroll event:
      its `id` attribute (absent is `None`), `offsetTop` and `clientHeight`. */
  datatype Section = Section(idAttr: Option<string>, offsetTop: int, clientHeight: nat)

  /** The id reported for a section; a missing attribute reads as "". */
  function SectionId(s: Section): string
  {
    match s.idAttr
    case Some(v) => v
    case None => ""
  }

  /** The half-open range [offsetTop - 100, offsetTop - 100 + clientHeight)
      contains the scroll offset. */
  predicate InView(s: Section, scrollY: real)
  {
    var top := s.offsetTop - Lookahead;
    top as real <= scrollY && scrollY < (top + s.clientHeight) as real
  }

  /** Section `i` is in view and no later section is. */
  predicate IsLastInView(sections: seq<Section>, scrollY: real, i: int)
  {
    && 0 <= i < |sections|
    && InView(sections[i], scrollY)
    && forall j :: i < j < |sections| ==> !InView(sections[j], scrollY)
  }

  predicate NoneInView(sections: seq<Section>, scrollY: real)
  {
    forall j :: 0 <= j < |sections| ==> !InView(sections[j], scrollY)
  }

  /** Reference definition of the new active id: look from the end of the
      list for the first section in view; keep `prev` when there is none. */
  function LastInView(scrollY: real, prev: string, sections: seq<Section>): (r: string)
    ensures NoneInView(sections, scrollY) ==> r == prev
    ensures forall i :: IsLastInView(sections, scrollY, i) ==> r == SectionId(sections[i])
    ensures r == prev || exists i :: 0 <= i < |sections| && r == SectionId(sections[i])
    decreases |sections|
  {
    if |sections| == 0 then prev
    else if InView(sections[|sections| - 1], scrollY) then SectionId(sections[|sections| - 1])
    else LastInView(scrollY, prev, sections[..|sections| - 1])
  }

  /** The scroll handler as written: a forward pass over the sections in
      document order that overwrites the active id on every match. */
  method HandleScroll(scrollY: real, prev: string, sections: seq<Section>) returns (active: string)
    ensures active == LastInView(scrollY, prev, sections)
  {
    active := prev;
    var i := 0;
    while i < |sections|
      invariant 0 <= i <= |sections|
      invariant active == LastInView(scrollY, prev, sections[..i])
    {
      if InView(sections[i], scrollY) {
        active := SectionId(sections[i]);
      }
      assert sections[..i + 1][..i] == sections[..i];
      i := i + 1;
    }
    assert sections[..|sections|] == sections;
  }

  /** The eager evaluation when the page root mounts. */
  function OnMount(scrollY: real, sections: seq<Section>): string
  {
    LastInView(scrollY, InitialActive, sections)
  }

  /** The match test is closed below and open above: a section contains the
      offset `offsetTop - 100` exactly when it has some height, and never
      contains `offsetTop - 100 + clientHeight`. */
  lemma InViewBoundaries(s: Section)
    ensures InView(s, (s.offsetTop - Lookahead) as real) <==> s.clientHeight > 0
    ensures !InView(s, (s.offsetTop - Lookahead + s.clientHeight) as real)
  {
  }

  /** A scroll offset exactly at `offsetTop - 100` of any section of positive
      height selects it when no later section is in view. */
  lemma LowerBoundInclusive(scrollY: real, prev: string, sections: seq<Section>, i: int)
    requires 0 <= i < |sections|
    requires sections[i].clientHeight > 0
    requires scrollY == (sections[i].offsetTop - Lookahead) as real
    requires forall j :: i < j < |sections| ==> !InView(sections[j], scrollY)
    ensures LastInView(scrollY, prev, sections) == SectionId(sections[i])
  {
  }

  /** A scroll offset exactly at `offsetTop - 100 + clientHeight` of any
      section never selects that section. */
  lemma UpperBoundExclusive(scrollY: real, prev: string, sections: seq<Section>, i: int)
    requires 0 <= i < |sections|
    requires scrollY == (sections[i].offsetTop - Lookahead + sections[i].clientHeight) as real
    ensures !InView(sections[i], scrollY)
    ensures !IsLastInView(sections, scrollY, i)
  {
  }

  /** A last section that is not in view plays no part. */
  lemma SkipLast(scrollY: real, prev: string, sections: seq<Section>)
    requires |sections| > 0 && !InView(sections[|sections| - 1], scrollY)
    ensures LastInView(scrollY, prev, sections) == LastInView(scrollY, prev, sections[..|sections| - 1])
  {
  }

  /** The sections that can ever be in view: those of positive height, in
      document order. */
  function WithHeight(sections: seq<Section>): (r: seq<Section>)
    ensures |r| <= |sections|
    ensures forall i :: 0 <= i < |r| ==> r[i].clientHeight > 0
    ensures forall s :: s in r ==> s in sections
    ensures forall s :: s in sections && s.clientHeight > 0 ==> s in r
    decreases |sections|
  {
    if |sections| == 0 then []
    else if sections[|sections| - 1].clientHeight == 0 then WithHeight(sections[..|sections| - 1])
    else WithHeight(sections[..|sections| - 1]) + [sections[|sections| - 1]]
  }

  /** A section of zero height never matches, so dropping every such
      section changes the outcome of no scroll evaluation. */
  lemma {:induction false} ZeroHeightIgnored(scrollY: real, prev: string, sections: seq<Section>)
    ensures LastInView(scrollY, prev, sections) == LastInView(scrollY, prev, WithHeight(sections))
    decreases |sections|
  {
    if |sections| > 0 {
      var n := |sections|;
      var last := sections[n - 1];
      ZeroHeightIgnored(scrollY, prev, sections[..n - 1]);
      if last.clientHeight == 0 {
        SkipLast(scrollY, prev, sections);
      } else {
        var w := WithHeight(sections[..n - 1]) + [last];
        assert w[..|w| - 1] == WithHeight(sections[..n - 1]);
        if !InView(last, scrollY) {
          SkipLast(scrollY, prev, sections);
          SkipLast(scrollY, prev, w);
        }
      }
    }
  }

  /** A section without an `id` attribute that is the last one in view makes
      the active id the empty string. The `section[id]` selector only returns
      elements that carry the attribute, so this case cannot arise on the
      page; the one that can, `id=""`, is `Some("")` and also yields "". */
  lemma MissingIdGivesEmpty(scrollY: real, prev: string, sections: seq<Section>, i: nat)
    requires IsLastInView(sections, scrollY, i)
    requires sections[i].idAttr.None?
    ensures LastInView(scrollY, prev, sections) == ""
  {
  }

  /** When some section is in view the previous value plays no part. */
  lemma {:induction false} MatchIgnoresPrevious(scrollY: real, prev1: string, prev2: string, sections: seq<Section>)
    requires !NoneInView(sections, scrollY)
    ensures LastInView(scrollY, prev1, sections) == LastInView(scrollY, prev2, sections)
    decreases |sections|
  {
    var n := |sections|;
    if !InView(sections[n - 1], scrollY) {
      var j :| 0 <= j < n && InView(sections[j], scrollY);
      assert sections[..n - 1][j] == sections[j];
      MatchIgnoresPrevious(scrollY, prev1, prev2, sections[..n - 1]);
    }
  }

  /** Re-evaluating at the same offset over the same layout changes nothing:
      a repeated scroll event is stable. */
  lemma RescanIsStable(scrollY: real, prev: string, sections: seq<Section>)
    ensures LastInView(scrollY, LastInView(scrollY, prev, sections), sections)
         == LastInView(scrollY, prev, sections)
  {
    if !NoneInView(sections, scrollY) {
      MatchIgnoresPrevious(scrollY, LastInView(scrollY, prev, sections), prev, sections);
    }
  }

  /** Before any section has matched, the page reports "hero". */
  lemma MountWithoutMatchKeepsHero(scrollY: real, sections: seq<Section>)
    requires NoneInView(sections, scrollY)
    ensures OnMount(scrollY, sections) == "hero"
  {
  }
}
