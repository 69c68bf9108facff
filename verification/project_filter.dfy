/** The category filter of the projects section (src/components/Projects.tsx):
    the selectable filter ids, the list shown for the active filter, and the
    rule that decides whether a project's links are rendered. */
module ProjectFilter {
  import opened Wrappers
  import opened ProjectData

  /** The filter selected when the section mounts. */
  const InitialFilter: string := "all"

  datatype FilterButton = FilterButton(id: string, caption: string)

  /** The buttons in display order. */
  const Filters: seq<FilterButton> := [
    FilterButton("all", "All Projects"),
    FilterButton("web", "Web"),
    FilterButton("mobile", "Mobile"),
    FilterButton("backend", "Backend")
  ]

  /** `a` is `b` with some elements dropped, the rest kept in order. */
  predicate IsSubsequence<T(==)>(a: seq<T>, b: seq<T>)
    decreases |b|
  {
    if |a| == 0 then true
    else if |b| == 0 then false
    else (a[0] == b[0] && IsSubsequence(a[1..], b[1..])) || IsSubsequence(a, b[1..])
  }

  predicate HasCategory(p: Project, name: string)
  {
    CategoryName(p.category) == name
  }

  /** How many entries of `ps` fall in the category called `name`. */
  function CountIn(ps: seq<Project>, name: string): nat
    decreases |ps|
  {
    if |ps| == 0 then 0
    else (if HasCategory(ps[0], name) then 1 else 0) + CountIn(ps[1..], name)
  }

  /** `Array.prototype.filter` with `project.category === name`. */
  function ByCategory(ps: seq<Project>, name: string): (r: seq<Project>)
    ensures forall i :: 0 <= i < |r| ==> HasCategory(r[i], name)
    ensures |r| == CountIn(ps, name)
    decreases |ps|
  {
    if |ps| == 0 then []
    else if HasCategory(ps[0], name) then [ps[0]] + ByCategory(ps[1..], name)
    else ByCategory(ps[1..], name)
  }

  /** The projects shown for the active filter id. */
  function FilteredProjects(activeFilter: string, ps: seq<Project>): (r: seq<Project>)
    ensures activeFilter == "all" ==> r == ps
    ensures activeFilter != "all" ==> forall p :: p in r ==> HasCategory(p, activeFilter)
    ensures activeFilter != "all" ==> forall p :: p in ps && HasCategory(p, activeFilter) ==> p in r
  {
    if activeFilter == "all" then ps
    else (ByCategoryComplete(ps, activeFilter); ByCategory(ps, activeFilter))
  }

  /** Every entry of the category survives the filter. */
  lemma {:induction false} ByCategoryComplete(ps: seq<Project>, name: string)
    ensures forall i :: 0 <= i < |ps| && HasCategory(ps[i], name) ==> ps[i] in ByCategory(ps, name)
    decreases |ps|
  {
    if |ps| > 0 {
      ByCategoryComplete(ps[1..], name);
      forall i | 0 < i < |ps| && HasCategory(ps[i], name)
        ensures ps[i] in ByCategory(ps, name)
      {
        assert ps[1..][i - 1] == ps[i];
      }
    }
  }

  /** Whatever the filter, the list shown is an order-preserving
      subsequence of the full list, and so no longer than it. */
  lemma FilterPreservesOrder(activeFilter: string, ps: seq<Project>)
    ensures IsSubsequence(FilteredProjects(activeFilter, ps), ps)
    ensures |FilteredProjects(activeFilter, ps)| <= |ps|
  {
    if activeFilter == "all" {
      SubsequenceOfSelf(ps);
    } else {
      ByCategoryIsSubsequence(ps, activeFilter);
      SubsequenceLength(ByCategory(ps, activeFilter), ps);
    }
  }

  /** A link is rendered when its URL is present and not the empty string:
      JavaScript treats both `undefined` and "" as false. */
  predicate ShowLink(url: Option<string>)
  {
    url.Some? && url.value != ""
  }

  lemma {:induction false} SubsequenceOfSelf<T>(s: seq<T>)
    ensures IsSubsequence(s, s)
    decreases |s|
  {
    if |s| > 0 {
      SubsequenceOfSelf(s[1..]);
    }
  }

  lemma {:induction false} SubsequenceLength<T>(a: seq<T>, b: seq<T>)
    requires IsSubsequence(a, b)
    ensures |a| <= |b|
    decreases |b|
  {
    if |a| > 0 {
      if a[0] == b[0] && IsSubsequence(a[1..], b[1..]) {
        SubsequenceLength(a[1..], b[1..]);
      } else {
        SubsequenceLength(a, b[1..]);
      }
    }
  }

  /** The filter keeps its survivors in their original relative order. */
  lemma {:induction false} ByCategoryIsSubsequence(ps: seq<Project>, name: string)
    ensures IsSubsequence(ByCategory(ps, name), ps)
    decreases |ps|
  {
    if |ps| > 0 {
      ByCategoryIsSubsequence(ps[1..], name);
      var r := ByCategory(ps, name);
      if HasCategory(ps[0], name) {
        assert r[0] == ps[0];
        assert r[1..] == ByCategory(ps[1..], name);
      }
    }
  }

  /** Filtering a second time by the same category changes nothing. */
  lemma {:induction false} ByCategoryIdempotent(ps: seq<Project>, name: string)
    ensures ByCategory(ByCategory(ps, name), name) == ByCategory(ps, name)
    decreases |ps|
  {
    if |ps| > 0 {
      ByCategoryIdempotent(ps[1..], name);
      if HasCategory(ps[0], name) {
        var r := ByCategory(ps, name);
        assert r[0] == ps[0];
        assert r[1..] == ByCategory(ps[1..], name);
      }
    }
  }

  /** Selecting the same filter again shows the same list. */
  lemma FilterIdempotent(activeFilter: string, ps: seq<Project>)
    ensures FilteredProjects(activeFilter, FilteredProjects(activeFilter, ps))
         == FilteredProjects(activeFilter, ps)
  {
    if activeFilter != "all" {
      ByCategoryIdempotent(ps, activeFilter);
    }
  }

  /** Every project falls in exactly one of the three categories, so the
      three filtered lists together are as long as the full list. */
  lemma CategoriesPartition(ps: seq<Project>)
    ensures |FilteredProjects("web", ps)| + |FilteredProjects("mobile", ps)| + |FilteredProjects("backend", ps)| == |ps|
  {
    CountsPartition(ps);
  }

  lemma {:induction false} CountsPartition(ps: seq<Project>)
    ensures CountIn(ps, "web") + CountIn(ps, "mobile") + CountIn(ps, "backend") == |ps|
    decreases |ps|
  {
    if |ps| > 0 {
      CountsPartition(ps[1..]);
    }
  }

  /** The selectable filter ids are "all" and the three category names. */
  lemma FilterIds()
    ensures InitialFilter == Filters[0].id
    ensures (set b | b in Filters :: b.id) == {"all", "web", "mobile", "backend"}
    ensures forall c: Category :: exists b :: b in Filters && b.id == CategoryName(c)
  {
    assert Filters[1].id == CategoryName(Web);
    assert Filters[2].id == CategoryName(Mobile);
    assert Filters[3].id == CategoryName(Backend);
  }

  /** A list whose entries all have the category is kept whole. */
  lemma {:induction false} ByCategoryKeepsAll(ps: seq<Project>, name: string)
    requires forall i :: 0 <= i < |ps| ==> HasCategory(ps[i], name)
    ensures ByCategory(ps, name) == ps
    decreases |ps|
  {
    if |ps| > 0 {
      ByCategoryKeepsAll(ps[1..], name);
      assert [ps[0]] + ps[1..] == ps;
    }
  }

  /** A list with no entry of the category is filtered to nothing. */
  lemma {:induction false} ByCategoryDropsAll(ps: seq<Project>, name: string)
    requires forall i :: 0 <= i < |ps| ==> !HasCategory(ps[i], name)
    ensures ByCategory(ps, name) == []
    decreases |ps|
  {
    if |ps| > 0 {
      ByCategoryDropsAll(ps[1..], name);
    }
  }

  /** Filtering distributes over concatenation. */
  lemma {:induction false} ByCategoryAppend(a: seq<Project>, b: seq<Project>, name: string)
    ensures ByCategory(a + b, name) == ByCategory(a, name) + ByCategory(b, name)
    decreases |a|
  {
    if |a| == 0 {
      assert a + b == b;
    } else {
      var ab := a + b;
      assert ab[0] == a[0];
      assert ab[1..] == a[1..] + b;
      ByCategoryAppend(a[1..], b, name);
      var rest := ByCategory(a[1..], name) + ByCategory(b, name);
      if HasCategory(a[0], name) {
        assert ByCategory(ab, name) == [a[0]] + rest;
        assert ByCategory(a, name) == [a[0]] + ByCategory(a[1..], name);
      } else {
        assert ByCategory(ab, name) == rest;
        assert ByCategory(a, name) == ByCategory(a[1..], name);
      }
    }
  }

  /** Six web entries followed by two backend entries: the layout of the
      shipped list. */
  predicate WebThenBackend(ps: seq<Project>)
  {
    && |ps| == 8
    && (forall i :: 0 <= i < 6 ==> ps[i].category == Web)
    && (forall i :: 6 <= i < 8 ==> ps[i].category == Backend)
  }

  /** What each category filter yields on a list with that layout. */
  lemma WebThenBackendFilters(ps: seq<Project>)
    requires WebThenBackend(ps)
    ensures ByCategory(ps, "web") == ps[..6]
    ensures ByCategory(ps, "mobile") == []
    ensures ByCategory(ps, "backend") == ps[6..]
  {
    var front, back := ps[..6], ps[6..];
    assert front + back == ps;
    assert ByCategory(ps, "web") == ps[..6] by {
      ByCategoryAppend(front, back, "web");
      ByCategoryKeepsAll(front, "web");
      ByCategoryDropsAll(back, "web");
    }
    assert ByCategory(ps, "mobile") == [] by {
      ByCategoryAppend(front, back, "mobile");
      ByCategoryDropsAll(front, "mobile");
      ByCategoryDropsAll(back, "mobile");
    }
    assert ByCategory(ps, "backend") == ps[6..] by {
      ByCategoryAppend(front, back, "backend");
      ByCategoryDropsAll(front, "backend");
      ByCategoryKeepsAll(back, "backend");
    }
  }

  /** On the shipped list the web filter shows the first six entries in
      order, the mobile filter shows nothing, and the backend filter shows
      "Quiz System" and then "Rent a Car System". (Every filter id other
      than "all" filters with `ByCategory`.) */
  lemma ShippedFilters()
    ensures ByCategory(ProjectsData, "web") == ProjectsData[..6]
    ensures ByCategory(ProjectsData, "mobile") == []
    ensures ByCategory(ProjectsData, "backend") == ProjectsData[6..]
    ensures ProjectsData[6].title == "Quiz System" && ProjectsData[7].title == "Rent a Car System"
  {
    ShippedData();
    WebThenBackendFilters(ProjectsData);
  }

  /** Which shipped entries render a live-demo and a GitHub link. */
  lemma ShippedLinks()
    ensures forall i :: 0 <= i < |ProjectsData| ==> ShowLink(ProjectsData[i].githubUrl) == (i != 4)
    ensures forall i :: 0 <= i < |ProjectsData| ==> ShowLink(ProjectsData[i].liveUrl) == (i in {0, 2, 3, 4})
  {
  }
}
