/**
  What a reload of the pushed URL restores. The component writes the tag
  selection to the URL under the parameter `tags` (the state's own key,
  lines 101-108 of components/resources/resource-main.tsx) but reads the
  initial selection from the parameter `tag` (line 50) and overwrites any
  `tags` parameter (line 55), so reloading or sharing the URL drops the tags
  chosen since mount. ReloadDropsCheckedTag exhibits this on the query
  written as the code has it (Filters.UrlQuery); ReloadableUrlQuery writes the
  selection under `tag` instead, and ReloadRestoresView proves that a reload
  then shows the same filtered view and pushes the same URL again.
 */
module UrlReload {
  import opened CommaLists
  import opened Filters

  /**
    On a fresh page with no parameters, checking the tag "react" pushes
    `?tags=react`; mounting from that query selects no tag at all.
   */
  lemma ReloadDropsCheckedTag()
    ensures var s := TagsClicked(InitialFilters(map[]), true, "react");
      var reloaded := InitialFilters(UrlQuery(s));
      UrlQuery(s) == map[TAGS := "react"] && SelectedTags(s) == ["react"] && SelectedTags(reloaded) == []
  {
    var s0 := InitialFilters(map[]);
    assert SelectedTags(s0) == [];
    CheckTagAppends(s0, "react");
    var s := TagsClicked(s0, true, "react");
    SameLookups(UrlQuery(s), map[TAGS := "react"]);
    assert TAG_PARAM !in UrlQuery(s);
  }

  /**
    Mounting from `?category=DSA&tag=arrays,graphs` and unchecking "graphs"
    pushes `category=DSA&tag=arrays,graphs&tags=arrays`: the parsed `tag`
    entry stays in the state, so a reload selects "graphs" again.
   */
  lemma ReloadRestoresUncheckedTag()
    ensures var params := map[CATEGORY := "DSA", TAG_PARAM := "arrays,graphs"];
      var s := TagsClicked(InitialFilters(params), false, "graphs");
      && UrlQuery(s) == map[CATEGORY := "DSA", TAG_PARAM := "arrays,graphs", TAGS := "arrays"]
      && SelectedTags(s) == ["arrays"]
      && SelectedTags(InitialFilters(UrlQuery(s))) == ["arrays", "graphs"]
  {
    var params := map[CATEGORY := "DSA", TAG_PARAM := "arrays,graphs"];
    SplitArraysGraphs();
    var s0 := InitialFilters(params);
    assert SelectedTags(s0) == ["arrays", "graphs"];
    assert RemoveAll(["arrays", "graphs"], "graphs") == ["arrays"] by {
      assert ["arrays", "graphs"][1..] == ["graphs"];
      assert ["graphs"][1..] == [];
    }
    UncheckTagRemoves(s0, "graphs");
    var s := TagsClicked(s0, false, "graphs");
    assert Lookup(s, TAGS) == Some("arrays") by {
      SplitJoin(["arrays"]);
    }
    var expected := map[CATEGORY := "DSA", TAG_PARAM := "arrays,graphs", TAGS := "arrays"];
    forall k ensures Lookup(UrlQuery(s), k) == Lookup(expected, k) {
      if k != TAGS {
        assert Lookup(s, k) == Lookup(s0, k) == Lookup(params, k);
      }
    }
    SameLookups(UrlQuery(s), expected);
  }

  /** The tag parameter of the scenario above splits into its two tags. */
  lemma SplitArraysGraphs()
    ensures Split("arrays,graphs") == ["arrays", "graphs"]
  {
    var both := ["arrays", "graphs"];
    assert Join(both) == "arrays,graphs" by {
      assert both[1..] == ["graphs"];
    }
    assert AllNoComma(both);
    SplitJoin(both);
  }

  /**
    The URL query with the tag selection under `tag`, the parameter the
    component reads at mount: every other non-empty entry as before, no
    `tags` entry, and `tag` present exactly when tags are selected.
   */
  function ReloadableUrlQuery(tab: Filters): (r: map<string, string>)
    ensures TAGS !in r
    ensures Lookup(r, TAG_PARAM) == if Truthy(tab, TAGS) then Some(tab[TAGS]) else None
    ensures forall k :: k != TAGS && k != TAG_PARAM ==> Lookup(r, k) == Lookup(UrlQuery(tab), k)
  {
    var rest := UrlQuery(tab - {TAG_PARAM, TAGS});
    if Truthy(tab, TAGS) then rest[TAG_PARAM := tab[TAGS]] else rest
  }

  /** The API query depends only on the truthy values of the four filter fields. */
  lemma ApiParamsByFields(a: Filters, b: Filters)
    requires forall f :: Rank(f) < 4 ==> Lookup(UrlQuery(a), FieldOf(f)) == Lookup(UrlQuery(b), FieldOf(f))
    ensures ApiParams(a) == ApiParams(b)
  {
    assert FieldOf(TYPE_PARAM) == RESOURCE_TYPE && Rank(TYPE_PARAM) < 4;
    assert Rank(CATEGORY) < 4 && Rank(TAGS) < 4 && Rank(Q) < 4;
    assert ParamIfSet(a, TYPE_PARAM) == ParamIfSet(b, TYPE_PARAM);
    assert ParamIfSet(a, CATEGORY) == ParamIfSet(b, CATEGORY);
    assert ParamIfSet(a, TAGS) == ParamIfSet(b, TAGS);
    assert ParamIfSet(a, Q) == ParamIfSet(b, Q);
  }

  /** What mounting from the corrected query holds: each entry of the URL, and `tags` beside `tag`. */
  lemma ReloadedEntries(s: Filters)
    ensures var s' := InitialFilters(ReloadableUrlQuery(s));
      && Lookup(s', TAGS) == (if Truthy(s, TAGS) then Some(s[TAGS]) else None)
      && Lookup(s', TAG_PARAM) == Lookup(s', TAGS)
      && forall k :: k != TAGS && k != TAG_PARAM ==> Lookup(s', k) == Lookup(UrlQuery(s), k)
  {
  }

  /** With the corrected query, a reload selects the same tags. */
  lemma ReloadRestoresTags(s: Filters)
    ensures SelectedTags(InitialFilters(ReloadableUrlQuery(s))) == SelectedTags(s)
  {
    ReloadedEntries(s);
  }

  /** With the corrected query, a reload sends the same resources request. */
  lemma ReloadRestoresRequest(s: Filters)
    ensures ApiParams(InitialFilters(ReloadableUrlQuery(s))) == ApiParams(s)
  {
    var s' := InitialFilters(ReloadableUrlQuery(s));
    ReloadedEntries(s);
    forall f | Rank(f) < 4
      ensures Lookup(UrlQuery(s'), FieldOf(f)) == Lookup(UrlQuery(s), FieldOf(f))
    {
      assert FieldOf(f) != TAG_PARAM;
    }
    ApiParamsByFields(s', s);
  }

  /** With the corrected query, a reload shows the same heading. */
  lemma ReloadRestoresHeading(s: Filters)
    ensures Heading(InitialFilters(ReloadableUrlQuery(s))) == Heading(s)
  {
    var s' := InitialFilters(ReloadableUrlQuery(s));
    ReloadedEntries(s);
    assert CATEGORY != TAGS && CATEGORY != TAG_PARAM;
    assert Lookup(s', CATEGORY) == Lookup(UrlQuery(s), CATEGORY);
    assert Truthy(s', CATEGORY) == Truthy(s, CATEGORY);
  }

  /** With the corrected query, a reload pushes the same URL again. */
  lemma ReloadPushesSameUrl(s: Filters)
    ensures ReloadableUrlQuery(InitialFilters(ReloadableUrlQuery(s))) == ReloadableUrlQuery(s)
  {
    ReloadedEntries(s);
    SameLookups(ReloadableUrlQuery(InitialFilters(ReloadableUrlQuery(s))), ReloadableUrlQuery(s));
  }

  /**
    With the corrected query, mounting from the pushed URL restores the same
    selected tags, the same API query and the same heading, and pushes the
    same URL again.
   */
  lemma ReloadRestoresView(s: Filters)
    ensures SelectedTags(InitialFilters(ReloadableUrlQuery(s))) == SelectedTags(s)
    ensures ApiParams(InitialFilters(ReloadableUrlQuery(s))) == ApiParams(s)
    ensures Heading(InitialFilters(ReloadableUrlQuery(s))) == Heading(s)
    ensures ReloadableUrlQuery(InitialFilters(ReloadableUrlQuery(s))) == ReloadableUrlQuery(s)
  {
    ReloadRestoresTags(s);
    ReloadRestoresRequest(s);
    ReloadRestoresHeading(s);
    ReloadPushesSameUrl(s);
  }
}
