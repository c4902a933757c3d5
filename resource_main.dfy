/**
  The `ResourceMain` listing component as an object: its one piece of
  mutable state is `tab`, the filter record, and each event handler replaces
  it through `setTab`. The pure projections over `tab` live in module Filters.
 */
module ResourceListing {
  import opened CommaLists
  import opened Filters

  class ResourceMain {
    /** The filter state the component holds in `useState`. */
    var tab: Filters

    /** Mounting: the state starts from the parsed URL parameters. */
    constructor (params: map<string, string>)
      ensures tab == InitialFilters(params)
      ensures Lookup(tab, TAGS) == Lookup(params, TAG_PARAM)
      ensures AgreeExcept(tab, params, TAGS)
    {
      tab := InitialFilters(params);
    }

    /** `updateFilters`: spread the updates over the current state. */
    method UpdateFilters(updates: Patch)
      modifies this
      ensures tab == Merge(old(tab), updates)
      ensures forall k :: k in updates ==> Lookup(tab, k) == updates[k]
      ensures forall k :: k !in updates ==> Lookup(tab, k) == Lookup(old(tab), k)
    {
      tab := Merge(tab, updates);
    }

    /** `clearAllTags`: `tags` becomes undefined, nothing else changes. */
    method ClearAllTags()
      modifies this
      ensures TAGS !in tab
      ensures AgreeExcept(tab, old(tab), TAGS)
    {
      UpdateFilters(map[TAGS := None]);
      assert tab == TagsCleared(old(tab));
    }

    /** A category button: `category` becomes the clicked name, nothing else changes. */
    method SelectCategory(name: string)
      modifies this
      ensures Lookup(tab, CATEGORY) == Some(name)
      ensures AgreeExcept(tab, old(tab), CATEGORY)
    {
      UpdateFilters(map[CATEGORY := Some(name)]);
      assert tab == CategorySet(old(tab), name);
    }

    /** The category Clear button: `category` becomes undefined, nothing else changes. */
    method ClearCategory()
      modifies this
      ensures CATEGORY !in tab
      ensures AgreeExcept(tab, old(tab), CATEGORY)
    {
      UpdateFilters(map[CATEGORY := None]);
      assert tab == CategoryCleared(old(tab));
    }

    /** A type tab: "all" unsets `resourceType`, any other type sets it; nothing else changes. */
    method SelectType(typeTab: string)
      modifies this
      ensures typeTab == ALL_TAB ==> RESOURCE_TYPE !in tab
      ensures typeTab != ALL_TAB ==> Lookup(tab, RESOURCE_TYPE) == Some(typeTab)
      ensures AgreeExcept(tab, old(tab), RESOURCE_TYPE)
    {
      UpdateFilters(TypePatch(typeTab));
      assert tab == TypeSelected(old(tab), typeTab);
    }

    /** `handleTagsClick`: apply the tag-toggle updater to the current state. */
    method HandleTagsClick(checked: bool, tag: string)
      modifies this
      ensures tab == TagsClicked(old(tab), checked, tag)
      ensures AgreeExcept(tab, old(tab), TAGS)
      ensures NoComma(tag) && (tag != "" || SelectedTags(old(tab)) != []) && checked ==>
        SelectedTags(tab) == SelectedTags(old(tab)) + [tag]
      ensures !checked ==> tag !in SelectedTags(tab) && (TAGS in tab <==> RemoveAll(SelectedTags(old(tab)), tag) != [])
    {
      var prev := tab;
      if checked && NoComma(tag) {
        CheckTagAppends(prev, tag);
      }
      UncheckTagRemoves(prev, tag);
      tab := TagsClicked(prev, checked, tag);
    }
  }
}
