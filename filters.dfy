/**
  The filter record of the resource listing (components/resources/resource-main.tsx)
  and the pure computations over it: the initial state read from the URL
  parameters, the spread-merge of a partial update, the tag-toggle updater,
  the URL query projection, the outbound API parameter list, the heading and
  the selected-tag list.

  The record is a JavaScript object built by spreading the parsed URL
  parameters, so besides its four filter fields (`q`, `tags`, `resourceType`,
  `category`) it may hold any other parameter name (a leftover `tag`, say).
  It is modelled as the map of its entries whose value is a string; an entry
  whose value is `undefined` is absent from the map.
 */
module Filters {
  import opened CommaLists

  datatype Option<T> = None | Some(value: T)

  const Q: string := "q"
  const TAGS: string := "tags"
  const RESOURCE_TYPE: string := "resourceType"
  const CATEGORY: string := "category"
  /** The URL parameter the initial tag selection is read from. */
  const TAG_PARAM: string := "tag"
  /** The outbound API parameter that carries `resourceType`. */
  const TYPE_PARAM: string := "type"
  /** The type tab that stands for "no type filter". */
  const ALL_TAB: string := "all"

  /** The filter state: the defined entries of the `Filters` object. */
  type Filters = map<string, string>

  /**
    A `Partial<Filters>` update: a key present in the patch overrides the
    current entry, with `None` standing for an explicit `undefined`.
   */
  type Patch = map<string, Option<string>>

  /** The value of `key` in `m`, `None` for undefined. */
  function Lookup(m: map<string, string>, key: string): Option<string> {
    if key in m then Some(m[key]) else None
  }

  /** JavaScript truthiness of the optional string `m[key]`: defined and non-empty. */
  predicate Truthy(m: map<string, string>, key: string) {
    key in m && m[key] != ""
  }

  /** `a` and `b` agree on every key other than `key`. */
  ghost predicate AgreeExcept(a: map<string, string>, b: map<string, string>, key: string) {
    forall k :: k != key ==> Lookup(a, k) == Lookup(b, k)
  }

  /** Two maps with the same lookups are equal. */
  lemma SameLookups(a: map<string, string>, b: map<string, string>)
    requires forall k :: Lookup(a, k) == Lookup(b, k)
    ensures a == b
  {
    assert a.Keys == b.Keys by {
      forall k ensures k in a <==> k in b {
        assert Lookup(a, k) == Lookup(b, k);
      }
    }
    forall k | k in a ensures a[k] == b[k] {
      assert Lookup(a, k) == Lookup(b, k);
    }
  }

  // ---------------------------------------------------------------------------
  // Initial state (lines 50-56)
  // ---------------------------------------------------------------------------

  /**
    The state the component mounts with: the parsed URL parameters, with
    `tags` replaced by the rejoined split of the `tag` parameter, or made
    undefined when there is no `tag` parameter.
   */
  function InitialFilters(params: map<string, string>): (r: Filters)
    ensures Lookup(r, TAGS) == Lookup(params, TAG_PARAM)
    ensures AgreeExcept(r, params, TAGS)
    ensures SelectedTags(r) == if Truthy(params, TAG_PARAM) then Split(params[TAG_PARAM]) else []
  {
    var queryTags := if TAG_PARAM in params then Split(params[TAG_PARAM]) else [];
    if |queryTags| > 0 then
      JoinSplit(params[TAG_PARAM]);
      params[TAGS := Join(queryTags)]
    else
      params - {TAGS}
  }

  // ---------------------------------------------------------------------------
  // Merge update and the handlers built on it (lines 96-98, 114-116, 147, 157, 180)
  // ---------------------------------------------------------------------------

  /** `{ ...prev, ...updates }`: the patch's keys override, all others are kept. */
  function Merge(prev: Filters, updates: Patch): (r: Filters)
    ensures forall k :: k in updates ==> Lookup(r, k) == updates[k]
    ensures forall k :: k !in updates ==> Lookup(r, k) == Lookup(prev, k)
  {
    map k | k in prev.Keys + updates.Keys && (k in updates ==> updates[k].Some?)
      :: if k in updates then updates[k].value else prev[k]
  }

  /** Merging the same patch a second time changes nothing. */
  lemma MergeIdempotent(s: Filters, p: Patch)
    ensures Merge(Merge(s, p), p) == Merge(s, p)
  {
  }

  /** Two successive merges are one merge of the combined patch, later keys winning. */
  lemma MergeTwice(s: Filters, p: Patch, q: Patch)
    ensures Merge(Merge(s, p), q) == Merge(s, p + q)
  {
    SameLookups(Merge(Merge(s, p), q), Merge(s, p + q));
  }

  /** A one-key patch sets that key, or removes it for `undefined`, and keeps the rest. */
  lemma MergeOneKey(s: Filters, key: string, v: Option<string>)
    ensures Lookup(Merge(s, map[key := v]), key) == v
    ensures AgreeExcept(Merge(s, map[key := v]), s, key)
  {
  }

  /** `clearAllTags`: the patch `{ tags: undefined }`. */
  function TagsCleared(s: Filters): (r: Filters)
    ensures TAGS !in r
    ensures AgreeExcept(r, s, TAGS)
  {
    MergeOneKey(s, TAGS, None);
    Merge(s, map[TAGS := None])
  }

  /** A category button: the patch `{ category: name }`. */
  function CategorySet(s: Filters, name: string): (r: Filters)
    ensures Lookup(r, CATEGORY) == Some(name)
    ensures AgreeExcept(r, s, CATEGORY)
  {
    MergeOneKey(s, CATEGORY, Some(name));
    Merge(s, map[CATEGORY := Some(name)])
  }

  /** The category Clear button: the patch `{ category: undefined }`. */
  function CategoryCleared(s: Filters): (r: Filters)
    ensures CATEGORY !in r
    ensures AgreeExcept(r, s, CATEGORY)
  {
    MergeOneKey(s, CATEGORY, None);
    Merge(s, map[CATEGORY := None])
  }

  /** The patch a type tab sends: the tab "all" unsets `resourceType`, any other tab sets it. */
  function TypePatch(tab: string): Patch {
    map[RESOURCE_TYPE := if tab != ALL_TAB then Some(tab) else None]
  }

  /** A type tab: "all" leaves `resourceType` undefined, any other type becomes its value. */
  function TypeSelected(s: Filters, tab: string): (r: Filters)
    ensures tab == ALL_TAB ==> RESOURCE_TYPE !in r
    ensures tab != ALL_TAB ==> Lookup(r, RESOURCE_TYPE) == Some(tab)
    ensures AgreeExcept(r, s, RESOURCE_TYPE)
  {
    MergeOneKey(s, RESOURCE_TYPE, TypePatch(tab)[RESOURCE_TYPE]);
    Merge(s, TypePatch(tab))
  }

  // ---------------------------------------------------------------------------
  // Selected tags and the tag toggle (lines 196-209)
  // ---------------------------------------------------------------------------

  /**
    `tab.tags ? tab.tags.split(",") : []`: the selected tags, whose comma-join
    is the stored string; none when `tags` is undefined or empty.
   */
  function SelectedTags(tab: Filters): (r: seq<string>)
    ensures AllNoComma(r)
    ensures Truthy(tab, TAGS) ==> |r| >= 1 && Join(r) == tab[TAGS]
    ensures !Truthy(tab, TAGS) ==> r == []
  {
    if Truthy(tab, TAGS) then
      JoinSplit(tab[TAGS]);
      Split(tab[TAGS])
    else
      []
  }

  /** The tag list a click leaves, before it is joined. */
  function UpdatedTags(prev: Filters, checked: bool, tag: string): seq<string> {
    var currentTags := SelectedTags(prev);
    if checked then currentTags + [tag] else RemoveAll(currentTags, tag)
  }

  /**
    The `handleTagsClick` updater. Checking appends the tag (its pieces, if it
    holds a comma) after the current ones; unchecking drops every occurrence
    and makes `tags` undefined when nothing is left. No other entry changes.
   */
  function TagsClicked(prev: Filters, checked: bool, tag: string): (r: Filters)
    ensures AgreeExcept(r, prev, TAGS)
    ensures checked ==> TAGS in r && Split(r[TAGS]) == SelectedTags(prev) + Split(tag)
    ensures !checked ==> (TAGS in r <==> RemoveAll(SelectedTags(prev), tag) != [])
    ensures !checked && TAGS in r ==> Split(r[TAGS]) == RemoveAll(SelectedTags(prev), tag)
  {
    var updatedTags := UpdatedTags(prev, checked, tag);
    if |updatedTags| > 0 then
      if checked then
        SplitJoinAppend(SelectedTags(prev), tag);
        prev[TAGS := Join(updatedTags)]
      else
        SplitJoin(updatedTags);
        prev[TAGS := Join(updatedTags)]
    else
      prev - {TAGS}
  }

  /**
    Checking a comma-free tag shows it after the tags already selected, in
    their order and without de-duplication; the one exception is the empty tag
    on an empty selection, which stores `""` and so shows nothing.
   */
  lemma CheckTagAppends(prev: Filters, tag: string)
    requires NoComma(tag)
    ensures SelectedTags(prev) == [] && tag == "" ==> SelectedTags(TagsClicked(prev, true, tag)) == []
    ensures SelectedTags(prev) != [] || tag != "" ==>
      SelectedTags(TagsClicked(prev, true, tag)) == SelectedTags(prev) + [tag]
  {
    SplitNoComma(tag);
    var r := TagsClicked(prev, true, tag);
    if SelectedTags(prev) == [] && tag == "" {
      assert Split(r[TAGS]) == [""];
      JoinSplit(r[TAGS]);
    }
  }

  /**
    Unchecking a tag leaves none of its occurrences selected and keeps the
    others in their original order; only a remainder of one empty tag reads
    back as no selection.
   */
  lemma UncheckTagRemoves(prev: Filters, tag: string)
    ensures tag !in SelectedTags(TagsClicked(prev, false, tag))
    ensures RemoveAll(SelectedTags(prev), tag) != [""] ==>
      SelectedTags(TagsClicked(prev, false, tag)) == RemoveAll(SelectedTags(prev), tag)
  {
  }

  /** With a non-empty `tags` stored, checking a tag appends a comma and the tag to the stored string. */
  lemma CheckStoresAppended(prev: Filters, tag: string)
    requires Truthy(prev, TAGS)
    ensures TAGS in TagsClicked(prev, true, tag)
    ensures TagsClicked(prev, true, tag)[TAGS] == prev[TAGS] + [COMMA] + tag
  {
    JoinAppend(SelectedTags(prev), tag);
  }

  /** Checking a tag that is not selected and then unchecking it restores the selection. */
  lemma {:induction false} CheckThenUncheck(prev: Filters, tag: string)
    requires NoComma(tag) && tag !in SelectedTags(prev)
    ensures SelectedTags(TagsClicked(TagsClicked(prev, true, tag), false, tag)) == SelectedTags(prev)
  {
    var mid := TagsClicked(prev, true, tag);
    CheckTagAppends(prev, tag);
    RemoveAllConcat(SelectedTags(prev), [tag], tag);
    RemoveAllAbsent(SelectedTags(prev), tag);
    assert RemoveAll([tag], tag) == [];
    UncheckTagRemoves(mid, tag);
    if SelectedTags(prev) == [] && tag == "" {
      assert SelectedTags(mid) == [];
    }
  }

  // ---------------------------------------------------------------------------
  // URL query (lines 101-108)
  // ---------------------------------------------------------------------------

  /** The entries pushed to the URL: those whose value is neither undefined nor `""`. */
  function UrlQuery(tab: Filters): (r: map<string, string>)
    ensures forall k :: k in r <==> Truthy(tab, k)
    ensures forall k :: k in r ==> k in tab && r[k] == tab[k]
  {
    map k | k in tab && tab[k] != "" :: tab[k]
  }

  /**
    After an update the URL carries each patched key exactly when the patch
    gives it a non-empty value, and every other key as before.
   */
  lemma UrlQueryAfterUpdate(s: Filters, p: Patch)
    ensures forall k :: k in p ==>
      Lookup(UrlQuery(Merge(s, p)), k) == if p[k].Some? && p[k].value != "" then p[k] else None
    ensures forall k :: k !in p ==> Lookup(UrlQuery(Merge(s, p)), k) == Lookup(UrlQuery(s), k)
  {
  }

  // ---------------------------------------------------------------------------
  // Outbound API parameters (lines 77-89)
  // ---------------------------------------------------------------------------

  /** Position of an API parameter in the fixed order type, category, tags, q; 4 for any other name. */
  function Rank(name: string): nat {
    if name == TYPE_PARAM then 0
    else if name == CATEGORY then 1
    else if name == TAGS then 2
    else if name == Q then 3
    else 4
  }

  /** The state field an API parameter carries: `type` carries `resourceType`, the others their own name. */
  function FieldOf(name: string): string {
    if name == TYPE_PARAM then RESOURCE_TYPE else name
  }

  /** One `params.append(name, ...)` guarded by the truthiness of its field. */
  function ParamIfSet(d: Filters, name: string): (r: seq<(string, string)>)
    ensures |r| <= 1
    ensures forall p :: p in r ==> p.0 == name && Truthy(d, FieldOf(name)) && p.1 == d[FieldOf(name)]
    ensures Truthy(d, FieldOf(name)) ==> (name, d[FieldOf(name)]) in r
  {
    if Truthy(d, FieldOf(name)) then [(name, d[FieldOf(name)])] else []
  }

  /**
    The query the resources request is sent with: parameters drawn from
    `type`, `category`, `tags`, `q` only, in that order, each present exactly
    when its field is a non-empty string and carrying that field's value.
   */
  function ApiParams(d: Filters): (r: seq<(string, string)>)
    ensures forall i, j :: 0 <= i < j < |r| ==> Rank(r[i].0) < Rank(r[j].0)
    ensures forall p :: p in r ==> Rank(p.0) < 4 && Truthy(d, FieldOf(p.0)) && p.1 == d[FieldOf(p.0)]
    ensures forall name :: Rank(name) < 4 && Truthy(d, FieldOf(name)) ==> (name, d[FieldOf(name)]) in r
  {
    assert Rank(TYPE_PARAM) == 0 && Rank(CATEGORY) == 1 && Rank(TAGS) == 2 && Rank(Q) == 3;
    ParamIfSet(d, TYPE_PARAM) + ParamIfSet(d, CATEGORY) + ParamIfSet(d, TAGS) + ParamIfSet(d, Q)
  }

  /** The `URLSearchParams` built by successive appends from the debounced state. */
  method BuildResourcesParams(debounced: Filters) returns (params: seq<(string, string)>)
    ensures params == ApiParams(debounced)
  {
    params := [];
    if Truthy(debounced, RESOURCE_TYPE) {
      params := params + [(TYPE_PARAM, debounced[RESOURCE_TYPE])];
    }
    assert params == ParamIfSet(debounced, TYPE_PARAM);
    if Truthy(debounced, CATEGORY) {
      params := params + [(CATEGORY, debounced[CATEGORY])];
    }
    assert params == ParamIfSet(debounced, TYPE_PARAM) + ParamIfSet(debounced, CATEGORY);
    if Truthy(debounced, TAGS) {
      params := params + [(TAGS, debounced[TAGS])];
    }
    assert params == ParamIfSet(debounced, TYPE_PARAM) + ParamIfSet(debounced, CATEGORY) + ParamIfSet(debounced, TAGS);
    if Truthy(debounced, Q) {
      params := params + [(Q, debounced[Q])];
    }
  }

  /**
    The API parameters and the URL query agree: every API parameter is the URL
    entry of its field, and every filter field in the URL is sent to the API.
   */
  lemma ApiMatchesUrl(d: Filters)
    ensures forall p :: p in ApiParams(d) ==> FieldOf(p.0) in UrlQuery(d) && UrlQuery(d)[FieldOf(p.0)] == p.1
    ensures forall name :: Rank(name) < 4 && FieldOf(name) in UrlQuery(d) ==>
      (name, UrlQuery(d)[FieldOf(name)]) in ApiParams(d)
  {
  }

  // ---------------------------------------------------------------------------
  // Heading (lines 130-132)
  // ---------------------------------------------------------------------------

  /** The page heading for the debounced state: the category's name before "Resources" when one is set. */
  function Heading(d: Filters): (r: string)
    ensures |r| >= 9 && r[|r| - 9..] == "Resources"
    ensures Truthy(d, CATEGORY) ==> r == d[CATEGORY] + " Resources"
    ensures !Truthy(d, CATEGORY) ==> r == "Resources"
  {
    if Truthy(d, CATEGORY) then d[CATEGORY] + " Resources" else "Resources"
  }

  /** A category click shows the clicked name in the heading; Clear restores the plain heading. */
  lemma HeadingFollowsCategory(s: Filters, name: string)
    ensures name != "" ==> Heading(CategorySet(s, name)) == name + " Resources"
    ensures name == "" ==> Heading(CategorySet(s, name)) == "Resources"
    ensures Heading(CategoryCleared(s)) == "Resources"
  {
  }
}
