# Filter state of the resource listing

A Dafny model of the filter logic in `ResourceMain`, the resource listing page in
components/resources/resource-main.tsx. The page keeps one filter record
(`q`, `tags`, `resourceType`, `category`). It starts from the URL parameters and
changes through the page's handlers: merge update, tag toggle, clear all tags,
category set and clear, and the type tabs. From that record it derives the URL query
it pushes, the parameter list of the resources request, the heading, and the list
of selected tags.

Modules:

- `CommaLists` (comma_lists.dfy): JavaScript's `split(",")`, `join(",")` and the
  `filter` that drops one tag. They come with the proof that split and join invert
  each other, and the proof that the filter keeps the other tags in order.
- `Filters` (filters.dfy): the record and every pure computation over it.
- `ResourceListing` (resource_main.dfy): the component as a class. Its `tab` field
  is the `useState` record, and its methods are the handlers that call `setTab`.
- `UrlReload` (url_reload.dfy): what reloading the pushed URL restores (see Findings).

Modelling decisions:

- The record is a JavaScript object made by spreading the parsed URL parameters. So
  it can hold other keys besides the four filter fields, such as a leftover `tag`.
  It is modelled as `map<string, string>` holding the object's defined entries.
  A key set to `undefined` is absent from the map. Nothing modelled can tell those
  two apart: `Object.entries(...).filter` drops undefined values, and property reads
  give `undefined` either way.
- A `Partial<Filters>` update is a `map<string, Option<string>>`. `None` is an
  explicit `undefined`, and it removes the key.
- Truthiness of an optional string (`if (x)`, `x ? … : …`) is `Truthy`: the key is
  defined and its value is not the empty string.
- `split(",")` follows JavaScript: it never returns an empty list (`"".split(",")` is
  `[""]`). So `searchParams.get("tag")?.split(",") || []` is empty only when there is
  no `tag` parameter. A parameter `tag=` gives `tags: ""`.
- `resourceType` is a free string. The code does not validate it, so a parsed
  `resourceType=foo` stays in the state and is sent as `type=foo`.
- The code does not round-trip the URL. The tag selection is written under `tags`
  and read back from `tag` (see Findings).

## Model

| member | source | states |
|---|---|---|
| CommaLists.Split | components/resources/resource-main.tsx:199 | the split is never empty and no piece holds a comma |
| CommaLists.Join | components/resources/resource-main.tsx:206 | the join is `""` exactly for `[]` and `[""]` |
| CommaLists.JoinSplit | components/resources/resource-main.tsx:50-55 | joining the split of any string with "," gives that string back |
| CommaLists.SplitJoin | components/resources/resource-main.tsx:199-206 | splitting the join of a non-empty comma-free list gives the list back |
| CommaLists.JoinAppend | components/resources/resource-main.tsx:201-206 | joining a non-empty list with one more element gives the old join, a comma, then that element |
| CommaLists.SplitJoinAppend | components/resources/resource-main.tsx:201-206 | splitting the join of a comma-free list plus one more string gives the list followed by that string's pieces |
| CommaLists.RemoveAll | components/resources/resource-main.tsx:202 | the filter drops every occurrence of the tag, keeps every other tag as often as before, and keeps them as a subsequence of the original (relative order kept) |
| CommaLists.RemoveAllAbsent | components/resources/resource-main.tsx:202 | filtering out a tag that does not occur changes nothing |
| CommaLists.RemoveAllConcat | components/resources/resource-main.tsx:202 | the filter distributes over concatenation |
| Filters.InitialFilters | components/resources/resource-main.tsx:50-56 | the initial `tags` is defined exactly when a `tag` parameter exists, and then equals it; a parsed `tags` parameter is overridden; every other parsed entry is kept; the selection is the split of a non-empty `tag`, and none otherwise |
| Filters.Merge | components/resources/resource-main.tsx:96-98 | every key in the patch takes the patch value (`undefined` removes it); every other key keeps its previous value |
| Filters.MergeIdempotent | components/resources/resource-main.tsx:96-98 | applying the same patch twice equals applying it once |
| Filters.MergeTwice | components/resources/resource-main.tsx:96-98 | two successive updates equal one update with the combined patch, later keys winning |
| Filters.TagsCleared | components/resources/resource-main.tsx:114-116 | `clearAllTags` leaves `tags` undefined and every other entry unchanged |
| Filters.CategorySet | components/resources/resource-main.tsx:147 | a category click sets `category` to the clicked name and changes nothing else |
| Filters.CategoryCleared | components/resources/resource-main.tsx:157 | Clear leaves `category` undefined and changes nothing else |
| Filters.TypeSelected | components/resources/resource-main.tsx:174-181 | the "all" tab unsets `resourceType`, any other tab sets it to the tab's type, nothing else changes |
| Filters.SelectedTags | components/resources/resource-main.tsx:196 | the selected tags are comma-free and join back to the stored `tags`; none when `tags` is undefined or empty |
| Filters.TagsClicked | components/resources/resource-main.tsx:197-209 | only `tags` changes; checking stores the current tags followed by the clicked one; unchecking stores the current tags minus every occurrence of the clicked one, or leaves `tags` undefined when none remain |
| Filters.CheckTagAppends | components/resources/resource-main.tsx:199-201 | checking a comma-free tag appends it after the selected tags, keeping their order and not de-duplicating; the empty tag on an empty selection selects nothing |
| Filters.UncheckTagRemoves | components/resources/resource-main.tsx:202-207 | after unchecking, the tag is not selected, and the remaining selection is the old one without it, in order, unless the only thing left is one empty tag, which is stored as `""` and reads back as no selection |
| Filters.CheckStoresAppended | components/resources/resource-main.tsx:199-206 | when a non-empty `tags` is stored, checking a tag stores the old string, a comma, then the tag |
| Filters.CheckThenUncheck | components/resources/resource-main.tsx:197-209 | checking and then unchecking a comma-free tag that was not selected restores the previous selection |
| Filters.UrlQuery | components/resources/resource-main.tsx:101-104 | the URL query holds exactly the state entries whose value is neither undefined nor `""`, with their values |
| Filters.UrlQueryAfterUpdate | components/resources/resource-main.tsx:96-104 | after an update, the URL carries each patched key exactly when the patch gives it a non-empty value, and every other key as before |
| Filters.ApiParams | components/resources/resource-main.tsx:77-89 | the request parameters come in the order type, category, tags, q, each at most once and no other name; each is present exactly when its field is a non-empty string; `type` carries `resourceType`, the others carry their own field |
| Filters.BuildResourcesParams | components/resources/resource-main.tsx:77-89 | the successive `params.append` calls produce exactly the parameter list of `ApiParams` |
| Filters.ApiMatchesUrl | components/resources/resource-main.tsx:77-104 | every request parameter is the URL entry of its field, and every filter field in the URL is sent with the request |
| Filters.Heading | components/resources/resource-main.tsx:129-132 | the heading is "<category> Resources" when a category is set and "Resources" otherwise |
| Filters.HeadingFollowsCategory | components/resources/resource-main.tsx:130-157 | after a category click the heading names the clicked category (plain "Resources" for an empty name), and after Clear it is plain "Resources" |
| ResourceListing.ResourceMain.constructor | components/resources/resource-main.tsx:53-56 | the state starts as the initial filters of the URL parameters |
| ResourceListing.ResourceMain.UpdateFilters | components/resources/resource-main.tsx:96-98 | the new state is the old one merged with the patch |
| ResourceListing.ResourceMain.ClearAllTags | components/resources/resource-main.tsx:114-116 | `tags` becomes undefined; the other entries are unchanged |
| ResourceListing.ResourceMain.SelectCategory | components/resources/resource-main.tsx:145-147 | `category` becomes the clicked name; the other entries are unchanged |
| ResourceListing.ResourceMain.ClearCategory | components/resources/resource-main.tsx:155-157 | `category` becomes undefined; the other entries are unchanged |
| ResourceListing.ResourceMain.SelectType | components/resources/resource-main.tsx:178-181 | "all" unsets `resourceType`, another type sets it; the other entries are unchanged |
| ResourceListing.ResourceMain.HandleTagsClick | components/resources/resource-main.tsx:197-210 | the state takes the tag-toggle update: a checked tag is appended, an unchecked one is removed, and `tags` becomes undefined when nothing remains |
| UrlReload.ReloadDropsCheckedTag | components/resources/resource-main.tsx:50-108 | on a page with no parameters, checking "react" pushes `?tags=react`, and mounting from that query selects no tag |
| UrlReload.ReloadRestoresUncheckedTag | components/resources/resource-main.tsx:50-108 | mounting from `category=DSA&tag=arrays,graphs` and unchecking "graphs" pushes `category=DSA&tag=arrays,graphs&tags=arrays`, and reloading that selects "graphs" again |
| UrlReload.ReloadableUrlQuery | components/resources/resource-main.tsx:101-104 | the corrected query writes the selection under `tag`, the parameter read at mount; it drops `tags` and keeps every other non-empty entry |
| UrlReload.ReloadRestoresTags | components/resources/resource-main.tsx:50-55 | with the corrected query, a reload selects the same tags |
| UrlReload.ReloadRestoresRequest | components/resources/resource-main.tsx:77-89 | with the corrected query, a reload sends the same resources request parameters |
| UrlReload.ReloadRestoresHeading | components/resources/resource-main.tsx:129-132 | with the corrected query, a reload shows the same heading |
| UrlReload.ReloadPushesSameUrl | components/resources/resource-main.tsx:101-108 | with the corrected query, a reload pushes the same URL again |
| UrlReload.ReloadRestoresView | components/resources/resource-main.tsx:50-108 | with the corrected query, a reload restores the same selected tags, request parameters and heading, and pushes the same URL again |

## Left out

- The `useDebounce(tab, 500)` delay (line 59) is time-based, and its hook is not part of this model. The request parameters and the heading are computed from the record passed in as the debounced state.
- The React Query fetches and caching, and the `getTags`, `getCategories` and `getResources` HTTP calls (lines 62-93), are network calls to a backend that is not part of this model. The `enabled: !!debouncedTab` guard (line 92) is always true for an object.
- `router.push` (line 110) is a browser history side effect. Only the query map it is given is modelled.
- The internals of `queryString.parse` and `queryString.stringifyUrl` are not modelled. That covers array and null values for repeated or bare keys, key sorting, URL encoding, and joining the query to `pathname`. The parsed query is a string map. `searchParams.get("tag")` is taken to read the same map.
- The framer-motion variants (lines 21-37) are floating-point presentation values and are not modelled.
- The styling of the active category button (line 150), the conditions that show the Clear and Clear All buttons (lines 155 and 215), and the tab labels (line 184) are presentation only.
- components/profile-menu.tsx is not modelled. It is a dropdown around the external `authClient`, and its only logic is the "NN" initials fallback.
- components/resource/resource-main.tsx is not modelled. It is a single fetch with a loading skeleton.
- lib/types.ts holds type declarations only. Category and tag names enter the model as plain strings.

## Findings

| source | as written | input that shows it | evidently intended | confidence | as-written member | corrected member |
|---|---|---|---|---|---|---|
| components/resources/resource-main.tsx:50-108 | the URL gets the selection under the state key `tags`, but mount reads it from `tag` and overwrites any `tags` parameter | on a page with no parameters, check "react": the URL becomes `?tags=react`, and a reload shows no tag selected | the pushed URL restores the same filtered view when reloaded or shared | high for a reload of the pushed URL; not executed | UrlReload.ReloadDropsCheckedTag | UrlReload.ReloadableUrlQuery |
