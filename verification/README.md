# AssemblyLine console: the logic behind the views

This project is a Dafny model of the non-visual logic of the AssemblyLine web
console, a React/TypeScript front end. It covers the following pieces:

- the alert search query, a multimap of URL parameters with defaults, paging,
  filter buckets and two serialisations;
- the hex viewer's settings reducer: draft and applied settings, load from and
  save to storage, and the open, close, reset and per-field edit actions;
- the two global-drawer providers: one defers drawer changes behind a close
  prompt, the other asks for confirmation;
- the result-section helpers: table headers and cells, key/value cells, URL
  bodies, process-tree expansion, highlight keys, menu and panel toggles, and
  body-format dispatch;
- the alert filter chips, file tag visibility, the search pager, the sortable
  table header, the file viewer's tabs and languages, and the tag chip (its
  verdict, colour, label, links and safelist body);
- the notification area, the two archive label editors, the error viewer's
  time windows and NOT-filters, and the signature-source form.

Every operation is a pure function over immutable datatypes. A component's
React state is a record, and each handler returns the next record. Browser
state, DOM measurements, clocks and unseen helpers are parameters:
`encodeURIComponent`, `JSON.parse`/`JSON.stringify`, `localeCompare`, the
highlighter's `getKey`, and the hex value tables.

Shared modules:

- `Common`: `Option`/`Result`, string search in the way of `indexOf` and
  `substring`, and decimal text of integers in the way of `parseInt` and
  `String(n)`.
- `Json`: a parsed JSON value with optional-chaining lookup.
- `UrlParams`: the `URLSearchParams` interface of section 6.2 of the WHATWG
  URL Standard, as a list of name/value pairs.
- `LabelOrder`: an insertion sort under an abstract total preorder.
- `Screen`: breakpoints and drawer widths.

## Model

| member | source | states |
|---|---|---|
| SearchQuery.NewAt | src/components/visual/SearchBar/search-query.ts:47-66 | With defaults on, each of offset `0`, tc `4d`, rows = page size, group_by `file.sha256` and sort `reporting_ts desc` is set only when the base search lacks it. Every other name, and every name already present, keeps its base values. |
| SearchQuery.New | src/components/visual/SearchBar/search-query.ts:47-66 | Without defaults the parameters are exactly the base search. |
| SearchQuery.GetOr | src/components/visual/SearchBar/search-query.ts:77-184 | A getter returns the first value of its name when present, else its default. |
| SearchQuery.SetParam | src/components/visual/SearchBar/search-query.ts:68-71 | A setter leaves exactly one value for its name and keeps every other name's values. |
| SearchQuery.TickOffset | src/components/visual/SearchBar/search-query.ts:102-105 | The numeric offset grows by exactly the page size. Rows keeps its value when present and otherwise becomes the page size. |
| SearchQuery.TickOffsetAt | src/components/visual/SearchBar/search-query.ts:102-105 | Ticking the offset changes no parameter other than offset and rows. |
| SearchQuery.NumRoundTrip | src/components/visual/SearchBar/search-query.ts:98-105 | Parsing the text written for an offset gives back the same number, NaN included. |
| SearchQuery.AddFq | src/components/visual/SearchBar/search-query.ts:146-153 | `addFq` appends, so the fq list is the old list plus the new filter last; no other name changes. |
| SearchQuery.ClearFq | src/components/visual/SearchBar/search-query.ts:155-158 | After `clearFq` the fq list is empty and every other name keeps its values. |
| SearchQuery.AddFqs | src/components/visual/SearchBar/search-query.ts:188-190 | Adding several filters appends them in order. |
| SearchQuery.DeleteQuery | src/components/visual/SearchBar/search-query.ts:194-197 | `deleteQuery` removes q and nothing else. |
| SearchQuery.DeleteTcStart | src/components/visual/SearchBar/search-query.ts:199-202 | `deleteTCStart` removes tc_start and nothing else. |
| SearchQuery.ResetAt | src/components/visual/SearchBar/search-query.ts:204-214 | After `reset`: offset `0`, rows = page size, tc `4d`, the default group_by and sort, tc_start empty, no fq, and q empty only when clearQuery holds. Every other name is unchanged. |
| SearchQuery.ResetIdempotent | src/components/visual/SearchBar/search-query.ts:204-214 | Resetting twice is the same as resetting once. |
| SearchQuery.BuildURLQueryStringAt | src/components/visual/SearchBar/search-query.ts:216-226 | The URL pairs never hold tc_start, offset or rows. They drop tc, group_by and sort when each equals its default, and drop q when it is empty. Every other pair is kept. |
| SearchQuery.URLQueryStringOfDefaults | src/components/visual/SearchBar/search-query.ts:47-66 | A fresh query with all defaults serialises to no URL pairs at all. |
| SearchQuery.BuildAPIQueryStringAt | src/components/visual/SearchBar/search-query.ts:228-234 | The API pairs never hold group_by. They drop tc and q only when empty and keep every other pair. |
| SearchQuery.NewBase | src/components/visual/SearchBar/search-query.ts:236-248 | Without an accept function the new query has no parameters, not even the defaults. |
| SearchQuery.NewBaseAt | src/components/visual/SearchBar/search-query.ts:236-248 | With one, an accepted name keeps only its last value and a rejected name is dropped. |
| SearchQuery.BuildIdempotent | src/components/visual/SearchBar/search-query.ts:250-252 | Rebuilding a built query changes no parameter. |
| SearchQuery.TypePrefix | src/components/visual/SearchBar/search-query.ts:279-300 | A filter's type is the text before its first colon: a prefix with no colon, followed by a colon unless it is the whole filter. |
| SearchQuery.ParseFilterValue | src/components/visual/SearchBar/search-query.ts:279-300 | A filter is a status, priority or label exactly when its type says so, and a query otherwise. Its label and value are the filter text. |
| SearchQuery.ParseFilters | src/components/visual/SearchBar/search-query.ts:254-277 | tc, group_by and sort are the query's values, and each bucket holds only filters of its own kind. |
| SearchQuery.BucketIsOfKind | src/components/visual/SearchBar/search-query.ts:254-277 | A bucket's values are the fq filters of its kind, in fq order. |
| SearchQuery.BucketIds | src/components/visual/SearchBar/search-query.ts:254-277 | Each bucketed filter's id is the position of its filter in the fq list. |
| SearchQuery.ParseFiltersPartition | src/components/visual/SearchBar/search-query.ts:254-277 | Each fq lands in exactly one bucket, so the bucket sizes sum to the fq count. |
| SearchQuery.SetFiltersAt | src/components/visual/SearchBar/search-query.ts:186-192 | After `setFilters`, tc, group_by and sort are the given values and fq is the bucket values in bucket order. The other reset keys hold their reset values, and q and unrelated names are kept. |
| SearchQuery.SetFiltersThenParse | src/components/visual/SearchBar/search-query.ts:186-192 | Parsing the filters just set gives back the same tc, group_by, sort and bucket values, for buckets that hold only their own kind. |
| HexSettings.Load | src/components/visual/HexViewer/reducers/useSettingReducer.ts:89-165 | Nothing stored, or stored JSON that is an array, leaves the store unchanged. Text that is not JSON throws. Otherwise only the draft changes: the chars are at most one character, the offset base is the stored one when it is allowed and 16 otherwise, the column is read as `LoadColumn` reads it, and the row becomes the applied row. |
| HexSettings.NumberIn | src/components/visual/HexViewer/reducers/useSettingReducer.ts:144-150 | A stored number is kept only when it is in the allowed list, else the fallback is used. |
| HexSettings.KindIndex | src/components/visual/HexViewer/reducers/useSettingReducer.ts:130-160 | A stored kind becomes the index of its first entry in the table when listed, and 0 otherwise. |
| HexSettings.LoadHex | src/components/visual/HexViewer/reducers/useSettingReducer.ts:93-143 | Loaded chars have at most one character, and loaded encodings are in-range table indices or 0. |
| HexSettings.LoadCopy | src/components/visual/HexViewer/reducers/useSettingReducer.ts:98-104 | The loaded copy prefix has at most one character, and the copy type is an in-range index or 0. |
| HexSettings.LoadColumn | src/components/visual/HexViewer/reducers/useSettingReducer.ts:112-113 | A boolean stored auto flag is taken, and any other keeps the draft's flag. A stored max listed in the columns table is taken, and any other keeps the draft's max. |
| HexSettings.KindIndexOfKindOfValue | src/components/visual/HexViewer/reducers/useSettingReducer.ts:130-178 | For a table with distinct entries whose values are their indices, saving a value as its kind and loading the kind gives back the value. |
| HexSettings.KindOfValueOfKind | src/components/visual/HexViewer/reducers/useSettingReducer.ts:167-178 | Looking up a kind's value and then the value's kind gives back the kind. |
| HexSettings.PersistHexPaths | src/components/visual/HexViewer/reducers/useSettingReducer.ts:66-87 | The stored JSON holds the applied chars and encodings at the paths load reads. |
| HexSettings.PersistLayoutPaths | src/components/visual/HexViewer/reducers/useSettingReducer.ts:66-87 | The stored JSON holds the offset base and the column and row flags and maxima at the paths load reads. |
| HexSettings.PersistCopyPaths | src/components/visual/HexViewer/reducers/useSettingReducer.ts:66-87 | The stored JSON holds the copy type and prefix at the paths load reads. |
| HexSettings.Save | src/components/visual/HexViewer/reducers/useSettingReducer.ts:167-227 | Save fails exactly when a draft value is missing from its table. Otherwise it closes the dialog and stores exactly the new store. The applied body type, encodings and copy type are the table values of the draft's kinds, and the chars, offset base and flags are the draft's. An auto dimension takes the measured size; a fixed one takes the smaller of the measured size and its max. |
| HexSettings.SaveThenLoad | src/components/visual/HexViewer/reducers/useSettingReducer.ts:89-227 | Loading what was just saved restores the draft, closed, with offsetBase falling back to 16 when it was not allowed. |
| HexSettings.LoadPersisted | src/components/visual/HexViewer/reducers/useSettingReducer.ts:66-165 | Loading a store's own stored JSON gives the draft computed from the applied settings through the tables. |
| HexSettings.Open | src/components/visual/HexViewer/reducers/useSettingReducer.ts:229-263 | Opening copies the applied settings into the draft and opens the dialog. An auto dimension shows its measured size as the max. |
| HexSettings.OpenThenSave | src/components/visual/HexViewer/reducers/useSettingReducer.ts:167-263 | With the corrected open, opening and saving right away keeps the applied chars, encodings, offset base, copy settings and auto flags. |
| HexSettings.OpenAsWritten | src/components/visual/HexViewer/reducers/useSettingReducer.ts:229-263 | Open as written fails exactly when the corrected open does and changes only the draft. It copies the applied chars, encodings, offset base and copy settings, leaves the draft's column and row untouched, and puts the values meant for them in stray fields. |
| HexSettings.OpenAsWrittenThenSaveLosesAuto | src/components/visual/HexViewer/reducers/useSettingReducer.ts:229-263 | There is a store whose column is auto that comes back fixed after open as written and then save. |
| HexSettings.Close | src/components/visual/HexViewer/reducers/useSettingReducer.ts:265-267 | Closing clears the open flag and changes nothing else. |
| HexSettings.Reset | src/components/visual/HexViewer/reducers/useSettingReducer.ts:269-292 | Reset restores body type 0, chars `.`, encodings 0, offset base 16, column auto at the measured size, row auto at 2000 and search text type 0. Everything else in the setting is kept: the storage key, the open flag, the copy settings and the history flag. |
| HexSettings.ResetThenSave | src/components/visual/HexViewer/reducers/useSettingReducer.ts:167-292 | Saving right after reset applies chars `.`, offset base 16, auto columns at the measured size, auto rows with max 2000, and the old copy prefix. |
| HexSettings.CopyTypeChange | src/components/visual/HexViewer/reducers/useSettingReducer.ts:294-308 | Only the draft copy type changes. |
| HexSettings.CopyPrefixChange | src/components/visual/HexViewer/reducers/useSettingReducer.ts:310-327 | The draft prefix becomes the last character of the input, and empty input gives an empty prefix. Nothing else changes. |
| HexSettings.OffsetBaseChange | src/components/visual/HexViewer/reducers/useSettingReducer.ts:329-331 | Only the draft offset base changes. |
| HexSettings.AutoColumnChange | src/components/visual/HexViewer/reducers/useSettingReducer.ts:333-350 | The auto flag flips. Turning auto off keeps the max, and turning it on sets the max to the measured size. |
| HexSettings.AutoColumnChangeTwice | src/components/visual/HexViewer/reducers/useSettingReducer.ts:333-350 | Two toggles restore the flag and leave the max at the measured size. |
| HexSettings.ColumnChange | src/components/visual/HexViewer/reducers/useSettingReducer.ts:352-360 | Only the draft column max changes. |
| HexSettings.BodyTypeChange | src/components/visual/HexViewer/reducers/useSettingReducer.ts:362-364 | Only the draft body type changes. |
| HexSettings.EncodingChange | src/components/visual/HexViewer/reducers/useSettingReducer.ts:366-384 | Only the encoding named by the key changes; the chars and the rest of the setting are kept. An unknown key changes nothing. |
| HexSettings.HexCharChange | src/components/visual/HexViewer/reducers/useSettingReducer.ts:386-412 | Only the char named by the key changes, to the last character of the input; the encodings and the rest of the setting are kept. An unknown key changes nothing. |
| HexSettings.BodyResize | src/components/visual/HexViewer/reducers/useSettingReducer.ts:414-429 | The draft column max becomes the measured size only when column auto is on. Otherwise the store is unchanged. |
| HexSettings.Reduce | src/components/visual/HexViewer/reducers/useSettingReducer.ts:431-451 | The reducer as written, with open as written. An unknown action returns the store unchanged. Only save writes storage, and it writes the new store. Only load, save and open can throw. Every action but save changes only the draft. |
| HexSettings.ReduceOpenKeepsStaleLayout | src/components/visual/HexViewer/reducers/useSettingReducer.ts:250-254 | Opening through the reducer opens the dialog but leaves the draft column and row as they were. |
| HexSettings.ReduceCorrected | src/components/visual/HexViewer/reducers/useSettingReducer.ts:431-451 | The reducer with the corrected open agrees with the one as written on every other action. Its open fails exactly when the one as written does, writes nothing, changes only the draft, and shows the applied layout in the draft column and row. |
| HexSettings.ReduceCorrectedPreservesShortChars | src/components/visual/HexViewer/reducers/useSettingReducer.ts:431-451 | The corrected reducer also keeps every draft and applied char at most one character long. |
| HexSettings.ReducePreservesShortChars | src/components/visual/HexViewer/reducers/useSettingReducer.ts:431-451 | From a store whose chars are at most one character long, every action keeps every draft and applied char that short. |
| GlobalDrawer.SetGlobalDrawer | src/components/providers/DrawerProvider.tsx:87-98 | With the prompt off, the new drawer is installed and nothing is pending. With it on, the drawer is kept, the request is pending and the prevented event is emitted. |
| GlobalDrawer.ProceedDrawer | src/components/providers/DrawerProvider.tsx:100-109 | The proceed event installs the pending drawer and clears pending. |
| GlobalDrawer.Sync | src/components/providers/DrawerProvider.tsx:111-113 | The opened flag is set to whether a drawer is present, and nothing else changes. |
| GlobalDrawer.CloseTemporaryDrawer | src/components/providers/DrawerProvider.tsx:119-121 | On XL screens a temporary close does nothing; elsewhere it is a global close. |
| GlobalDrawer.Apply | src/components/providers/DrawerProvider.tsx:87-121 | After every action the opened flag matches the drawer. Only a prompted set or close emits the prevented event. |
| GlobalDrawer.PromptFreezesDrawer | src/components/providers/DrawerProvider.tsx:87-121 | While the prompt is on, only the proceed event changes the drawer. |
| GlobalDrawer.DeferThenProceed | src/components/providers/DrawerProvider.tsx:87-109 | A change deferred by the prompt is installed by the next proceed event. |
| GlobalDrawer.ProceedWithoutPendingCloses | src/components/providers/DrawerProvider.tsx:100-113 | A proceed event with nothing pending installs no drawer and leaves the drawer closed. |
| GlobalDrawer.OpenedTracksDrawer | src/components/providers/DrawerProvider.tsx:111-113 | After any action the drawer counts as open exactly when one is set. |
| GlobalDrawer.CloseWithoutPrompt | src/components/providers/DrawerProvider.tsx:115-121 | Without the prompt a global close clears the drawer, and a temporary close clears it except on XL. |
| ConfirmDrawer.CloseGlobalDrawer | src/components/visual/DrawerProvider.tsx:84-90 | With the prompt on, a close opens the confirmation and keeps the drawer; with it off, it clears the drawer. |
| ConfirmDrawer.CloseTemporaryDrawer | src/components/visual/DrawerProvider.tsx:91-97 | With the prompt on, a temporary close opens the confirmation; with it off, it clears the drawer except on XL. |
| ConfirmDrawer.Apply | src/components/visual/DrawerProvider.tsx:84-118 | Setting a drawer never consults the prompt. Accept closes the confirmation and clears the drawer, cancel only closes the confirmation, and nothing but setting the prompt changes it. |
| ConfirmDrawer.Width | src/components/visual/DrawerProvider.tsx:128-133 | The drawer width is 0 exactly when no drawer is set. |
| ConfirmDrawer.CloseAsksWhenPrompted | src/components/visual/DrawerProvider.tsx:84-97 | A prompted close keeps the drawer and asks for confirmation. |
| ConfirmDrawer.CloseThenAccept | src/components/visual/DrawerProvider.tsx:84-118 | Closing with the prompt and accepting clears the drawer and the confirmation and keeps the prompt. |
| ConfirmDrawer.CloseThenCancel | src/components/visual/DrawerProvider.tsx:84-118 | From a state not already asking, closing with the prompt and then cancelling restores the state. |
| ConfirmDrawer.AcceptKeepsPrompt | src/components/visual/DrawerProvider.tsx:112-116 | After an accept the prompt is still on, so the next close asks again. |
| ConfirmDrawer.SetDrawerIgnoresPrompt | src/components/visual/DrawerProvider.tsx:74 | Setting a drawer installs it whatever the prompt. |
| Screen.DrawerWidth | src/components/providers/DrawerProvider.tsx:8-11 | The width is 45vw exactly on XL screens and 100% exactly on SM and smaller. |
| Screen.MediumIsLarge | src/components/providers/DrawerProvider.tsx:85 | MD and LG screens both use 85%. |
| Screen.StyleWidth | src/components/providers/DrawerProvider.tsx:144-146 | The style width is 0 exactly without a drawer, and the breakpoint's width otherwise. |
| ResultBody.TableHeaders | src/components/visual/ResultCard/result_section.tsx:452-467 | The header scan over the rows computes the distinct keys of all rows, in first-seen order. A missing body gives none. |
| ResultBody.HeadersSpec | src/components/visual/ResultCard/result_section.tsx:453-467 | A key is a header exactly when some row maps it to a value other than null or the empty string, and headers are distinct. |
| ResultBody.DedupOrder | src/components/visual/ResultCard/result_section.tsx:461-462 | Headers are ordered by the first appearance of their keys. |
| ResultBody.KeyValueCell | src/components/visual/ResultCard/result_section.tsx:176-185 | An array becomes its item texts joined by a bar between spaces, and true and false become their words. An object or null is stringified. Strings and numbers pass through. |
| ResultBody.TableCell | src/components/visual/ResultCard/result_section.tsx:486-495 | A missing or null cell is blank, and an object is shown as a nested key/value table. |
| ResultBody.CellsAgree | src/components/visual/ResultCard/result_section.tsx:176-185 | Table cells and key/value cells format every value other than an object or null the same way. |
| ResultBody.CellTexts | src/components/visual/ResultCard/result_section.tsx:176-182 | Examples of the formatting: one-item and two-item arrays, the empty array, and both booleans. |
| ResultBody.ProcessTreeExpanded | src/components/visual/ResultCard/result_section.tsx:366-382 | A missing body throws; otherwise the expanded list is computed from the body. |
| ResultBody.ExpandedTwoLevels | src/components/visual/ResultCard/result_section.tsx:370-382 | Only the first two levels matter: cutting every grandchild gives the same expanded list. |
| ResultBody.ExpandedConcat | src/components/visual/ResultCard/result_section.tsx:371-382 | The list follows the traversal order: the expansion of two bodies is the expansion of the first, then of the second. |
| ResultBody.ExpandedMembers | src/components/visual/ResultCard/result_section.tsx:372-379 | Every present pid of a top-level process or of its direct child is expanded. |
| ResultBody.PidText | src/components/visual/ResultCard/result_section.tsx:372-378 | A missing pid adds nothing and a present pid adds one text. |
| ResultBody.UrlItems | src/components/visual/ResultCard/result_section.tsx:229-234 | A single link is wrapped as a one-element list, and a list is kept in order. |
| ResultBody.LinkText | src/components/visual/ResultCard/result_section.tsx:247 | A link shows its name when non-empty, else its URL. |
| ResultBody.SingleIsList | src/components/visual/ResultCard/result_section.tsx:229-247 | A single link renders like a one-element list of it. |
| ResultBody.RendererFor | src/components/visual/ResultCard/result_section.tsx:794-817 | The nine known formats each pick their renderer. Any other format gives the invalid-section view. |
| ResultBody.KnownFormats | src/components/visual/ResultCard/result_section.tsx:794-817 | The format names are case-sensitive: `TABLE` is a table and `table` is invalid. |
| ResultSection.AllTags | src/components/visual/ResultCard/result_section.tsx:573-600 | A printable section contributes no highlight keys. |
| ResultSection.AllTagsLayout | src/components/visual/ResultCard/result_section.tsx:573-600 | Otherwise the keys of the tags come first, in order, and then the heuristic's keys. |
| ResultSection.HeuristicLayout | src/components/visual/ResultCard/result_section.tsx:582-596 | The heuristic's keys are the ATT&CK ids' keys, then the heuristic id's key when present, then the signatures' keys. |
| ResultSection.AllTagsWithoutHeuristic | src/components/visual/ResultCard/result_section.tsx:573-581 | Without a heuristic only the tags contribute. |
| ResultSection.MenuClick | src/components/visual/ResultCard/result_section.tsx:604-622 | A printable section ignores right-clicks. Otherwise a click opens a closed menu just above-left of the cursor, or closes an open one. |
| ResultSection.MenuClickTwice | src/components/visual/ResultCard/result_section.tsx:604-622 | Two right-clicks on a closed menu leave it closed. |
| ResultSection.InitialView | src/components/visual/ResultCard/result_section.tsx:564-570 | A section starts open exactly when it does not auto-collapse, with panels hidden and the menu closed. |
| ResultSection.TogglePanel | src/components/visual/ResultCard/result_section.tsx:636-652 | The panel flips and the other panels stay. Showing a panel opens the section, and hiding one leaves `open` alone. The menu closes either way. |
| ResultSection.ToggleOpen | src/components/visual/ResultCard/result_section.tsx:628-630 | A title click flips `open` and nothing else. |
| ResultSection.PanelRoundTrip | src/components/visual/ResultCard/result_section.tsx:636-652 | Showing and hiding a panel restores the panels, leaves the section open with its body visible, and closes the menu. |
| AlertsFilters.DeleteChip | src/components/routes/alerts/alerts-filters-selected.tsx:38-56 | Deleting a bucket chip removes every entry with its value from that bucket only. The other buckets, tc, group-by and sort pass through, and no query is reported. |
| AlertsFilters.RemoveValue | src/components/routes/alerts/alerts-filters-selected.tsx:39 | The kept entries are exactly those whose value differs. |
| AlertsFilters.RemoveValueCons | src/components/routes/alerts/alerts-filters-selected.tsx:39 | An entry is kept exactly when its value differs, ahead of what is kept from the rest. |
| AlertsFilters.RemoveValueConcat | src/components/routes/alerts/alerts-filters-selected.tsx:39 | Removing from a concatenation removes from each part in turn, so the kept entries stay in order. |
| AlertsFilters.RemoveAbsentValue | src/components/routes/alerts/alerts-filters-selected.tsx:39 | Removing a value no entry has changes nothing. |
| AlertsFilters.RemoveValueIdempotent | src/components/routes/alerts/alerts-filters-selected.tsx:39 | Removing the same value twice is removing it once. |
| AlertsFilters.DeleteTc | src/components/routes/alerts/alerts-filters-selected.tsx:30-32 | Deleting the tc chip reports tc empty and everything else unchanged. |
| AlertsFilters.DeleteGroupBy | src/components/routes/alerts/alerts-filters-selected.tsx:34-36 | Deleting the group-by chip reports group-by empty and everything else unchanged. |
| AlertsFilters.DeleteMainQuery | src/components/routes/alerts/alerts-filters-selected.tsx:26-28 | Deleting the main query reports the filters unchanged and the query empty. |
| AlertsFilters.DeletedChipGone | src/components/routes/alerts/alerts-filters-selected.tsx:26-83 | After each deletion the deleted chip no longer shows. |
| AlertsFilters.DeleteChipKeepsOthers | src/components/routes/alerts/alerts-filters-selected.tsx:38-56 | An entry with another value stays in the bucket. |
| TagSection.UnsafeMap | src/components/visual/FileDetail/tags.tsx:40-48 | Each tag type is flagged with whether one of its entries is not safe. |
| TagSection.RefreshMap | src/components/visual/FileDetail/tags.tsx:39-48 | Present tags give the unsafe map of those tags. Absent tags keep the previous map. |
| TagSection.SomeNotSafe | src/components/visual/FileDetail/tags.tsx:44-50 | A list is flagged exactly when some entry has a level other than safe and is not safelisted. |
| TagSection.FlagOfUnsafeMap | src/components/visual/FileDetail/tags.tsx:40-91 | For distinct tag types, a type's row flag holds exactly when one of its entries is not safe. |
| TagSection.SomeFlag | src/components/visual/FileDetail/tags.tsx:52 | Some tag is unsafe exactly when some flag is set. |
| TagSection.ShowSectionIff | src/components/visual/FileDetail/tags.tsx:40-55 | With tags given, the section shows exactly when some tag or signature entry is not safe, or a non-empty collection is forced by showing safe results or by force. |
| TagSection.ShowAllWhenForced | src/components/visual/FileDetail/tags.tsx:51-91 | Showing safe results, or force, shows every tag row and any non-empty signature list. |
| SearchPager.PageCountCovers | src/components/visual/SearchPager.tsx:44 | The page count is the least number of pages holding the first 10 000 records. |
| SearchPager.ShowPagerIff | src/components/visual/SearchPager.tsx:44-72 | The pager shows exactly when the tracked records do not fit on one page. |
| SearchPager.PageOffsets | src/components/visual/SearchPager.tsx:50-52 | Page 1 starts at 0, consecutive pages are one page size apart, and every offered page starts inside the tracked records. |
| SearchPager.PageParams | src/components/visual/SearchPager.tsx:50-52 | The page query sets rows to the page size and offset to the page's offset, and keeps every other parameter. |
| SearchPager.PageRequest | src/components/visual/SearchPager.tsx:49-57 | A GET carries the page query in the URL and no body. A POST carries it as the body. Either way the query holds the page size as rows and the first row's offset. A given URL is used as is; without one the index's search endpoint is used. |
| DivTable.Dir | src/components/visual/DivTable.tsx:72-73 | The direction is ascending exactly when the header is active and the sort contains `asc`. |
| DivTable.NextSort | src/components/visual/DivTable.tsx:75-80 | A click always sorts on the clicked field, ascending or descending. |
| DivTable.NextSortIsAscIff | src/components/visual/DivTable.tsx:75-80 | A click sorts ascending exactly when the header is active and shown descending. |
| DivTable.ClicksAlternate | src/components/visual/DivTable.tsx:75-80 | For a field name without `asc`, clicks alternate between descending and ascending. |
| DivTable.TriggerSort | src/components/visual/DivTable.tsx:69-81 | Only sort is rewritten; every other search parameter is kept. |
| FileViewer.ParseTabName | src/components/routes/file/viewer.tsx:76-80 | Each tab's route name parses back to the tab. |
| FileViewer.ParseTab | src/components/routes/file/viewer.tsx:76-78 | A parsed tab has the parsed text as its name. |
| FileViewer.ResolveTabSpec | src/components/routes/file/viewer.tsx:224-228 | The resolved tab is always an option. It is the route tab when that is valid and not a disallowed image, and ascii otherwise. |
| FileViewer.ChangeTab | src/components/routes/file/viewer.tsx:230-236 | A tab change navigates exactly when the new tab is valid and differs from the current one. |
| FileViewer.Redirect | src/components/routes/file/viewer.tsx:315-319 | The route is rewritten exactly when its tab differs from the resolved tab. |
| FileViewer.RedirectSettles | src/components/routes/file/viewer.tsx:224-228 | No rewrite happens exactly when the route tab is valid and allowed, and after one rewrite none follows. |
| FileViewer.TabRequest | src/components/routes/file/viewer.tsx:256-310 | A tab's content is fetched from its endpoint exactly when a hash is known and the tab is not loaded. |
| FileViewer.PaneFor | src/components/routes/file/viewer.tsx:151-174 | Data is shown when present. Otherwise a non-empty error is shown, and otherwise the progress bar. |
| FileViewer.Beautify | src/components/routes/file/viewer.tsx:103-111 | The input is returned unchanged when beautify is off or parsing fails. |
| FileViewer.LanguageOf | src/components/routes/file/viewer.tsx:113-158 | A listed type gets its language, and any other type gets none. |
| FileViewer.CLanguages | src/components/routes/file/viewer.tsx:138-139 | C sources and headers are shown as C++. |
| TagChip.Verdict | src/components/visual/Tag.tsx:141-144 | A safelisted tag is safe. Otherwise the verdict is the given level when non-empty, and else the score's verdict. |
| TagChip.VerdictColors | src/components/visual/Tag.tsx:146-152 | suspicious and highly_suspicious are warnings, malicious is an error, safe is a success, and info is the default colour. No other verdict gets these colours. |
| TagChip.ChipColor | src/components/visual/Tag.tsx:302 | A highlighted chip with a key is primary; any other chip has its verdict's colour. |
| TagChip.HiddenIff | src/components/visual/Tag.tsx:221 | A tag renders nothing exactly when its verdict is safe and neither safe results nor force are on. |
| TagChip.ChipLabelParts | src/components/visual/Tag.tsx:303 | The label ends with the value. With a short type it starts with the upper-cased type in brackets and a space. |
| TagChip.SignaturePath | src/components/visual/Tag.tsx:244-251 | The signature link exists exactly for `file.rule.` types and viewers with the signature_view role. It is the signature page, then the type after the prefix, the value before its first dot and the value after it, separated by slashes. |
| TagChip.SignaturePathParts | src/components/visual/Tag.tsx:249-251 | The path's parts are the type after its first 10 characters, and the value before and after its first dot. |
| TagChip.SignaturePathOf | src/components/visual/Tag.tsx:244-251 | For the type `file.rule.` plus a rule type, and a value made of a source without dots, a dot and a name, the link is the page for that rule type, source and name. |
| TagChip.SignaturePathWithoutDot | src/components/visual/Tag.tsx:244-251 | A value without a dot gives an empty source and the whole value as the name. |
| TagChip.RelatedSearchPath | src/components/visual/Tag.tsx:91-95 | The related search is the result search page, then the tag's type as a field of the result tags, a colon, and the escaped value. |
| TagChip.LookupUrl | src/components/visual/Tag.tsx:99-116 | The lookup URL gets a `?` only when a classification or source is given, followed by their pairs joined by `&`. |
| TagChip.LookupPairs | src/components/visual/Tag.tsx:103-112 | There is one pair for each classification or source that is given. |
| TagChip.SafelistRequest | src/components/visual/Tag.tsx:191-205 | The safelist body holds the tag's type and value, one user source named after the viewer with the reason, and the type `tag`. |
| TagChip.OpenMenu | src/components/visual/Tag.tsx:154-160 | A right-click opens the menu just above-left of the cursor. |
| TagChip.MenuFor | src/components/visual/Tag.tsx:244-295 | The signature entry shows exactly when the signature link exists. The related search shows exactly for submission viewers, and safelisting exactly for safelist managers. External lookups show exactly for a submission viewer with external sources whose source tags list the tag's type, and they offer that type's sources. |
| TagChip.ExternalChildAsWritten | src/components/visual/Tag.tsx:277-295 | The lookup entries rendered as written are the sources the menu offers. |
| TagChip.ExternalZeroShown | src/components/visual/Tag.tsx:277-278 | As written, a stray "0" shows exactly for a submission viewer whose external-source list is empty. |
| TagChip.ExternalChild | src/components/visual/Tag.tsx:277-295 | The corrected rendering never shows a stray text, and shows entries exactly when the menu offers them. |
| TagChip.ExternalChildFixed | src/components/visual/Tag.tsx:277-295 | The corrected rendering matches the one as written except where that one shows the stray "0", where it shows nothing. |
| TagChip.SourcesFor | src/components/visual/Tag.tsx:289 | A tag type's external sources are listed exactly when the type is configured. |
| NotificationArea.CreateDraft | src/components/visual/Notification/NotificationArea.tsx:222-230 | A new message starts with the viewer's name, an empty title and message, and severity info. |
| NotificationArea.FreshDraftNotSavable | src/components/visual/Notification/NotificationArea.tsx:222-245 | However its severity is changed, a fresh draft cannot be saved, and its severity stays a known one. |
| NotificationArea.EditDraft | src/components/visual/Notification/NotificationArea.tsx:232-240 | Editing copies the current message under the viewer's name, and throws without one. |
| NotificationArea.SeverityChange | src/components/visual/Notification/NotificationArea.tsx:242-245 | Only error, warning, info and success are accepted. Anything else leaves the draft unchanged, and an accepted edit changes only the severity. |
| NotificationArea.SeveritiesKeepMessage | src/components/visual/Notification/NotificationArea.tsx:242-245 | Severity edits never touch the message and keep a known severity. |
| NotificationArea.GetColor | src/components/visual/Notification/NotificationArea.tsx:275-282 | A colour needs a message with a severity and a variant from 1 to 3, and it carries the asked kind and variant. |
| NotificationArea.GetColorIff | src/components/visual/Notification/NotificationArea.tsx:275-282 | A message is coloured exactly when its capitalised severity is Error, Warning, Info or Success and the variant is 1 to 3. Each of the four picks its own tone. |
| NotificationArea.SeverityTones | src/components/visual/Notification/NotificationArea.tsx:275-282 | Each of the four severities gets its own tone for every kind and variant. |
| NotificationArea.UnknownSeverityUncoloured | src/components/visual/Notification/NotificationArea.tsx:278-279 | Two examples: an empty severity and `critical` have no colour class. |
| NotificationArea.Capitalize | src/components/visual/Notification/NotificationArea.tsx:278 | The first character is upper-cased and the rest kept. |
| NotificationArea.LoadLastOpen | src/components/visual/Notification/NotificationArea.tsx:197-205 | Nothing stored, or stored JSON that is not a number, keeps the previous time. Text that is not JSON throws. |
| NotificationArea.Close | src/components/visual/Notification/NotificationArea.tsx:212-220 | Closing hides the drawer, marks the message read and stores the last-open time. Each notification is new exactly when published after it. |
| NotificationArea.CloseThenLoad | src/components/visual/Notification/NotificationArea.tsx:197-220 | Loading the stored time after a close gives back the last-open time. |
| NotificationArea.OpenCloseBadge | src/components/visual/Notification/NotificationArea.tsx:207-220 | After opening at a time and closing, the badge is hidden exactly when nothing was published after that time. |
| NotificationArea.CountNew | src/components/visual/Notification/NotificationArea.tsx:376-390 | The new count is zero exactly when no notification is new. |
| NotificationArea.Initial | src/components/visual/Notification/NotificationArea.tsx:190-192 | An existing message starts unread and the drawer starts closed. |
| NotificationArea.BadgeContent | src/components/visual/Notification/NotificationArea.tsx:379-391 | Without a message the badge counts new notifications; with one it shows a symbol. |
| NotificationArea.SeveritySymbols | src/components/visual/Notification/NotificationArea.tsx:380-389 | The symbol is `!` for error and warning, `i` for info, a check mark for success, and empty otherwise. |
| NotificationArea.SaveSucceeded | src/components/visual/Notification/NotificationArea.tsx:254-258 | A saved message becomes the system message and nothing else changes. |
| NotificationArea.DeleteSucceeded | src/components/visual/Notification/NotificationArea.tsx:268-271 | A delete removes the system message and nothing else changes. |
| NotificationArea.Recent | src/components/visual/Notification/NotificationArea.tsx:524-525 | Exactly the notifications published within the last 365 days are listed. |
| NotificationArea.RecentConcat | src/components/visual/Notification/NotificationArea.tsx:524-525 | A single notification stays exactly when it is under a year old, and filtering a concatenation filters each part in turn, so the feed order is kept. |
| NotificationArea.RecentOfRecent | src/components/visual/Notification/NotificationArea.tsx:524-525 | A list of only recent notifications is listed whole. |
| ArchiveLabels.SortedLabels | src/components/visual/ArchiveDetail/labels.tsx:107-115 | The shown labels have exactly the attribution, technique and info categories. All are empty for null labels; otherwise each is its sorted list, or empty when missing or not a list. |
| ArchiveLabels.CatOf | src/components/visual/ArchiveDetail/labels.tsx:110-112 | A category reads as the value of the first member with its key, and as not an array when no member has that key. |
| ArchiveLabels.SortedLabelsSpec | src/components/visual/ArchiveDetail/labels.tsx:107-115 | Each shown category is sorted and is a permutation of its input list. |
| ArchiveLabels.Spread | src/components/visual/ArchiveDetail/labels.tsx:166-167 | A response category is copied when it is a list and is empty when missing. Spreading a non-iterable throws. |
| ArchiveLabels.Rebuild | src/components/visual/ArchiveDetail/labels.tsx:166-193 | After an add or delete the labels have exactly the three categories from the response. |
| ArchiveLabels.RebuildThenShow | src/components/visual/ArchiveDetail/labels.tsx:107-167 | The shown list of a rebuilt category is the sorted response list, and empty when the response lacks it. |
| ArchiveLabels.OpenAdd | src/components/visual/ArchiveDetail/labels.tsx:121-126 | The add dialog opens with an empty draft. |
| ArchiveLabels.OpenDelete | src/components/visual/ArchiveDetail/labels.tsx:128-131 | The delete dialog opens with the chosen category and label. |
| ArchiveLabels.CloseDialog | src/components/visual/ArchiveDetail/labels.tsx:117-119 | Closing changes only the open flag. |
| ArchiveLabels.RequestFinished | src/components/visual/ArchiveDetail/labels.tsx:172-203 | When a request finishes the dialog closes and the draft resets, whatever the outcome. |
| ArchiveLabels.ConfirmStates | src/components/visual/ArchiveDetail/labels.tsx:364-368 | Confirm is disabled for a fresh add and after a request. For a delete it is disabled exactly when the category or label is empty or a request is in flight. |
| ArchiveLabels.LabelRequest | src/components/visual/ArchiveDetail/labels.tsx:158-190 | Without a hash there is no request. Otherwise an add PUTs and a delete DELETEs to the file's label endpoint. |
| ArchiveLabels.SuggestionQuery | src/components/visual/ArchiveDetail/labels.tsx:138-152 | Suggestions are asked only while the add dialog is open and a hash is known, for the draft's value. |
| LabelOrder.SortSorted | src/components/visual/ArchiveDetail/labels.tsx:112 | Sorting with a total preorder gives a sorted list. |
| LabelOrder.Sort | src/components/visual/ArchiveDetail/labels.tsx:112 | Sorting gives a permutation of its input. |
| LabelOrder.SortIdempotent | src/components/visual/ArchiveDetail/ident.tsx:77 | Sorting a sorted list changes nothing. |
| IdentLabels.SortingLabels | src/components/visual/ArchiveDetail/ident.tsx:72-81 | The categories are kept in order, each with its list sorted. Null data or a category that is not a list throws. |
| IdentLabels.SortingLabelsSpec | src/components/visual/ArchiveDetail/ident.tsx:72-81 | Each category's list comes out sorted and a permutation of its input. |
| IdentLabels.Load | src/components/visual/ArchiveDetail/ident.tsx:83-86 | Labels are replaced only when the file information has label categories. |
| IdentLabels.StartEdit | src/components/visual/ArchiveDetail/ident.tsx:88-91 | Starting an edit turns editing on and snapshots the labels. |
| IdentLabels.Cancel | src/components/visual/ArchiveDetail/ident.tsx:114-117 | Cancelling restores the snapshot and turns editing off. |
| IdentLabels.SetCategory | src/components/visual/ArchiveDetail/ident.tsx:303 | An edit replaces the list of the category's first entry in place and keeps every other entry where it was. When the category is missing it is added last. |
| IdentLabels.SetCategoryThenList | src/components/visual/ArchiveDetail/ident.tsx:303 | After an edit, the edited category reads as the new list and every other category reads as before. |
| IdentLabels.EditThenCancel | src/components/visual/ArchiveDetail/ident.tsx:88-117 | Cancelling after any edits restores the labels from before the edit, and leaves edit mode. |
| IdentLabels.SaveRequest | src/components/visual/ArchiveDetail/ident.tsx:93-99 | Saving without file information does nothing; otherwise it POSTs to the file's label endpoint. |
| IdentLabels.SaveSucceeded | src/components/visual/ArchiveDetail/ident.tsx:100-104 | On success the labels become the sorted response and editing turns off. |
| ErrorViewer.ListParams | src/components/routes/admin/error_viewer.tsx:116-124 | The list query can be built exactly when the window is `1y` or a key of the created-time table. |
| ErrorViewer.ListParamsAt | src/components/routes/admin/error_viewer.tsx:116-124 | The list query drops tc and sets rows to the page size and offset to 0. It adds the window's created-time filter unless the window is `1y`, and keeps every other pair. |
| ErrorViewer.DayWindow | src/components/routes/admin/error_viewer.tsx:53-58 | Without a window the last 24 hours are listed. |
| ErrorViewer.YearWindow | src/components/routes/admin/error_viewer.tsx:60-74 | The `1y` window adds no filter, and its histogram starts a year back in 15-day buckets. |
| ErrorViewer.WeekWindow | src/components/routes/admin/error_viewer.tsx:53-74 | The `7d` window filters the last 7 days, with a histogram in 4-hour buckets. |
| ErrorViewer.WindowTables | src/components/routes/admin/error_viewer.tsx:53-74 | The start and gap tables cover the same windows: those of the filter table plus `1y`. |
| ErrorViewer.UnlistedWindow | src/components/routes/admin/error_viewer.tsx:53-74 | A `24h` window is in none of the tables. |
| ErrorViewer.HistogramRange | src/components/routes/admin/error_viewer.tsx:152-158 | The histogram range exists exactly for a window in both tables, and is its start and gap. |
| ErrorViewer.FacetParams | src/components/routes/admin/error_viewer.tsx:136-151 | The facet and histogram queries drop rows, offset, sort and track_total_hits, and keep every other name. |
| ErrorViewer.FacetOfList | src/components/routes/admin/error_viewer.tsx:116-158 | The facet query of the list query has no paging, the list's filters, and the page's search text. |
| ErrorViewer.Clear | src/components/routes/admin/error_viewer.tsx:179-191 | Clear drops `query` exactly when filters exist and keeps the rest; otherwise it goes to the bare path. |
| ErrorViewer.Search | src/components/routes/admin/error_viewer.tsx:192-203 | A non-empty search sets `query` and keeps the rest; an empty one is a clear. |
| ErrorViewer.SearchKeepsFilters | src/components/routes/admin/error_viewer.tsx:179-203 | A search goes to the bare path exactly when it is empty and there are no filters, and otherwise keeps the filters. |
| ErrorViewer.ChipColor | src/components/routes/admin/error_viewer.tsx:323 | A filter chip is an error exactly when it starts with `NOT `. |
| ErrorViewer.Toggle | src/components/routes/admin/error_viewer.tsx:325 | A click strips a leading `NOT ` or adds one. |
| ErrorViewer.ToggleTwice | src/components/routes/admin/error_viewer.tsx:323-325 | Two clicks restore a filter that does not start with two `NOT ` prefixes, and each click flips the colour. |
| ErrorViewer.ReplaceValue | src/components/routes/admin/error_viewer.tsx:325 | Replacing a filter rewrites exactly the matching pairs, in place. |
| ErrorViewer.ToggleChipTwice | src/components/routes/admin/error_viewer.tsx:325 | Clicking a chip and then its toggled chip restores the query, when the toggled filter was not already there. |
| ErrorViewer.RemoveValue | src/components/routes/admin/error_viewer.tsx:329 | Removing a filter drops exactly its pairs. |
| ErrorViewer.RemoveValueConcat | src/components/routes/admin/error_viewer.tsx:329 | A single pair stays exactly when it is not the removed one, and removing from a concatenation removes from each part in turn, so the other pairs stay in order. |
| SignatureSources.InitialSource | src/components/routes/manage/signature_sources.tsx:87-122 | The initial source has the default fields and the edited source's fields. The edited source wins, the default classification is the unrestricted one, and the other defaults fill the gaps. |
| SignatureSources.NewSource | src/components/routes/manage/signature_sources.tsx:87-119 | A new source has an empty name and address, no headers, SSL checks on, and the unrestricted classification. |
| SignatureSources.SaveStates | src/components/routes/manage/signature_sources.tsx:115-122 | A new source cannot be saved. An edited source with a name and address can be saved exactly when modified and not saving. |
| SignatureSources.SaveRequest | src/components/routes/manage/signature_sources.tsx:124-131 | An edit POSTs to the source's own address, and an addition PUTs to the service's address. |
| SignatureSources.SourceUrl | src/components/routes/manage/signature_sources.tsx:128 | A source's address is its service's address, then the encoded name, then a slash. |
| SignatureSources.SaveSucceeded | src/components/routes/manage/signature_sources.tsx:132-135 | After a save the form is not modified, and the drawer closes exactly for an addition or on a screen narrower than XL. |
| SignatureSources.EditStaysOpenOnXL | src/components/routes/manage/signature_sources.tsx:132-135 | An edit saved on XL stays open and cannot be saved again until modified. |
| SignatureSources.DeleteEffects | src/components/routes/manage/signature_sources.tsx:144-153 | A delete closes the drawer first and then sends a DELETE. |
| SignatureSources.DeleteTargetsEditedSource | src/components/routes/manage/signature_sources.tsx:124-153 | The delete goes to the address an edit of the same source saves to. |
| SignatureSources.PageFor | src/components/routes/manage/signature_sources.tsx:383 | The page is shown exactly to admins and to users with the signature_manager role. |
| SignatureSources.ReloadRequest | src/components/routes/manage/signature_sources.tsx:367-376 | Sources are fetched exactly for admins and signature managers. |
| SignatureSources.LoadedIffShown | src/components/routes/manage/signature_sources.tsx:367-383 | Sources are fetched exactly when the page shows them. |

## Left out

- Rendering, styling, theming and media queries are not modelled. The screen size is a `Screen.Breakpoint` parameter.
- Network calls, snackbars, router navigation, timers and window events are not modelled. The model gives the request, navigation target or event as a value; responses are parameters.
- `localStorage` is not modelled: its text and parsed JSON are parameters. `Date` values are integer milliseconds, and DOM measurements (the column and row sizes of the hex view) are parameters too.
- Unseen helpers are parameters: `encodeURIComponent`, `JSON.parse` and `JSON.stringify`, `localeCompare`, the highlighter's `getKey`, `scoreToVerdict`, `safeFieldValueURI`, and the hex value tables.
- The percent-encoding serialiser of the WHATWG URL Standard is not modelled. Parameter builders return the pair list a query string would encode.
- `SimpleSearchQuery` is not part of this model. The error viewer treats its query as a `URLSearchParams` pair list, and its `replace` and `remove` act on every matching pair.
- SearchPager.PageRequest: the page query is the search's own pair list. The defaults that `SimpleSearchQuery` merges in from `getDefaultString` are not modelled, and the POST body is that pair list rather than the `getParams` object.
- HexSettings.Load: a stored char, prefix or similar field that is an array is modelled as throwing. In the source `slice(-1)` returns a one-element array there, which the model's character fields cannot hold.
- `Array.prototype.sort` sorts in place: the label lists in state and in props are reordered by the source (labels.tsx line 112, ident.tsx line 77). The model returns a sorted copy and leaves the input unchanged.
- Common.TrimStart: `parseInt` skips only the ASCII white space characters (space, tab, line feed, carriage return, vertical tab, form feed), not the no-break space, U+FEFF, the line and paragraph separators or the other Unicode space separators.
- JSON numbers are integers and floating point is not modelled. `parseInt` reads decimal digits only; hex prefixes, `-0` and fractions are not modelled.
- Strings are sequences of characters without UTF-16 surrogates. Upper-casing affects ASCII letters only.
- JSON objects are member lists in order. The property order that JavaScript gives integer-like keys is not modelled, and neither are duplicate keys.
- ResultSection.AllTags: a null ATT&CK or signature list, which makes the source throw, is modelled as an absent list.
- The JSON, text, memory-dump, graph and image bodies are only named by `ResultBody.RendererFor`. Their rendering is third-party (ReactJson, d3 colour scales, an image viewer). `hasHighlightedKeys` is not modelled either.
- ErrorViewer.ListParams: a window missing from the created-time table makes the source add the text `undefined` as a filter. The model returns `None` for it instead.
- ErrorViewer.HistogramRange: a window missing from the start and gap tables still makes the source request the histogram, with `start=undefined` and `gap=undefined` in its URL. The model returns `None` and no request.
- SearchPager.PageCount: the count needs a positive page size, because dividing by zero gives a non-number in the source.
- LabelOrder.Sort: `localeCompare` is an abstract total preorder. Only sortedness and permutation are stated, not the order of equal elements.
- The Monaco editor's locale configuration is not modelled, and neither is the rendering of external lookup results in the tag menu.
- TagChip.MenuFor: the external-source entries are the configured sources of the tag's type; their position among the other menu entries is not modelled.
- NotificationArea.GetColor: the colour classes are an abstract table of tones, not the CSS class names.

## Findings

| source | as written | input that shows it | evidently intended | confidence | as-written member | corrected member |
|---|---|---|---|---|---|---|
| src/components/visual/HexViewer/reducers/useSettingReducer.ts:250-254 | `settingOpen` writes the draft column and row at the top level of the setting. Save and the dialog read them from `setting.layout`. | A store whose applied column is auto, with a stale fixed draft column: opening and then saving turns column auto off. | Opening writes the draft column and row into `setting.layout`, so that open then save keeps the applied layout. | not executed | HexSettings.OpenAsWritten, HexSettings.OpenAsWrittenThenSaveLosesAuto, HexSettings.ReduceOpenKeepsStaleLayout | HexSettings.Open, HexSettings.OpenThenSave, HexSettings.ReduceCorrected |
| src/components/visual/Tag.tsx:277-278 | The external-lookup block is guarded by `roles.includes('submission_view') && external_sources?.length && …`. A length of 0 is the first falsy operand, and React renders a number as text. | A viewer with the `submission_view` role whose configured external-source list is empty (`[]`): the tag menu shows the text `0`. | An empty source list renders nothing, as with the other guards (`!!external_sources?.length` or `length > 0`). | not executed | TagChip.ExternalChildAsWritten, TagChip.ExternalZeroShown | TagChip.ExternalChild, TagChip.ExternalChildFixed |
