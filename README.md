# Stacker-flow dashboard: a Dafny model

The dashboard is a single page with one tab per category of Stacks delegation and reward records:
accepted delegations, pending transactions, delegations, previous delegations and committed delegations.
Each tab has a fixed column schema. The page fetches one snapshot from the data server. The snapshot maps
each category to its rows. Ingestion adds `amountStx`, the amount in STX, to every row.

For each tab the page keeps a column-visibility entry, mapping each column key to shown or hidden. A tab's
entry is created the first time the tab is active, with every column shown. After that, the checkboxes and
the table callback rewrite only the active tab's entry. The table is rendered only once data has loaded,
the snapshot holds a truthy entry for the active tab, and the tab has its visibility entry.

Around the page sit these pieces:
- the network configuration: which network the app uses, the Stacks and Bitcoin network names for it,
  per-network API endpoints, explorer link builders and `FIRST_POX_4_CYCLE`;
- a second copy of the link builders, with the data server's URL;
- the column filter widget with its Min/Max and text inputs;
- a hook with the same fetch-and-ingest logic as the page.

Modules:

- `Wrappers`: `Option`.
- `TemplateStrings`: a template literal with one hole, `prefix + hole + suffix`, and the reading of the
  hole back out of a URL.
- `AppConsts` models `src/app/consts.ts`. The process environment is a parameter `Env`. `NETWORK` is
  worked on as the raw string, because the `as NetworkUsed` cast checks nothing. `API_CONFIG[NETWORK]`
  has three outcomes. For an enum member it is that member's entry. For one of the twelve property names
  every object inherits from `Object.prototype` (`constructor`, `toString`, `__proto__` and the rest) it
  is the inherited member: the module loads, and every export read off the config is undefined. For any
  other string it is `undefined`: reading its first field throws, so the module fails to load and
  `LoadModule` returns `None`. The module also holds `LIMIT` (100), `MAX_CYCLES_FOR_OPERATIONS` (12) and
  `SERVER_PORT` (8080).
- `UrlConstants` models `src/constants/urls.ts`. It has its own enums and builders, plus
  `SERVER_URL` (`http://localhost:8080/data`). Its `API_CONFIG[NETWORK]` has the same three outcomes.
  Its lemmas prove that it agrees with `AppConsts`.
- `ColumnFilter` models `src/app/components/Table/Filter.tsx` and the identical copy inside
  `Landing.tsx`.
- `TableData` holds:
  - a JavaScript value type including `NaN`;
  - the ingestion transform, both as functions and as the imperative `for...in` loop;
  - the `FetchState` class (`data`, `loading`, `error`) of `src/hooks/useFetchTableData.ts` and of
    `fetchTableData` in `Landing.tsx`.
- `LandingText`: the tab label (a space before each capital, then the first letter upper-cased) and the
  `abc...xyz` shortening of addresses and transaction ids.
- `LandingPage` holds:
  - `columnsMap`;
  - the cell renderers;
  - the `forEach` that builds a tab's first visibility entry;
  - the `Landing` class, with `activeTab`, `columnVisibilityMap` and the fetch state, whose methods are
    the page's handlers and effects.

Behaviour worth knowing:
- The page keeps only column visibility per tab. Filter values and sorting live in the table component.
- The initialisation effect runs after the render that changed `activeTab`. `SelectTab` and
  `InitActiveTabVisibility` are therefore separate steps.
- Toggling a key the entry lacks adds the key as shown, because `!undefined` is `true`.
- A tab whose category is missing from the snapshot, or holds a falsy value, renders no table at all.
- The cells read their field with an unchecked `getValue<string>()`. The address cells blank every falsy
  value. The transaction cell has no such check, so a missing or `null` id throws while rendering.

## Model

| member | source | states |
|---|---|---|
| TemplateStrings.Template.Fill | src/app/consts.ts:64-66 | a built URL is the prefix, then the argument, then the suffix; its length is the sum of the three |
| TemplateStrings.Template.Match | src/app/consts.ts:64-72 | reading the argument out of a URL: a result refills to exactly that URL; no result exactly when the URL lacks the prefix or suffix |
| TemplateStrings.MatchFill | src/app/consts.ts:64-72 | reading a built URL gives back the argument it was built from |
| TemplateStrings.FillInjective | src/app/consts.ts:64-72 | two arguments build the same URL only if they are equal |
| TemplateStrings.FillExtendSuffix | src/app/consts.ts:109-117 | appending text to a template's suffix appends it to every URL the template builds |
| AppConsts.Network | src/app/consts.ts:23-24 | NETWORK is never empty; it is "devnet" exactly when the variable is unset, empty or "devnet", and otherwise the variable's value |
| AppConsts.ParseNetwork | src/app/consts.ts:4-9 | a NETWORK string names an enum member exactly when it equals that member's value |
| AppConsts.GetStacksNetworkName | src/app/consts.ts:27-38 | the result is a Stacks network name other than "mocknet"; it is "testnet" exactly when the input is neither "mainnet" nor "devnet", and otherwise the input itself |
| AppConsts.GetBitcoinNetworkName | src/app/consts.ts:40-50 | the Bitcoin network is mainnet exactly when the input is "mainnet"; everything else, devnet included, is testnet |
| AppConsts.NetworkNamesOfMembers | src/app/consts.ts:27-50 | the names each enum member maps to: mainnet→mainnet/mainnet, testnet and nakamotoTestnet→testnet/testnet, devnet→devnet/testnet |
| AppConsts.NetworkNamesAgreeExceptDevnet | src/app/consts.ts:27-56 | the Stacks and Bitcoin names agree on every NETWORK string except "devnet" |
| AppConsts.ApiConfigFor | src/app/consts.ts:58-148 | `FIRST_POX_4_CYCLE` is 84 on mainnet and 1 elsewhere; the pool operator, BTC address and keys come from the environment |
| AppConsts.TransactionUrlTemplate | src/app/consts.ts:64-133 | outside devnet: the hiro explorer's `txid/` page, whose `chain` parameter is the app's Stacks network name, plus the nakamoto API on the nakamoto testnet; on devnet the local explorer with `?chain=mainnet` |
| AppConsts.BitcoinAddressUrlTemplate | src/app/consts.ts:67-136 | no suffix; outside devnet the mempool.space address page of the app's Bitcoin network (`testnet/` exactly when that is testnet); on devnet localhost:8001 |
| AppConsts.StacksAddressUrlTemplate | src/app/consts.ts:70-139 | the `address/` page of the same explorer as the transaction links, with the same query |
| AppConsts.TransactionExplorerUrl | src/app/consts.ts:64-132 | the transaction id can be read back out of the link by the network's template |
| AppConsts.BitcoinAddressExplorerUrl | src/app/consts.ts:67-135 | the address can be read back out of the link by the network's template |
| AppConsts.StacksAddressExplorerUrl | src/app/consts.ts:70-138 | the address can be read back out of the link by the network's template |
| AppConsts.TransactionChainParameters | src/app/consts.ts:64-89 | mainnet and testnet transaction links are the hiro explorer with `?chain=mainnet` and `?chain=testnet` |
| AppConsts.NakamotoTransactionUrl | src/app/consts.ts:109-111 | the nakamoto transaction link is the testnet one followed by `&api=https://api.nakamoto.testnet.hiro.so` |
| AppConsts.NakamotoStacksAddressUrl | src/app/consts.ts:115-117 | the nakamoto Stacks address link is the testnet one followed by the nakamoto API parameter |
| AppConsts.BitcoinExplorerPerNetwork | src/app/consts.ts:67-135 | Bitcoin links: mempool.space on mainnet, its testnet pages on testnet and nakamoto (the same link), localhost:8001 on devnet |
| AppConsts.DevnetExplorers | src/app/consts.ts:131-139 | devnet transaction and Stacks links go to localhost:8000 and say `?chain=mainnet` |
| AppConsts.LookupConfig | src/app/consts.ts:58-150 | `API_CONFIG[NETWORK]` is an entry exactly for the four enum values, with that member's configuration, and an inherited member exactly for the `Object.prototype` names |
| AppConsts.Exports.Config | src/app/consts.ts:150-168 | the config-derived exports are defined exactly when `currentConfig` is an entry, and are then that entry's |
| AppConsts.Exports.GetTransactionExplorerUrl | src/app/consts.ts:156-157 | the exported builder is defined exactly when `currentConfig` is an entry; its link then gives back the id under that network's template |
| AppConsts.Exports.GetBitcoinAddressExplorerUrl | src/app/consts.ts:158-159 | defined exactly for an entry; its link then gives back the address under that network's template |
| AppConsts.Exports.GetStacksAddressExplorerUrl | src/app/consts.ts:160-161 | defined exactly for an entry; its link then gives back the address under that network's template |
| AppConsts.LoadModule | src/app/consts.ts:23-168 | the module loads exactly when NETWORK is an enum value or an inherited property name; it exports NETWORK and its two network names; the configuration is defined exactly for an enum value, and is then that member's |
| AppConsts.InheritedNetworkLoadsUndefined | src/app/consts.ts:150-168 | NETWORK set to an inherited property name loads the module with the testnet names and every builder and config field undefined |
| AppConsts.UnknownNetworkFailsToLoad | src/app/consts.ts:150-153 | any other NETWORK outside the enum makes the module throw while loading |
| AppConsts.DefaultNetworkIsDevnet | src/app/consts.ts:23-56 | with NETWORK unset or empty the module loads devnet, Stacks name "devnet", Bitcoin testnet, first PoX-4 cycle 1 |
| AppConsts.FirstPox4Cycle | src/app/consts.ts:80-168 | once loaded with an entry, `FIRST_POX_4_CYCLE` is 84 exactly when NETWORK is "mainnet", and 1 otherwise; for an inherited name it is undefined (see `InheritedNetworkLoadsUndefined`) |
| UrlConstants.Network | src/constants/urls.ts:23-24 | NETWORK is "devnet" exactly when the variable is unset, empty or "devnet", and otherwise its value |
| UrlConstants.ParseNetwork | src/constants/urls.ts:4-9 | a NETWORK string names an enum member exactly when it equals that member's value |
| UrlConstants.GetStacksNetworkName | src/constants/urls.ts:27-38 | "testnet" exactly when the input is neither "mainnet" nor "devnet", and otherwise the input |
| UrlConstants.GetBitcoinNetworkName | src/constants/urls.ts:40-50 | Bitcoin mainnet exactly when the input is "mainnet" |
| UrlConstants.TransactionUrlTemplate | src/constants/urls.ts:60-110 | the same template as consts.ts for the network with the same value |
| UrlConstants.BitcoinAddressUrlTemplate | src/constants/urls.ts:63-113 | the same template as consts.ts for the network with the same value |
| UrlConstants.StacksAddressUrlTemplate | src/constants/urls.ts:66-116 | the same template as consts.ts for the network with the same value |
| UrlConstants.TransactionExplorerUrl | src/constants/urls.ts:60-109 | the id sits verbatim between the network's fixed prefix and suffix and can be read back |
| UrlConstants.BitcoinAddressExplorerUrl | src/constants/urls.ts:63-112 | the address sits verbatim after the network's fixed prefix and can be read back |
| UrlConstants.StacksAddressExplorerUrl | src/constants/urls.ts:66-115 | the address sits verbatim between the network's fixed prefix and suffix and can be read back |
| UrlConstants.LookupConfig | src/constants/urls.ts:58-125 | an entry exactly for the four enum values, and an inherited member exactly for the `Object.prototype` names |
| UrlConstants.Exports.GetTransactionExplorerUrl | src/constants/urls.ts:128-129 | defined exactly when `currentConfig` is an entry; its link then gives back the id |
| UrlConstants.Exports.GetBitcoinAddressExplorerUrl | src/constants/urls.ts:130-131 | defined exactly for an entry; its link then gives back the address |
| UrlConstants.Exports.GetStacksAddressExplorerUrl | src/constants/urls.ts:132-133 | defined exactly for an entry; its link then gives back the address |
| UrlConstants.LoadModule | src/constants/urls.ts:23-133 | the module loads exactly when NETWORK is an enum value or an inherited property name; the builders are defined exactly for an enum value, and are then that member's |
| UrlConstants.NetworkNamesAgreeWithAppConsts | src/constants/urls.ts:23-56 | both copies compute the same NETWORK, Stacks name and Bitcoin name for every environment |
| UrlConstants.BuildersAgreeWithAppConsts | src/constants/urls.ts:58-123 | for the same network and argument, all three builders return the same URL as those in consts.ts |
| UrlConstants.ExportsAgreeWithAppConsts | src/constants/urls.ts:125-133 | for every environment both modules load or both fail; once loaded, the exported builders are defined together and give equal URLs |
| ColumnFilter.Widget | src/app/components/Table/Filter.tsx:3-62 | no widget exactly when the custom-column check fails; range inputs exactly for `"number"`; the text input for text, select or no filter type |
| ColumnFilter.EditMin | src/app/components/Table/Filter.tsx:28-33 | the typed text becomes the min and the previous max is kept (undefined when there was no value) |
| ColumnFilter.EditMax | src/app/components/Table/Filter.tsx:42-47 | the typed text becomes the max and the previous min is kept (undefined when there was no value) |
| ColumnFilter.DisplayedMin | src/app/components/Table/Filter.tsx:25-27 | the Min input shows "" when the value or its min is undefined, else the min |
| ColumnFilter.DisplayedMax | src/app/components/Table/Filter.tsx:39-41 | the Max input shows "" when the value or its max is undefined, else the max |
| ColumnFilter.EditText | src/app/components/Table/Filter.tsx:56 | the typed string becomes the whole filter value, whatever was there |
| ColumnFilter.DisplayedText | src/app/components/Table/Filter.tsx:55 | the text input shows "" for an undefined value, else the value |
| ColumnFilter.EditMinShowsTypedKeepsMax | src/app/components/Table/Filter.tsx:24-50 | after a Min edit the Min input shows what was typed and the Max input is as before |
| ColumnFilter.EditMaxShowsTypedKeepsMin | src/app/components/Table/Filter.tsx:24-50 | after a Max edit the Max input shows what was typed and the Min input is as before |
| ColumnFilter.FirstEditLeavesOtherSideEmpty | src/app/components/Table/Filter.tsx:29-46 | editing one side of an empty filter leaves the other side undefined, shown as "" |
| ColumnFilter.EditsCommute | src/app/components/Table/Filter.tsx:28-47 | Min-then-Max and Max-then-Min edits give the same pair |
| ColumnFilter.LastEditWins | src/app/components/Table/Filter.tsx:28-47 | a second edit of the same side overrides the first |
| ColumnFilter.EditTextShowsTyped | src/app/components/Table/Filter.tsx:53-59 | after typing, the text input shows exactly what was typed |
| TableData.Truthy | src/app/components/Landing/Landing.tsx:600 | a value is falsy exactly when it is `null`, `false`, `0`, `""` or `NaN` |
| TableData.FieldTruthy | src/app/components/Landing/Landing.tsx:297 | a row field is falsy exactly when it is missing (undefined) or one of the falsy values |
| TableData.AmountStx | src/hooks/useFetchTableData.ts:22 | `amountStx` is a number exactly when `amountUstx` is present and numeric, and then it times 10^6 is `amountUstx`; otherwise NaN |
| TableData.TransformRow | src/hooks/useFetchTableData.ts:20-23 | a null row throws; any other row becomes an object with its own fields plus `amountStx`, other fields unchanged |
| TableData.TransformRows | src/hooks/useFetchTableData.ts:20-23 | the array maps row by row with the same length and order; it throws exactly when some row is null |
| TableData.TransformEntry | src/hooks/useFetchTableData.ts:19-26 | non-array entries are copied unchanged; array entries map row by row, throwing exactly when they hold a null row |
| TableData.Transformed | src/hooks/useFetchTableData.ts:17-27 | the result has exactly the snapshot's keys (other than `"__proto__"`, see Left out) with every entry transformed, or fails when some entry throws |
| TableData.TransformSnapshot | src/hooks/useFetchTableData.ts:17-27 | the `for...in` loop fills `transformedData` to exactly the transformed snapshot, or stops at the throwing entry |
| TableData.IngestionKeepsShape | src/hooks/useFetchTableData.ts:17-27 | every key other than `"__proto__"` survives (see Left out); array entries keep their length and each row is transformed in place; other entries are unchanged |
| TableData.RowGainsAmountStx | src/hooks/useFetchTableData.ts:20-23 | a row with numeric `amountUstx` u gains `amountStx` = u / 10^6 and keeps every other field |
| TableData.NullRowFailsIngestion | src/hooks/useFetchTableData.ts:17-30 | a null row in any array entry makes the whole ingestion fail |
| TableData.FetchState.constructor | src/hooks/useFetchTableData.ts:6-8 | the fetch starts with no data, loading, and no error |
| TableData.FetchState.Settle | src/hooks/useFetchTableData.ts:28-33 | loading ends false; success stores the transformed snapshot; a failed request or a null row records the error and keeps the old data |
| LandingText.ToUpper | src/app/components/Landing/Landing.tsx:684 | lower-case ASCII letters become their capitals; any other character is unchanged |
| LandingText.SpaceBeforeCapitals | src/app/components/Landing/Landing.tsx:683 | the result is one character longer per capital; a non-capital first character stays first |
| LandingText.CapitalizeFirst | src/app/components/Landing/Landing.tsx:684 | only the first character changes, to its upper case |
| LandingText.TabLabel | src/app/components/Landing/Landing.tsx:682-684 | the label is one character longer per capital of the key; a key starting in lower case starts its label with that letter upper-cased |
| LandingText.SpacesAreTheOnlyInsertion | src/app/components/Landing/Landing.tsx:683 | deleting spaces from the spaced form gives back the key with its own spaces deleted |
| LandingText.EveryCapitalFollowsASpace | src/app/components/Landing/Landing.tsx:683 | every capital of the spaced form has a space right before it |
| LandingText.NoCapitalsUnspaced | src/app/components/Landing/Landing.tsx:683 | a key without capitals gets no space |
| LandingText.TabLabelOfCamelCase | src/app/components/Landing/Landing.tsx:682-684 | for a camelCase key: length grows by the capitals, first letter upper-cased, each capital preceded by a space, nothing else inserted |
| LandingText.TwoWordLabel | src/app/components/Landing/Landing.tsx:682-684 | "wordWord" reads "Word Word" |
| LandingText.OneWordLabel | src/app/components/Landing/Landing.tsx:682-684 | a lower-case word gets only its first letter capitalised |
| LandingText.TabLabelAcceptedDelegations | src/app/components/Landing/Landing.tsx:682-684 | "acceptedDelegations" reads "Accepted Delegations" |
| LandingText.TabLabelPendingTransactions | src/app/components/Landing/Landing.tsx:682-684 | "pendingTransactions" reads "Pending Transactions" |
| LandingText.TabLabelPreviousDelegations | src/app/components/Landing/Landing.tsx:682-684 | "previousDelegations" reads "Previous Delegations" |
| LandingText.TabLabelCommittedDelegations | src/app/components/Landing/Landing.tsx:682-684 | "committedDelegations" reads "Committed Delegations" |
| LandingText.TabLabelDelegations | src/app/components/Landing/Landing.tsx:682-684 | "delegations" reads "Delegations" |
| LandingText.CapitalFirstKeyGetsLeadingSpace | src/app/components/Landing/Landing.tsx:682-684 | a key starting with a capital gets a leading space, and the capital follows it |
| LandingText.SliceHead | src/app/components/Landing/Landing.tsx:298 | `slice(0, n)` is the prefix of length n, or the whole string when shorter |
| LandingText.SliceTail | src/app/components/Landing/Landing.tsx:298 | `slice(-n)` is the suffix of length n, or the whole string when shorter |
| LandingText.Shorten | src/app/components/Landing/Landing.tsx:298 | with k = min(3, length): the first k characters, then "...", then the last k characters |
| LandingText.ShortenedWidth | src/app/components/Landing/Landing.tsx:298 | any value of at least three characters is shown in nine |
| LandingText.ShortValueShownTwice | src/app/components/Landing/Landing.tsx:324-327 | a value of at most three characters appears twice, around the dots |
| LandingText.ShortenLosesTheMiddle | src/app/components/Landing/Landing.tsx:298 | two different addresses can be shown identically |
| LandingText.AddressText | src/app/components/Landing/Landing.tsx:296-298 | the text is "" exactly for a falsy or missing field; a non-empty string shows shortened; any other value throws |
| LandingText.TxidText | src/app/components/Landing/Landing.tsx:355-356 | a string id shows shortened ("..." when empty); a missing, `null` or other non-string id throws |
| LandingPage.TabsOfColumnsMap | src/app/components/Landing/Landing.tsx:667 | the tab bar lists exactly the keys of `columnsMap`, and the default tab is one of them |
| LandingPage.TabColumnKeys | src/app/components/Landing/Landing.tsx:289-597 | the column keys of all five tabs; delegations and previous delegations have those of accepted delegations |
| LandingPage.StacksAddressCell | src/app/components/Landing/Landing.tsx:295-309 | blank exactly for a falsy or missing stacker; a link exactly for a non-empty string with the builder defined, showing the shortened address and linking to a URL the stacker can be read back from; a render error otherwise |
| LandingPage.BitcoinAddressCell | src/app/components/Landing/Landing.tsx:321-338 | blank exactly for a falsy or missing PoX address; a link exactly for a non-empty string with the builder defined, to its mempool page; a render error otherwise |
| LandingPage.TransactionCell | src/app/components/Landing/Landing.tsx:354-367 | never blank; a link exactly for a string id with the builder defined, with the shortened id ("..." when empty) and a URL the id can be read back from; a render error otherwise |
| LandingPage.AllVisible | src/app/components/Landing/Landing.tsx:271-274 | a first entry has exactly the tab's column keys, all shown |
| LandingPage.BuildInitialVisibility | src/app/components/Landing/Landing.tsx:270-274 | the `forEach` builds exactly the all-shown entry of the tab's columns |
| LandingPage.Toggled | src/app/components/Landing/Landing.tsx:652-656 | the key is negated (an absent key becomes shown); every other key is unchanged and none is removed |
| LandingPage.ToggleTwiceRestores | src/app/components/Landing/Landing.tsx:649-657 | toggling a key the entry holds twice gives back the entry |
| LandingPage.ToggleAbsentKey | src/app/components/Landing/Landing.tsx:654-655 | toggling an absent key shows it, and a second toggle hides it rather than removing it |
| LandingPage.Landing.constructor | src/app/components/Landing/Landing.tsx:255-261 | the page opens on "acceptedDelegations" with no visibility entries, loading |
| LandingPage.Landing.InitActiveTabVisibility | src/app/components/Landing/Landing.tsx:268-280 | an existing entry is left untouched; a missing one is created all shown; no other tab changes |
| LandingPage.Landing.SelectTab | src/app/components/Landing/Landing.tsx:670-674 | a tab click moves only the active-tab pointer |
| LandingPage.Landing.ToggleColumn | src/app/components/Landing/Landing.tsx:649-657 | only the active tab's entry changes, by toggling that key; with no entry the handler throws and nothing changes |
| LandingPage.Landing.SetColumnVisibility | src/app/components/Landing/Landing.tsx:608-612 | the table callback replaces only the active tab's entry |
| LandingPage.Landing.FetchCompleted | src/app/components/Landing/Landing.tsx:84-115 | loading ends; a snapshot that transforms becomes `data`; a null row or a failed request records its error and keeps the old data; the tab state is unchanged |
| LandingPage.Landing.RenderTable | src/app/components/Landing/Landing.tsx:599-616 | a table exactly when data has loaded, holds a truthy entry for the active tab, and the tab has a visibility entry; then it gets that tab's columns, rows and entry |
| LandingPage.Landing.View | src/app/components/Landing/Landing.tsx:618-690 | "Loading..." exactly while loading; after that the error if any; otherwise the tab bar in `columnsMap` order and `renderTable`'s table |
| LandingPage.TogglesSurviveTabSwitch | src/app/components/Landing/Landing.tsx:268-280 | hiding the stacker column, visiting another tab and coming back gives the default tab's all-shown entry with only the stacker column hidden |

## Left out

- `formatNumber` (`Intl.NumberFormat`, locale and float formatting): an amount column only records that its cell is formatted.
- Floating point: `amountUstx / 10 ** 6` is exact real division; double rounding is not modelled.
- TableData.Transformed, TableData.TransformSnapshot, TableData.IngestionKeepsShape: a snapshot key `"__proto__"` is kept as an own key here. In JavaScript, `transformedData["__proto__"] = …` calls the inherited prototype setter and stores no key. An object or array entry becomes the prototype of `data`, so `data[tab]` can then find an inherited, untransformed entry. A primitive entry is dropped. "Every key" in these contracts is therefore every key except `"__proto__"` in the source.
- TableData.AmountStx: a string or array `amountUstx` gives NaN here. JavaScript would turn a numeric string, `[]` or a one-element array into a number.
- TableData.TransformRow: spreading a string or array row would copy its index keys; here such a row contributes no fields.
- TableData.FetchState.Settle: the null-row error's message is V8's wording; other engines word it differently.
- A response body that is not an object (an array, a string, `null`) is not modelled; the body is a map from category to entry.
- The table itself (`useReactTable`): row filtering by the filter values, sorting, header rendering and visible-cell selection belong to the table library, which is not part of this model.
- Per-tab filter and sorting state: the page does not keep them, and the code that would is not part of this model.
- The table library's functional-updater form of `setColumnVisibility` is not modelled; the callback takes the new entry itself.
- LandingPage.Landing.ToggleColumn: with no entry for the active tab, JavaScript throws inside the state updater and the page fails. Here the handler reports `ok == false` and leaves the state unchanged.
- LandingPage.Landing.View: the tab bar is given by its keys, each displayed as `TabLabel(key)`. `Loading...`, the `Error:` text and the tab bar are modelled; the rest of the markup, CSS and the emoji sort icons are not.
- The show/hide button of the column settings panel and the checkboxes' `checked` binding (UI state).
- The `isCustomColumn` structural check is a boolean input to `ColumnFilter.Widget`.
- ColumnFilter.EditMin: a filter value of the other column kind (a string in a number column) cannot be represented, because each column keeps its own kind of value.
- LandingText.AddressText, LandingPage.StacksAddressCell, LandingPage.BitcoinAddressCell: an array-valued field has its own `slice` and would render as its joined text; it is modelled as a throw, like every other truthy non-string.
- LandingText.TxidText, LandingPage.TransactionCell: an array-valued id is modelled as a throw as well. Arrays have `slice`, and the source renders a link built from the joined array.
- LandingText.Shorten: JavaScript's `slice` counts UTF-16 code units; here it counts characters, which differ only outside the Basic Multilingual Plane.
- LandingText.ToUpper: only ASCII letters are upper-cased; the tab keys are ASCII.
- `Landing.tsx` repeats `fetchTableData`, `Filter`, `isCustomColumn` and a table component. `fetchTableData` and `Filter` are modelled once; `isCustomColumn` is an input, and the table component is left out.
- The session scenario does not toggle on the second tab. That other tabs are untouched is part of `ToggleColumn`'s contract.
- I/O: `axios.get`, `dotenv`/`process.env` (the `Env` parameter), `console.log`, and React's render and effect scheduling.
- `src/app/components/Navbar/Navbar.tsx` and `src/app/components/Table/TableComponent.tsx` are not part of this model.
