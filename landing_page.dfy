/**
 * The dashboard page: one tab per record category, each with a fixed column schema. The page keeps, for the
 * whole session, a map from tab to that tab's column visibility (column key to shown or hidden) and a pointer
 * to the active tab. A tab's entry is created the first time the tab is active, with every column shown;
 * the checkboxes and the table replace only the active tab's entry.
 */
module LandingPage {
  import opened Wrappers
  import opened LandingText
  import opened ColumnFilter
  import opened TableData
  import AppConsts

  /**
   * How a column renders its cells. Each link kind names the cell function below that renders it; the
   * tie is by name only, since the table library that applies a column's `cell` is not part of this model.
   */
  datatype CellKind =
    | DefaultCell          // no `cell`: the table shows the raw value
    | ValueCell            // `cell: ({ getValue }) => getValue()`
    | StacksAddressLink    // rendered by StacksAddressCell
    | BitcoinAddressLink   // rendered by BitcoinAddressCell
    | TransactionLink      // rendered by TransactionCell
    | FormattedAmount      // `formatNumber` of the value

  /** A column definition: header text, the row field it shows, its filter and its rendering. */
  datatype ColumnDef = ColumnDef(header: string, accessorKey: string, filterType: FilterType, cell: CellKind)

  const StackerColumn := ColumnDef("Stacker", "stacker", TextFilter, StacksAddressLink)
  const StartCycleColumn := ColumnDef("Start Cycle", "startCycle", NumberFilter, DefaultCell)
  const EndCycleColumn := ColumnDef("End Cycle", "endCycle", NumberFilter, DefaultCell)
  const PoxAddressColumn := ColumnDef("POX Address", "poxAddress", TextFilter, BitcoinAddressLink)
  const AmountStxColumn := ColumnDef("Amount STX", "amountStx", NumberFilter, FormattedAmount)
  const TransactionIdColumn := ColumnDef("Transaction ID", "txid", TextFilter, TransactionLink)
  const FunctionNameColumn := ColumnDef("Function Name", "functionName", TextFilter, ValueCell)
  const RewardCycleColumn := ColumnDef("Reward Cycle", "rewardCycle", NumberFilter, DefaultCell)
  const RewardIndexColumn := ColumnDef("Reward Index", "rewardIndex", NumberFilter, DefaultCell)

  /** The tabs, in the order the tab bar lists them (the key order of `columnsMap`). */
  const TAB_ORDER: seq<string> :=
    ["acceptedDelegations", "pendingTransactions", "delegations", "previousDelegations", "committedDelegations"]

  /** The tab the page opens on. */
  const DEFAULT_TAB: string := "acceptedDelegations"

  /** `columnsMap`: each tab's columns, in display order. */
  const COLUMNS_MAP: map<string, seq<ColumnDef>> := map[
    "acceptedDelegations" := [StackerColumn, StartCycleColumn, EndCycleColumn, PoxAddressColumn, AmountStxColumn],
    "pendingTransactions" := [TransactionIdColumn, FunctionNameColumn, StackerColumn, PoxAddressColumn,
      StartCycleColumn, EndCycleColumn, RewardCycleColumn, RewardIndexColumn],
    "delegations" := [StackerColumn, StartCycleColumn, EndCycleColumn, PoxAddressColumn, AmountStxColumn],
    "previousDelegations" := [StackerColumn, StartCycleColumn, EndCycleColumn, PoxAddressColumn, AmountStxColumn],
    "committedDelegations" := [PoxAddressColumn, StartCycleColumn, EndCycleColumn, AmountStxColumn, RewardIndexColumn]
  ]

  /** The tab bar lists exactly the tabs of `columnsMap`, the default tab among them. */
  lemma TabsOfColumnsMap()
    ensures COLUMNS_MAP.Keys == set t | t in TAB_ORDER
    ensures DEFAULT_TAB in COLUMNS_MAP
  {
  }

  /** What a cell renders: nothing, a link (its target and its text), or a TypeError that aborts the render. */
  datatype Cell = Blank | Link(href: string, text: string) | RenderError

  /**
   * The stacker cell, from the row's `stacker` field and the loaded constants: nothing for a falsy value,
   * the shortened address linking to its explorer page for a non-empty string, and a throw otherwise (a
   * truthy non-string has no `slice`, and an undefined builder cannot be called).
   */
  function StacksAddressCell(consts: AppConsts.Exports, stacker: Option<Value>): (c: Cell)
    ensures c == Blank <==> !FieldTruthy(stacker)
    ensures c.Link? <==> stacker.Some? && stacker.value.Str? && stacker.value.s != "" && consts.currentConfig.Entry?
    ensures c.Link? ==> c.text == Shorten(stacker.value.s)
    ensures c.Link? ==> AppConsts.StacksAddressUrlTemplate(consts.currentConfig.entryNetwork).Match(c.href) == Some(stacker.value.s)
  {
    match AddressText(stacker)
    case None => RenderError
    case Some(text) =>
      if text == "" then Blank
      else match consts.GetStacksAddressExplorerUrl(stacker.value.s)
        case None => RenderError
        case Some(href) => Link(href, text)
  }

  /** The PoX address cell: as the stacker cell, linking to the address's mempool page. */
  function BitcoinAddressCell(consts: AppConsts.Exports, poxAddress: Option<Value>): (c: Cell)
    ensures c == Blank <==> !FieldTruthy(poxAddress)
    ensures c.Link? <==>
      poxAddress.Some? && poxAddress.value.Str? && poxAddress.value.s != "" && consts.currentConfig.Entry?
    ensures c.Link? ==> c.text == Shorten(poxAddress.value.s)
    ensures c.Link? ==>
      AppConsts.BitcoinAddressUrlTemplate(consts.currentConfig.entryNetwork).Match(c.href) == Some(poxAddress.value.s)
  {
    match AddressText(poxAddress)
    case None => RenderError
    case Some(text) =>
      if text == "" then Blank
      else match consts.GetBitcoinAddressExplorerUrl(poxAddress.value.s)
        case None => RenderError
        case Some(href) => Link(href, text)
  }

  /**
   * The transaction cell has no emptiness check: every string id is a link, an empty one with text "...";
   * any other value, a missing one included, throws at `txid.slice`.
   */
  function TransactionCell(consts: AppConsts.Exports, txid: Option<Value>): (c: Cell)
    ensures c.Link? <==> txid.Some? && txid.value.Str? && consts.currentConfig.Entry?
    ensures !c.Blank?
    ensures c.Link? ==> c.text == Shorten(txid.value.s)
    ensures c.Link? ==> AppConsts.TransactionUrlTemplate(consts.currentConfig.entryNetwork).Match(c.href) == Some(txid.value.s)
    ensures c.Link? && txid.value.s == "" ==> c.text == "..."
  {
    match TxidText(txid)
    case None => RenderError
    case Some(text) =>
      match consts.GetTransactionExplorerUrl(txid.value.s)
      case None => RenderError
      case Some(href) => Link(href, text)
  }

  /** The column keys of a schema. */
  function AccessorKeys(columns: seq<ColumnDef>): set<string> {
    set i | 0 <= i < |columns| :: columns[i].accessorKey
  }

  /** The visibility a tab starts with: every column key of its schema, all shown. */
  function AllVisible(columns: seq<ColumnDef>): (visibility: map<string, bool>)
    ensures visibility.Keys == AccessorKeys(columns)
    ensures forall key :: key in visibility ==> visibility[key]
  {
    map key | key in AccessorKeys(columns) :: true
  }

  lemma AccessorKeysSnoc(columns: seq<ColumnDef>, i: nat)
    requires i < |columns|
    ensures AccessorKeys(columns[..i + 1]) == AccessorKeys(columns[..i]) + {columns[i].accessorKey}
  {
    var before, after := columns[..i], columns[..i + 1];
    assert after[i] == columns[i];
    forall key | key in AccessorKeys(after) ensures key in AccessorKeys(before) + {columns[i].accessorKey} {
      var j :| 0 <= j < |after| && after[j].accessorKey == key;
      if j < i { assert before[j] == after[j]; }
    }
    forall key | key in AccessorKeys(before) ensures key in AccessorKeys(after) {
      var j :| 0 <= j < |before| && before[j].accessorKey == key;
      assert after[j] == before[j];
    }
  }

  /** The `forEach` that fills `initialVisibility`: every column key of the tab set to true. */
  method BuildInitialVisibility(columns: seq<ColumnDef>) returns (initialVisibility: map<string, bool>)
    ensures initialVisibility == AllVisible(columns)
  {
    initialVisibility := map[];
    for i := 0 to |columns|
      invariant initialVisibility == AllVisible(columns[..i])
    {
      AccessorKeysSnoc(columns, i);
      initialVisibility := initialVisibility[columns[i].accessorKey := true];
    }
    assert columns[..|columns|] == columns;
  }

  /** The checkbox handler's new entry: `{...entry, [key]: !entry[key]}`. A key the entry lacks reads as
      `undefined`, so its negation is true. */
  function Toggled(entry: map<string, bool>, key: string): (r: map<string, bool>)
    ensures r.Keys == entry.Keys + {key}
    ensures r[key] == !(key in entry && entry[key])
    ensures forall k :: k in entry && k != key ==> r[k] == entry[k]
  {
    entry[key := !(key in entry && entry[key])]
  }

  /** Toggling a column that the entry holds twice gives back the entry. */
  lemma ToggleTwiceRestores(entry: map<string, bool>, key: string)
    requires key in entry
    ensures Toggled(Toggled(entry, key), key) == entry
  {
  }

  /** Toggling a column the entry lacks makes it explicitly shown, and a second toggle hides it: for such a
      key two toggles do not restore the entry. */
  lemma ToggleAbsentKey(entry: map<string, bool>, key: string)
    requires key !in entry
    ensures Toggled(entry, key)[key]
    ensures Toggled(Toggled(entry, key), key) == entry[key := false]
  {
  }

  /** What `renderTable` hands to the table: the tab's columns, its rows and its visibility entry. */
  datatype TableView = TableView(columns: seq<ColumnDef>, rows: Value, columnVisibility: map<string, bool>)

  /** What the page shows. */
  datatype Screen =
    | LoadingScreen
    | ErrorScreen(text: string)
    | TabsScreen(tabs: seq<string>, activeTab: string, table: Option<TableView>)  // each tab shown as TabLabel(tab)

  /** The page component's state: the active tab, the visibility map, and the data of its one fetch. */
  class Landing {
    var activeTab: string
    var columnVisibilityMap: map<string, map<string, bool>>
    const fetch: FetchState

    /** The active tab is a tab of the schema, and entries exist only for such tabs. */
    ghost predicate Valid()
      reads this
    {
      activeTab in COLUMNS_MAP && columnVisibilityMap.Keys <= COLUMNS_MAP.Keys
    }

    /** The first render: the default tab, no visibility entries, and the fetch still loading. */
    constructor ()
      ensures Valid()
      ensures activeTab == DEFAULT_TAB && columnVisibilityMap == map[]
      ensures fresh(fetch) && fetch.data == None && fetch.loading && fetch.error == None
    {
      activeTab := DEFAULT_TAB;
      columnVisibilityMap := map[];
      fetch := new FetchState();
    }

    /** The effect that runs whenever `activeTab` changes: create the tab's entry if it has none. An
        existing entry is left alone, so earlier toggles survive. */
    method InitActiveTabVisibility()
      requires Valid()
      modifies this
      ensures Valid()
      ensures activeTab == old(activeTab)
      ensures old(activeTab in columnVisibilityMap) ==> columnVisibilityMap == old(columnVisibilityMap)
      ensures old(activeTab !in columnVisibilityMap) ==>
        columnVisibilityMap == old(columnVisibilityMap)[activeTab := AllVisible(COLUMNS_MAP[activeTab])]
    {
      if activeTab !in columnVisibilityMap {
        var initialVisibility := BuildInitialVisibility(COLUMNS_MAP[activeTab]);
        columnVisibilityMap := columnVisibilityMap[activeTab := initialVisibility];
      }
    }

    /** A click on a tab of the tab bar: only the pointer moves. */
    method SelectTab(tab: string)
      requires Valid() && tab in COLUMNS_MAP
      modifies this
      ensures Valid()
      ensures activeTab == tab && columnVisibilityMap == old(columnVisibilityMap)
    {
      activeTab := tab;
    }

    /**
     * A click on the checkbox of column `key`: the active tab's entry gets that key negated; other tabs and
     * the pointer stay. Reading a key of a missing entry throws, which leaves the state as it was (`ok` false).
     */
    method ToggleColumn(key: string) returns (ok: bool)
      requires Valid()
      modifies this
      ensures Valid()
      ensures ok <==> old(activeTab in columnVisibilityMap)
      ensures activeTab == old(activeTab)
      ensures ok ==>
        columnVisibilityMap == old(columnVisibilityMap)[activeTab := Toggled(old(columnVisibilityMap)[activeTab], key)]
      ensures !ok ==> columnVisibilityMap == old(columnVisibilityMap)
    {
      ok := activeTab in columnVisibilityMap;
      if ok {
        columnVisibilityMap := columnVisibilityMap[activeTab := Toggled(columnVisibilityMap[activeTab], key)];
      }
    }

    /** The `setColumnVisibility` callback the table receives: the active tab's entry is replaced. */
    method SetColumnVisibility(visibility: map<string, bool>)
      requires Valid()
      modifies this
      ensures Valid()
      ensures activeTab == old(activeTab)
      ensures columnVisibilityMap == old(columnVisibilityMap)[activeTab := visibility]
    {
      columnVisibilityMap := columnVisibilityMap[activeTab := visibility];
    }

    /** The fetch settling, as `Settle` states it; the tab state is independent of it. */
    method FetchCompleted(response: Response)
      requires Valid()
      modifies fetch
      ensures Valid()
      ensures activeTab == old(activeTab) && columnVisibilityMap == old(columnVisibilityMap)
      ensures !fetch.loading
      ensures response.Received? && Transformed(response.body).Some? ==>
        fetch.data == Transformed(response.body) && fetch.error == old(fetch.error)
      ensures response.Received? && Transformed(response.body).None? ==>
        fetch.data == old(fetch.data) && fetch.error == Some(NULL_ROW_MESSAGE)
      ensures response.RequestFailed? ==> fetch.data == old(fetch.data) && fetch.error == Some(response.message)
    {
      fetch.Settle(response);
    }

    /** `renderTable`: a table only once data has loaded, holds a truthy entry for the active tab, and the
        tab has its visibility entry. */
    function RenderTable(): (t: Option<TableView>)
      reads this, fetch
      requires Valid()
      ensures t.Some? <==>
        fetch.data.Some? && activeTab in fetch.data.value && Truthy(fetch.data.value[activeTab])
        && activeTab in columnVisibilityMap
      ensures t.Some? ==> t.value.columns == COLUMNS_MAP[activeTab]
      ensures t.Some? ==> t.value.rows == fetch.data.value[activeTab]
      ensures t.Some? ==> t.value.columnVisibility == columnVisibilityMap[activeTab]
    {
      match fetch.data
      case None => None
      case Some(data) =>
        if activeTab !in data || !Truthy(data[activeTab]) || activeTab !in columnVisibilityMap then None
        else Some(TableView(COLUMNS_MAP[activeTab], data[activeTab], columnVisibilityMap[activeTab]))
    }

    /** The page: "Loading..." while loading, then the error if there is one, else the tabs and the table. */
    function View(): (s: Screen)
      reads this, fetch
      requires Valid()
      ensures fetch.loading <==> s == LoadingScreen
      ensures !fetch.loading && fetch.error.Some? <==> s.ErrorScreen?
      ensures s.ErrorScreen? ==> s.text == "Error: " + fetch.error.value
      ensures s.TabsScreen? ==> s.tabs == TAB_ORDER && s.activeTab == activeTab && s.table == RenderTable()
    {
      if fetch.loading then LoadingScreen
      else if fetch.error.Some? then ErrorScreen("Error: " + fetch.error.value)
      else TabsScreen(TAB_ORDER, activeTab, RenderTable())
    }
  }

  /** The column keys of each tab. */
  lemma TabColumnKeys()
    ensures AccessorKeys(COLUMNS_MAP["acceptedDelegations"])
         == {"stacker", "startCycle", "endCycle", "poxAddress", "amountStx"}
    ensures AccessorKeys(COLUMNS_MAP["pendingTransactions"])
         == {"txid", "functionName", "stacker", "poxAddress", "startCycle", "endCycle", "rewardCycle", "rewardIndex"}
    ensures AccessorKeys(COLUMNS_MAP["committedDelegations"])
         == {"poxAddress", "startCycle", "endCycle", "amountStx", "rewardIndex"}
    ensures AccessorKeys(COLUMNS_MAP["delegations"]) == AccessorKeys(COLUMNS_MAP["acceptedDelegations"])
    ensures AccessorKeys(COLUMNS_MAP["previousDelegations"]) == AccessorKeys(COLUMNS_MAP["acceptedDelegations"])
  {
    assert COLUMNS_MAP["delegations"] == COLUMNS_MAP["previousDelegations"] == COLUMNS_MAP["acceptedDelegations"];
    var accepted := COLUMNS_MAP["acceptedDelegations"];
    assert accepted[0].accessorKey == "stacker" && accepted[1].accessorKey == "startCycle";
    assert accepted[2].accessorKey == "endCycle" && accepted[3].accessorKey == "poxAddress";
    assert accepted[4].accessorKey == "amountStx";
    var pending := COLUMNS_MAP["pendingTransactions"];
    assert pending[0].accessorKey == "txid" && pending[1].accessorKey == "functionName";
    assert pending[2].accessorKey == "stacker" && pending[3].accessorKey == "poxAddress";
    assert pending[4].accessorKey == "startCycle" && pending[5].accessorKey == "endCycle";
    assert pending[6].accessorKey == "rewardCycle" && pending[7].accessorKey == "rewardIndex";
    var committed := COLUMNS_MAP["committedDelegations"];
    assert committed[0].accessorKey == "poxAddress" && committed[1].accessorKey == "startCycle";
    assert committed[2].accessorKey == "endCycle" && committed[3].accessorKey == "amountStx";
    assert committed[4].accessorKey == "rewardIndex";
  }

  /**
   * A session: open the page, hide the stacker column of the default tab, visit the pending transactions
   * tab (which creates its entry), then come back. The stacker column is still hidden and the others are
   * still shown.
   */
  method TogglesSurviveTabSwitch() returns (entry: map<string, bool>)
    ensures entry == AllVisible(COLUMNS_MAP[DEFAULT_TAB])["stacker" := false]
  {
    TabColumnKeys();
    var page := new Landing();
    page.InitActiveTabVisibility();
    var ok := page.ToggleColumn("stacker");
    page.SelectTab("pendingTransactions");
    page.InitActiveTabVisibility();
    page.SelectTab(DEFAULT_TAB);
    page.InitActiveTabVisibility();
    entry := page.columnVisibilityMap[DEFAULT_TAB];
  }
}
