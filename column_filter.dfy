/**
 * The filter widget under each column header. A number column shows a Min and a Max input over a
 * `[min, max]` pair; every other column shows one text input. The table library stores the filter value;
 * here each edit is a function from the previous value to the new one, and each input's displayed text a
 * function of the current value.
 */
module ColumnFilter {
  import opened Wrappers

  /** The `filterType` a column definition may carry. */
  datatype FilterType = TextFilter | NumberFilter | SelectFilter

  /** What the widget renders for a column. */
  datatype FilterWidget = NoWidget | RangeInputs | TextInput

  /** A column that fails the custom-column check gets no widget; only `"number"` gets the two range inputs. */
  function Widget(isCustomColumn: bool, filterType: Option<FilterType>): (w: FilterWidget)
    ensures w == NoWidget <==> !isCustomColumn
    ensures w == RangeInputs <==> isCustomColumn && filterType == Some(NumberFilter)
    ensures w == TextInput <==> isCustomColumn && filterType != Some(NumberFilter)
  {
    if !isCustomColumn then NoWidget
    else if filterType == Some(NumberFilter) then RangeInputs
    else TextInput
  }

  /** The `[min, max]` pair of a number column. The inputs store what was typed, so both sides are strings,
      and a side that has never been edited is `undefined`. */
  datatype Range = Range(min: Option<string>, max: Option<string>)

  /** `old?.[0]` */
  function MinOf(v: Option<Range>): Option<string> {
    match v
    case Some(r) => r.min
    case None => None
  }

  /** `old?.[1]` */
  function MaxOf(v: Option<Range>): Option<string> {
    match v
    case Some(r) => r.max
    case None => None
  }

  /** The Min input's updater: the typed text becomes the minimum; the maximum is carried over. */
  function EditMin(prev: Option<Range>, typed: string): (r: Range)
    ensures r.min == Some(typed)
    ensures r.max == MaxOf(prev)
    ensures prev == None ==> r.max == None
  {
    Range(Some(typed), MaxOf(prev))
  }

  /** The Max input's updater: the typed text becomes the maximum; the minimum is carried over. */
  function EditMax(prev: Option<Range>, typed: string): (r: Range)
    ensures r.max == Some(typed)
    ensures r.min == MinOf(prev)
    ensures prev == None ==> r.min == None
  {
    Range(MinOf(prev), Some(typed))
  }

  /** The Min input's text: `value?.[0] ?? ""`. */
  function DisplayedMin(v: Option<Range>): (s: string)
    ensures MinOf(v) == None ==> s == ""
    ensures MinOf(v) != None ==> s == MinOf(v).value
  {
    MinOf(v).GetOr("")
  }

  /** The Max input's text: `value?.[1] ?? ""`. */
  function DisplayedMax(v: Option<Range>): (s: string)
    ensures MaxOf(v) == None ==> s == ""
    ensures MaxOf(v) != None ==> s == MaxOf(v).value
  {
    MaxOf(v).GetOr("")
  }

  /** The text input's updater ignores the previous value: the typed string is the whole new filter value. */
  function EditText(prev: Option<string>, typed: string): (r: Option<string>)
    ensures r == Some(typed)
  {
    Some(typed)
  }

  /** The text input's text: `value ?? ""`. */
  function DisplayedText(v: Option<string>): (s: string)
    ensures v == None ==> s == ""
    ensures v != None ==> s == v.value
  {
    v.GetOr("")
  }

  /** After editing Min, the Min input shows what was typed and the Max input shows what it showed before. */
  lemma EditMinShowsTypedKeepsMax(prev: Option<Range>, typed: string)
    ensures DisplayedMin(Some(EditMin(prev, typed))) == typed
    ensures DisplayedMax(Some(EditMin(prev, typed))) == DisplayedMax(prev)
  {
  }

  /** After editing Max, the Max input shows what was typed and the Min input shows what it showed before. */
  lemma EditMaxShowsTypedKeepsMin(prev: Option<Range>, typed: string)
    ensures DisplayedMax(Some(EditMax(prev, typed))) == typed
    ensures DisplayedMin(Some(EditMax(prev, typed))) == DisplayedMin(prev)
  {
  }

  /** Editing one side of an empty filter leaves the other side undefined, so that input shows "". */
  lemma FirstEditLeavesOtherSideEmpty(typed: string)
    ensures EditMin(None, typed) == Range(Some(typed), None) && DisplayedMax(Some(EditMin(None, typed))) == ""
    ensures EditMax(None, typed) == Range(None, Some(typed)) && DisplayedMin(Some(EditMax(None, typed))) == ""
  {
  }

  /** The two sides are independent: editing Min then Max gives the same pair as Max then Min. */
  lemma EditsCommute(prev: Option<Range>, lo: string, hi: string)
    ensures EditMax(Some(EditMin(prev, lo)), hi) == EditMin(Some(EditMax(prev, hi)), lo) == Range(Some(lo), Some(hi))
  {
  }

  /** Only the last edit of a side counts. */
  lemma LastEditWins(prev: Option<Range>, first: string, second: string)
    ensures EditMin(Some(EditMin(prev, first)), second) == EditMin(prev, second)
    ensures EditMax(Some(EditMax(prev, first)), second) == EditMax(prev, second)
  {
  }

  /** Whatever the text filter held, it now shows exactly what was typed. */
  lemma EditTextShowsTyped(prev: Option<string>, typed: string)
    ensures DisplayedText(EditText(prev, typed)) == typed
  {
  }
}
