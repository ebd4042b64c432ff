/** The "max using time a day" filter shown as a popup: its stricter
    query-string codec, the initial values it derives from the URL, and its
    `isOpen` flag driven by the label button, the form's buttons, outside
    clicks and the Escape key. */
module MaxUsingTimeADayFilterPopup {

  import opened Wrappers
  import opened RangeCodec
  import opened JsNumbers
  import JsValues

  const DEFAULT_QUERY_PARAM_NAME := "pub_maxUsingTimeADay"
  const KEY_CODE_ESCAPE := 27

  /** `getMaxUsingTimeADayQueryParamName` */
  function QueryParamName(p: ParamNames): (r: Option<string>)
    ensures p.NameList? && |p.names| > 0 ==> r == Some(p.names[0])
    ensures p.NameList? && |p.names| == 0 ==> r == None
    ensures p.SingleName? ==> r == Some(p.name)
    ensures p.NoNames? ==> r == Some(DEFAULT_QUERY_PARAM_NAME)
  {
    ResolveParamName(p, DEFAULT_QUERY_PARAM_NAME)
  }

  /** `parse`: a range only when the value is non-empty and has a second
      part after a comma. */
  function Parse(range: Option<string>): (r: Option<Range>)
    ensures r.Some? <==> JsValues.IsTruthyText(range) && ',' in range.value
    ensures r.Some? ==> !IsNullish(r.value.minTime) && !IsNullish(r.value.maxTime)
    ensures r.Some? ==> (r.value.minTime, r.value.maxTime) == Pieces(range)
  {
    var (minTime, maxTime) := Pieces(range);
    if JsValues.IsTruthyText(range) && !IsNullish(minTime) && !IsNullish(maxTime) then
      Some(Range(minTime, maxTime))
    else
      None
  }

  /** `format`: nothing at all (`undefined`) when the bounds are strictly
      equal, which includes two missing bounds; otherwise the parameter,
      `null` when one bound is missing. */
  function Format(range: Option<Range>, name: Option<string>): (q: Option<QueryParam>)
    ensures q.None? <==> StrictEquals(BoundsOf(range).0, BoundsOf(range).1)
    ensures q.Some? ==> q.value.name == PropertyKey(name)
    ensures q.Some? ==>
              (q.value.value.None? <==> IsNullish(BoundsOf(range).0) || IsNullish(BoundsOf(range).1))
    ensures q.Some? && q.value.value.Some? ==>
              q.value.value.value == ToText(BoundsOf(range).0) + "," + ToText(BoundsOf(range).1)
  {
    var (minTime, maxTime) := BoundsOf(range);
    if !StrictEquals(minTime, maxTime) then
      var value := if !IsNullish(minTime) && !IsNullish(maxTime)
                   then Some(ToText(minTime) + "," + ToText(maxTime)) else None;
      Some(QueryParam(PropertyKey(name), value))
    else
      None
  }

  /** A single number is not a range here. */
  lemma ParseSingle(a: int)
    ensures Parse(Some(IntToText(a))) == None
  {
  }

  /** "a,b" parses to exactly those bounds, a zero maximum included. */
  lemma ParsePair(a: int, b: int)
    ensures Parse(Some(IntToText(a) + "," + IntToText(b))) == Some(Range(Num(a), Num(b)))
  {
    PiecesOfPair(a, b);
  }

  /** Distinct integer bounds survive `format` and then `parse`. */
  lemma {:induction false} ParseFormat(a: int, b: int, name: Option<string>)
    requires a != b
    ensures Format(Some(Range(Num(a), Num(b))), name).Some?
    ensures Parse(Format(Some(Range(Num(a), Num(b))), name).value.value) == Some(Range(Num(a), Num(b)))
  {
    ParsePair(a, b);
  }

  /** Equal bounds, and no range at all, submit nothing. */
  lemma FormatEqualOrNull(a: int, name: Option<string>)
    ensures Format(Some(Range(Num(a), Num(a))), name) == None
    ensures Format(None, name) == None
  {
  }

  /** "a,b" with distinct bounds survives `parse` and then `format`. */
  lemma {:induction false} FormatParse(a: int, b: int, name: Option<string>)
    requires a != b
    ensures Format(Parse(Some(IntToText(a) + "," + IntToText(b))), name) ==
              Some(QueryParam(PropertyKey(name), Some(IntToText(a) + "," + IntToText(b))))
  {
    ParsePair(a, b);
  }

  /** `initialValues[name]` when `initialValues` is set and that value is
      truthy. */
  function InitialParam(initialValues: Option<map<string, string>>, name: Option<string>): (v: Option<string>)
    ensures v.Some? ==> v.value != ""
    ensures v.Some? <==> initialValues.Some? && PropertyKey(name) in initialValues.value
                         && initialValues.value[PropertyKey(name)] != ""
  {
    if initialValues.Some? then
      match JsValues.Lookup(initialValues.value, PropertyKey(name))
      case Some(v) => if v != "" then Some(v) else None
      case None => None
    else None
  }

  /** The bounds parsed from the URL; `{}` when the parameter is not set. */
  function InitialBounds(initialValues: Option<map<string, string>>, name: Option<string>): (b: (Bound, Bound))
    ensures InitialParam(initialValues, name).None? ==> b == (Undefined, Undefined)
  {
    var v := InitialParam(initialValues, name);
    if v.Some? then BoundsOf(Parse(v)) else (Undefined, Undefined)
  }

  predicate HasInitialValues(initialValues: Option<map<string, string>>, name: Option<string>) {
    var b := InitialBounds(initialValues, name);
    initialValues.Some? && !IsNullish(b.0) && !IsNullish(b.1)
  }

  /** The filter counts as set exactly when the parameter is a non-empty
      value holding a comma. */
  lemma HasInitialValuesIffRange(initialValues: Option<map<string, string>>, name: Option<string>)
    ensures HasInitialValues(initialValues, name) <==>
              InitialParam(initialValues, name).Some? && ',' in InitialParam(initialValues, name).value
  {
  }

  function FormInitialValues(initialValues: Option<map<string, string>>, name: Option<string>,
                             min: int, max: int): (r: Range)
    ensures HasInitialValues(initialValues, name) ==> Some(r) == Parse(InitialParam(initialValues, name))
    ensures !HasInitialValues(initialValues, name) ==> r == Range(Num(min), Num(max))
  {
    if HasInitialValues(initialValues, name) then
      var b := InitialBounds(initialValues, name);
      Range(b.0, b.1)
    else
      Range(Num(min), Num(max))
  }

  function Label(initialValues: Option<map<string, string>>, name: Option<string>,
                 labelProp: Option<string>): (t: LabelText)
    ensures t.SelectedLabel? <==> HasInitialValues(initialValues, name)
    ensures t.SelectedLabel? ==>
              Some(Range(t.minTime, t.maxTime)) == Parse(InitialParam(initialValues, name))
  {
    FilterLabel(HasInitialValues(initialValues, name), InitialBounds(initialValues, name), labelProp)
  }

  /** The component: its props and its one piece of state. */
  class Filter {
    const queryParamNames: ParamNames
    const initialValues: Option<map<string, string>>
    var isOpen: bool

    constructor(queryParamNames: ParamNames, initialValues: Option<map<string, string>>)
      ensures this.queryParamNames == queryParamNames && this.initialValues == initialValues
      ensures !isOpen
    {
      this.queryParamNames := queryParamNames;
      this.initialValues := initialValues;
      isOpen := false;
    }

    /** `toggleOpen(enforcedState)`: a truthy argument is written as the
        new state; `undefined` and `false` both flip it. */
    method ToggleOpen(enforcedState: Option<bool>)
      modifies this
      ensures enforcedState == Some(true) ==> isOpen
      ensures enforcedState != Some(true) ==> isOpen == !old(isOpen)
    {
      if enforcedState == Some(true) {
        isOpen := true;
      } else {
        isOpen := !isOpen;
      }
    }

    /** Submitting the form closes the popup and submits `format(values)`. */
    method HandleSubmit(values: Option<Range>) returns (submitted: Option<QueryParam>)
      modifies this
      ensures !isOpen
      ensures submitted == Format(values, QueryParamName(queryParamNames))
    {
      isOpen := false;
      submitted := Format(values, QueryParamName(queryParamNames));
    }

    /** Clearing closes the popup and submits `format(null)`, which is
        `undefined`. */
    method HandleClear() returns (submitted: Option<QueryParam>)
      modifies this
      ensures !isOpen
      ensures submitted.None?
    {
      isOpen := false;
      submitted := Format(None, QueryParamName(queryParamNames));
    }

    /** Cancelling closes the popup and resubmits the initial values. */
    method HandleCancel() returns (submitted: Option<map<string, string>>)
      modifies this
      ensures !isOpen
      ensures submitted == initialValues
    {
      isOpen := false;
      submitted := initialValues;
    }

    /** A click outside closes the popup. */
    method HandleBlur()
      modifies this
      ensures !isOpen
    {
      isOpen := false;
    }

    /** Escape calls `toggleOpen(false)`, which flips the state: it opens a
        closed popup. Other keys change nothing. */
    method HandleKeyDown(keyCode: int)
      modifies this
      ensures keyCode == KEY_CODE_ESCAPE ==> isOpen == !old(isOpen)
      ensures keyCode != KEY_CODE_ESCAPE ==> isOpen == old(isOpen)
    {
      if keyCode == KEY_CODE_ESCAPE {
        ToggleOpen(Some(false));
      }
    }
  }
}
