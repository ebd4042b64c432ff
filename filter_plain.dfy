/** The "max using time a day" filter shown inline in the search panel:
    its query-string codec (`parse` / `format`), the name of the query
    parameter it writes, the initial values and label it derives from the
    URL, and its `isOpen` flag. */
module MaxUsingTimeADayFilterPlain {

  import opened Wrappers
  import opened RangeCodec
  import opened JsNumbers
  import JsValues

  const DEFAULT_QUERY_PARAM_NAME := "maxUsingTimeADay"

  /** `getMaxUsingTimeADayQueryParamName` */
  function QueryParamName(p: ParamNames): (r: Option<string>)
    ensures p.NameList? && |p.names| > 0 ==> r == Some(p.names[0])
    ensures p.NameList? && |p.names| == 0 ==> r == None
    ensures p.SingleName? ==> r == Some(p.name)
    ensures p.NoNames? ==> r == Some(DEFAULT_QUERY_PARAM_NAME)
  {
    ResolveParamName(p, DEFAULT_QUERY_PARAM_NAME)
  }

  /** `parse`: "min,max" or a bare "n". A falsy maximum (missing, 0 or
      NaN) collapses the range onto the minimum. */
  function Parse(range: Option<string>): (r: Option<Range>)
    ensures r.None? <==> !JsValues.IsTruthyText(range)
    ensures r.Some? ==> !IsNullish(r.value.minTime) && !IsNullish(r.value.maxTime)
    ensures r.Some? ==> r.value.minTime == ParseInt(Split(range.value)[0])
    ensures r.Some? ==> IsTruthy(r.value.maxTime) || r.value.maxTime == r.value.minTime
    ensures r.Some? ==> r.value.minTime == Pieces(range).0
    ensures r.Some? && IsTruthy(Pieces(range).1) ==> r.value.maxTime == Pieces(range).1
    ensures r.Some? && !IsTruthy(Pieces(range).1) ==> r.value.maxTime == Pieces(range).0
  {
    var (minTime, maxTime) := Pieces(range);
    if !IsTruthy(maxTime) then
      if JsValues.IsTruthyText(range) && !IsNullish(minTime) then Some(Range(minTime, minTime)) else None
    else if JsValues.IsTruthyText(range) && !IsNullish(minTime) && !IsNullish(maxTime) then
      Some(Range(minTime, maxTime))
    else
      None
  }

  /** `format`: equal bounds are written as one number, unequal ones as
      "min,max", and a missing bound makes the value `null`. */
  function Format(range: Option<Range>, name: Option<string>): (q: QueryParam)
    ensures q.name == PropertyKey(name)
    ensures q.value.None? <==> IsNullish(BoundsOf(range).0) || IsNullish(BoundsOf(range).1)
    ensures q.value.Some? && StrictEquals(BoundsOf(range).0, BoundsOf(range).1) ==>
              q.value.value == ToText(BoundsOf(range).0)
    ensures q.value.Some? && !StrictEquals(BoundsOf(range).0, BoundsOf(range).1) ==>
              ',' in q.value.value
              && q.value.value == ToText(BoundsOf(range).0) + "," + ToText(BoundsOf(range).1)
  {
    var (minTime, maxTime) := BoundsOf(range);
    var value :=
      if IsNullish(minTime) || IsNullish(maxTime) then None
      else if !StrictEquals(minTime, maxTime) then Some(ToText(minTime) + "," + ToText(maxTime))
      else Some(ToText(minTime));
    assert value.Some? && !StrictEquals(minTime, maxTime) ==>
      value.value[|ToText(minTime)|] == ',';
    QueryParam(PropertyKey(name), value)
  }

  /** A bare decimal parses to the range with both bounds equal to it. */
  lemma ParseSingle(a: int)
    ensures Parse(Some(IntToText(a))) == Some(Range(Num(a), Num(a)))
  {
    PiecesOfSingle(a);
  }

  /** "a,b" with a non-zero maximum parses to exactly those bounds. */
  lemma ParsePair(a: int, b: int)
    requires b != 0
    ensures Parse(Some(IntToText(a) + "," + IntToText(b))) == Some(Range(Num(a), Num(b)))
  {
    PiecesOfPair(a, b);
  }

  /** "a,0" collapses onto the minimum: the maximum 0 is falsy. */
  lemma ParseZeroMaximum(a: int)
    ensures Parse(Some(IntToText(a) + ",0")) == Some(Range(Num(a), Num(a)))
  {
    ZeroText();
    PiecesOfPair(a, 0);
    assert IntToText(a) + ",0" == IntToText(a) + "," + IntToText(0);
  }

  /** `format(null, name)` is `{ [name]: null }`. */
  lemma FormatNull(name: Option<string>)
    ensures Format(None, name) == QueryParam(PropertyKey(name), None)
  {
  }

  /** `format` of two integers writes exactly their decimals. */
  lemma FormatNumbers(a: int, b: int, name: Option<string>)
    ensures Format(Some(Range(Num(a), Num(b))), name).value ==
              Some(if a == b then IntToText(a) else IntToText(a) + "," + IntToText(b))
  {
  }

  /** Whatever `format` writes for two integers, `parse` of it gives them
      back, unless the maximum is 0 and the minimum is not. */
  lemma {:induction false} ParseFormat(a: int, b: int, name: Option<string>)
    requires b != 0 || a == b
    ensures Parse(Format(Some(Range(Num(a), Num(b))), name).value) == Some(Range(Num(a), Num(b)))
  {
    FormatNumbers(a, b, name);
    if a == b {
      ParseSingle(a);
    } else {
      ParsePair(a, b);
    }
  }

  /** The round trip holds for every range of naturals with min <= max. */
  lemma ParseFormatOrdered(a: nat, b: nat, name: Option<string>)
    requires a <= b
    ensures Parse(Format(Some(Range(Num(a), Num(b))), name).value) == Some(Range(Num(a), Num(b)))
  {
    ParseFormat(a, b, name);
  }

  /** In the other direction, a canonical query value survives a parse and
      a format: the bare "n", and "a,b" with distinct bounds and a non-zero
      maximum. */
  lemma {:induction false} FormatParse(a: int, b: int, name: Option<string>)
    requires b != 0 && a != b
    ensures Format(Parse(Some(IntToText(a))), name).value == Some(IntToText(a))
    ensures Format(Parse(Some(IntToText(a) + "," + IntToText(b))), name).value ==
              Some(IntToText(a) + "," + IntToText(b))
  {
    ParseSingle(a);
    ParsePair(a, b);
    FormatNumbers(a, a, name);
    FormatNumbers(a, b, name);
  }

  /** The range parsed from the URL, `{}` when there are no initial values. */
  function InitialBounds(initialValues: Option<map<string, string>>, name: Option<string>): (b: (Bound, Bound))
    ensures initialValues.None? ==> b == (Undefined, Undefined)
    ensures initialValues.Some? ==>
              b == BoundsOf(Parse(JsValues.Lookup(initialValues.value, PropertyKey(name))))
  {
    if initialValues.None? then (Undefined, Undefined)
    else BoundsOf(Parse(JsValues.Lookup(initialValues.value, PropertyKey(name))))
  }

  predicate HasInitialValues(initialValues: Option<map<string, string>>, name: Option<string>) {
    var b := InitialBounds(initialValues, name);
    initialValues.Some? && !IsNullish(b.0) && !IsNullish(b.1)
  }

  /** The filter counts as set exactly when there are initial values and
      their parameter parses. */
  lemma HasInitialValuesIffParses(initialValues: Option<map<string, string>>, name: Option<string>)
    ensures HasInitialValues(initialValues, name) <==>
              initialValues.Some? && Parse(JsValues.Lookup(initialValues.value, PropertyKey(name))).Some?
  {
  }

  /** The form starts from the parsed range when the filter is set, and
      from the `min` / `max` props otherwise. */
  function FormInitialValues(initialValues: Option<map<string, string>>, name: Option<string>,
                             min: int, max: int): (r: Range)
    ensures HasInitialValues(initialValues, name) ==>
              Some(r) == Parse(JsValues.Lookup(initialValues.value, PropertyKey(name)))
    ensures !HasInitialValues(initialValues, name) ==> r == Range(Num(min), Num(max))
  {
    if HasInitialValues(initialValues, name) then
      var b := InitialBounds(initialValues, name);
      Range(b.0, b.1)
    else
      Range(Num(min), Num(max))
  }

  function Label(initialValues: Option<map<string, string>>, name: Option<string>,
                 labelProp: Option<string>): (t: LabelText)
    ensures t.SelectedLabel? <==> HasInitialValues(initialValues, name)
    ensures t.SelectedLabel? ==>
              Some(Range(t.minTime, t.maxTime)) == Parse(JsValues.Lookup(initialValues.value, PropertyKey(name)))
  {
    FilterLabel(HasInitialValues(initialValues, name), InitialBounds(initialValues, name), labelProp)
  }

  /** The component: its props and its one piece of state. */
  class Filter {
    const queryParamNames: ParamNames
    var isOpen: bool

    constructor(queryParamNames: ParamNames)
      ensures this.queryParamNames == queryParamNames
      ensures isOpen
    {
      this.queryParamNames := queryParamNames;
      isOpen := true;
    }

    method ToggleIsOpen()
      modifies this
      ensures isOpen == !old(isOpen)
    {
      isOpen := !isOpen;
    }

    /** What `onSubmit` receives when the form changes. */
    method HandleChange(values: Option<Range>) returns (submitted: QueryParam)
      ensures submitted == Format(values, QueryParamName(queryParamNames))
    {
      submitted := Format(values, QueryParamName(queryParamNames));
    }

    /** What `onSubmit` receives when the filter is cleared: the parameter
        with the value `null`. */
    method HandleClear() returns (submitted: QueryParam)
      ensures submitted.name == PropertyKey(QueryParamName(queryParamNames))
      ensures submitted.value.None?
    {
      submitted := Format(None, QueryParamName(queryParamNames));
    }
  }

  /** Toggling twice restores the flag. */
  method ToggleTwice(f: Filter)
    modifies f
    ensures f.isOpen == old(f.isOpen)
  {
    f.ToggleIsOpen();
    f.ToggleIsOpen();
  }
}
