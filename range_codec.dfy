/** The pieces both "max using time a day" filters share: the JavaScript
    values a range bound can hold, `String.prototype.split(',')`,
    `Number.parseInt(v, 10)`, the label choice, and how a filter resolves
    its query-parameter name. */
module RangeCodec {

  import opened Wrappers
  import JsValues
  import opened JsNumbers

  /** One bound of a range as a JavaScript value. Numbers are modelled as
      mathematical integers. */
  datatype Bound = Undefined | Null | NaN | Num(n: int)

  /** `b == null` (loose equality: true for `null` and `undefined`) */
  predicate IsNullish(b: Bound) {
    b.Undefined? || b.Null?
  }

  /** JavaScript truthiness of a bound: `NaN` and `0` are falsy. */
  predicate IsTruthy(b: Bound) {
    b.Num? && b.n != 0
  }

  /** `a === b`: `NaN` equals nothing, not even itself. */
  predicate StrictEquals(a: Bound, b: Bound) {
    !a.NaN? && a == b
  }

  /** `{ minTime, maxTime }` */
  datatype Range = Range(minTime: Bound, maxTime: Bound)

  /** `const { minTime, maxTime } = range || {};` */
  function BoundsOf(range: Option<Range>): (r: (Bound, Bound))
    ensures range.None? ==> r == (Undefined, Undefined)
    ensures range.Some? ==> r == (range.value.minTime, range.value.maxTime)
  {
    match range
    case None => (Undefined, Undefined)
    case Some(Range(a, b)) => (a, b)
  }

  /** The object `{ [name]: value }` a filter submits; `value` is a string
      or `null`. */
  datatype QueryParam = QueryParam(name: string, value: Option<string>)

  /** What a filter is given as `queryParamNames`: an array, a single
      string, or anything else. */
  datatype ParamNames = NameList(names: seq<string>) | SingleName(name: string) | NoNames

  /** `Array.isArray(p) ? p[0] : typeof p === 'string' ? p : fallback`;
      `None` is the `undefined` that `p[0]` gives for an empty array. */
  function ResolveParamName(p: ParamNames, fallback: string): (r: Option<string>)
    ensures p.NameList? && |p.names| > 0 ==> r == Some(p.names[0])
    ensures p.NameList? && |p.names| == 0 ==> r == None
    ensures p.SingleName? ==> r == Some(p.name)
    ensures p.NoNames? ==> r == Some(fallback)
  {
    match p
    case NameList(names) => if |names| > 0 then Some(names[0]) else None
    case SingleName(name) => Some(name)
    case NoNames => Some(fallback)
  }

  /** The property key a resolved name becomes in `{ [name]: ... }` or
      `values[name]`: `undefined` is converted to the string "undefined". */
  function PropertyKey(name: Option<string>): (k: string)
    ensures name.Some? ==> k == name.value
    ensures name.None? ==> k == "undefined"
  {
    match name
    case Some(n) => n
    case None => "undefined"
  }

  /** What a filter's label button shows: the "selected" message with the
      chosen bounds, else the `label` prop when truthy, else the generic
      price-filter message. */
  datatype LabelText = SelectedLabel(minTime: Bound, maxTime: Bound) | GivenLabel(text: string) | DefaultLabel

  const LABEL_SELECTED_MESSAGE := "MaxUsingTimeADayFilter.labelSelectedButton"
  const DEFAULT_LABEL_MESSAGE := "PriceFilter.label"

  function FilterLabel(hasInitialValues: bool, bounds: (Bound, Bound), labelProp: Option<string>): (t: LabelText)
    ensures hasInitialValues <==> t.SelectedLabel?
    ensures t.SelectedLabel? ==> (t.minTime, t.maxTime) == bounds
    ensures t.GivenLabel? <==> !hasInitialValues && JsValues.IsTruthyText(labelProp)
    ensures t.GivenLabel? ==> Some(t.text) == labelProp
  {
    if hasInitialValues then SelectedLabel(bounds.0, bounds.1)
    else if JsValues.IsTruthyText(labelProp) then GivenLabel(labelProp.value)
    else DefaultLabel
  }

  /** The message id a label is rendered from, if it is a message. */
  function LabelMessageId(t: LabelText): (id: Option<string>)
    ensures id.None? <==> t.GivenLabel?
  {
    match t
    case SelectedLabel(_, _) => Some(LABEL_SELECTED_MESSAGE)
    case GivenLabel(_) => None
    case DefaultLabel => Some(DEFAULT_LABEL_MESSAGE)
  }

  /** The template literal `${b}`. */
  function ToText(b: Bound): string {
    match b
    case Undefined => "undefined"
    case Null => "null"
    case NaN => "NaN"
    case Num(n) => IntToText(n)
  }

  /** `Number.parseInt(s, 10)`: skips leading whitespace, reads an optional
      sign and then the longest run of decimal digits; no digits gives
      `NaN`. */
  function ParseInt(s: string): (r: Bound)
    ensures !IsNullish(r)
  {
    ParseTrimmed(JsValues.TrimStart(s))
  }

  /** The sign and the digits at the start of an already trimmed string. */
  function ParseTrimmed(t: string): (r: Bound)
    ensures !IsNullish(r)
  {
    var signed := t != [] && (t[0] == '-' || t[0] == '+');
    var digits := DigitPrefix(if signed then t[1..] else t);
    if digits == [] then NaN
    else if signed && t[0] == '-' then Num(-(DecimalValue(digits) as int))
    else Num(DecimalValue(digits))
  }

  lemma ParseIntOfDigits(d: string)
    requires d != [] && AllDigits(d)
    ensures ParseInt(d) == Num(DecimalValue(d))
  {
    assert IsDigit(d[0]);
    JsValues.TrimStartOfNonBlank(d);
    DigitPrefixOfDigits(d);
  }

  lemma ParseIntOfNegative(d: string)
    requires d != [] && AllDigits(d)
    ensures ParseInt("-" + d) == Num(-(DecimalValue(d) as int))
  {
    var t := "-" + d;
    JsValues.TrimStartOfNonBlank(t);
    assert t[1..] == d;
    DigitPrefixOfDigits(d);
    assert ParseTrimmed(t) == Num(-(DecimalValue(d) as int));
  }

  /** `parseInt(String(n), 10) === n` for every integer. */
  lemma {:induction false} ParseIntOfText(n: int)
    ensures ParseInt(IntToText(n)) == Num(n)
  {
    var s := IntToText(n);
    if n < 0 {
      var d := NatToDecimal(-n);
      assert s == [s[0]] + s[1..];
      ParseIntOfNegative(d);
      DecimalValueOfDecimal(-n);
      assert ParseInt("-" + d) == Num(n);
    } else {
      var d := NatToDecimal(n);
      ParseIntOfDigits(d);
      DecimalValueOfDecimal(n);
      assert ParseInt(d) == Num(n);
    }
  }

  // ---------------------------------------------------------------------
  // split(',')

  /** `s.split(',')`: the maximal comma-free pieces, at least one. */
  function Split(s: string): (parts: seq<string>)
    ensures |parts| >= 1
  {
    if s == [] then [""]
    else
      var rest := Split(s[1..]);
      if s[0] == ',' then [""] + rest else [[s[0]] + rest[0]] + rest[1..]
  }

  /** The reverse of `Split`: the pieces glued back with commas. */
  function Join(parts: seq<string>): string
    requires |parts| >= 1
  {
    if |parts| == 1 then parts[0] else parts[0] + "," + Join(parts[1..])
  }

  /** Gluing a prefix onto the first piece glues it onto the joined
      string. */
  lemma JoinPrependToFirst(p: string, first: string, tail: seq<string>)
    ensures Join([p + first] + tail) == p + Join([first] + tail)
  {
    var glued := [p + first] + tail;
    var plain := [first] + tail;
    assert glued[1..] == tail && plain[1..] == tail;
    if tail != [] {
      var rest := Join(tail);
      assert (p + first) + "," + rest == p + (first + "," + rest);
    }
  }

  /** `split` loses nothing: joining its pieces gives the input back. */
  lemma {:induction false} JoinSplit(s: string)
    ensures Join(Split(s)) == s
  {
    if s != [] {
      var rest := Split(s[1..]);
      JoinSplit(s[1..]);
      if s[0] == ',' {
        assert Split(s) == [""] + rest;
        assert ([""] + rest)[1..] == rest;
        assert s == "," + s[1..];
      } else {
        assert Split(s) == [[s[0]] + rest[0]] + rest[1..];
        JoinPrependToFirst([s[0]], rest[0], rest[1..]);
        assert [rest[0]] + rest[1..] == rest;
        assert [s[0]] + s[1..] == s;
      }
    }
  }

  /** No piece of `split(',')` holds a comma. */
  lemma {:induction false} SplitPiecesCommaFree(s: string)
    ensures forall k :: 0 <= k < |Split(s)| ==> ',' !in Split(s)[k]
  {
    if s != [] {
      SplitPiecesCommaFree(s[1..]);
    }
  }

  lemma {:induction false} SplitNoComma(s: string)
    requires ',' !in s
    ensures Split(s) == [s]
  {
    if s != [] {
      SplitNoComma(s[1..]);
      assert [s[0]] + s[1..] == s;
    }
  }

  lemma {:induction false} SplitAfterFirstComma(a: string, b: string)
    requires ',' !in a
    ensures Split(a + "," + b) == [a] + Split(b)
  {
    if a == [] {
      assert a + "," + b == "," + b;
      assert ("," + b)[1..] == b;
    } else {
      var s := a + "," + b;
      assert s[1..] == a[1..] + "," + b;
      SplitAfterFirstComma(a[1..], b);
      assert [a[0]] + a[1..] == a;
    }
  }

  /** `const [minTime, maxTime] = !!r ? r.split(',').map(v => Number.parseInt(v, 10)) : [];`
      where `r` is `undefined` (`None`) or a string. */
  function Pieces(r: Option<string>): (b: (Bound, Bound))
    ensures !JsValues.IsTruthyText(r) ==> b == (Undefined, Undefined)
    ensures JsValues.IsTruthyText(r) ==> !IsNullish(b.0)
    ensures JsValues.IsTruthyText(r) ==> (b.1.Undefined? <==> ',' !in r.value)
    ensures JsValues.IsTruthyText(r) ==> b.0 == ParseInt(Split(r.value)[0])
    ensures JsValues.IsTruthyText(r) && |Split(r.value)| > 1 ==> b.1 == ParseInt(Split(r.value)[1])
  {
    if !JsValues.IsTruthyText(r) then (Undefined, Undefined)
    else
      var parts := Split(r.value);
      assert ',' !in r.value ==> parts == [r.value] by {
        if ',' !in r.value { SplitNoComma(r.value); }
      }
      assert ',' in r.value ==> |parts| >= 2 by {
        JoinSplit(r.value);
        SplitPiecesCommaFree(r.value);
      }
      (ParseInt(parts[0]), if |parts| > 1 then ParseInt(parts[1]) else Undefined)
  }

  /** The bare decimal of one integer reads back as that integer alone. */
  lemma PiecesOfSingle(a: int)
    ensures Pieces(Some(IntToText(a))) == (Num(a), Undefined)
  {
    SplitNoComma(IntToText(a));
    ParseIntOfText(a);
  }

  /** "a,b" reads back as the two integers. */
  lemma PiecesOfPair(a: int, b: int)
    ensures Pieces(Some(IntToText(a) + "," + IntToText(b))) == (Num(a), Num(b))
  {
    SplitAfterFirstComma(IntToText(a), IntToText(b));
    SplitNoComma(IntToText(b));
    ParseIntOfText(a);
    ParseIntOfText(b);
  }
}
