/** The booking form around the date-and-time field: the price guard that
    decides whether the form is shown at all, when a form change asks the
    backend for line items, the booking data the price breakdown is drawn
    from, and the submit decision that moves the focus to a missing date. */
module BookingTimeForm {

  import opened Wrappers
  import opened FieldDateAndTimeInput
  import JsValues

  datatype FocusedInput = StartDate | EndDate

  datatype Money = Money(amount: int, currency: string)

  /** What `render` shows. */
  datatype View = PriceMissing | CurrencyInvalid | ShowForm

  /** A missing price comes first; then a price in another currency than
      the marketplace's; only then the form. */
  function Guard(price: Option<Money>, marketplaceCurrency: string): (v: View)
    ensures v.PriceMissing? <==> price.None?
    ensures v.CurrencyInvalid? <==> price.Some? && price.value.currency != marketplaceCurrency
    ensures v.ShowForm? <==> price.Some? && price.value.currency == marketplaceCurrency
  {
    match price
    case None => PriceMissing
    case Some(p) => if p.currency != marketplaceCurrency then CurrencyInvalid else ShowForm
  }

  datatype BookingData = BookingData(startDate: Option<Instant>, endDate: Option<Instant>,
                                     displayStart: DisplayDate, displayEnd: DisplayDate)

  /** The argument of `onFetchTransactionLineItems`. */
  datatype FetchRequest = FetchRequest(bookingData: BookingData, listingId: string, isOwnListing: bool)

  /** `handleOnChange`: a line-items request when every one of the six
      fields is set, the two date objects are not the same one (`===`,
      decided by `identical`) and no fetch is in progress. */
  function LineItemsRequest(values: BookingValues, listingId: string, isOwnListing: bool,
                            fetchLineItemsInProgress: bool,
                            identical: (Option<Instant>, Option<Instant>) -> bool): (r: Option<FetchRequest>)
    ensures r.Some? <==>
              StartDateOf(values).Some? && EndDateOf(values).Some?
              && JsValues.IsTruthyText(values.bookingStartTime) && JsValues.IsTruthyText(values.bookingEndTime)
              && values.bookingDisplayStart.Some? && values.bookingDisplayEnd.Some?
              && !identical(StartDateOf(values), EndDateOf(values)) && !fetchLineItemsInProgress
    ensures r.Some? ==>
              r.value.bookingData == BookingData(StartDateOf(values), EndDateOf(values),
                                                 values.bookingDisplayStart.value, values.bookingDisplayEnd.value)
              && r.value.listingId == listingId && r.value.isOwnListing == isOwnListing
  {
    var startDate := StartDateOf(values);
    var endDate := EndDateOf(values);
    var isSameDate := identical(startDate, endDate);
    if startDate.Some? && endDate.Some?
       && JsValues.IsTruthyText(values.bookingStartTime) && JsValues.IsTruthyText(values.bookingEndTime)
       && values.bookingDisplayEnd.Some? && values.bookingDisplayStart.Some? && !isSameDate
       && !fetchLineItemsInProgress
    then
      Some(FetchRequest(BookingData(startDate, endDate, values.bookingDisplayStart.value,
                                    values.bookingDisplayEnd.value), listingId, isOwnListing))
    else
      None
  }

  /** The `bookingData` the breakdown is drawn from. The date fields fall
      back to `{}`, which is truthy, so only the two display dates decide
      whether there is any; a missing date shows as an absent one. */
  function BookingDataOf(values: BookingValues): (d: Option<BookingData>)
    ensures d.Some? <==> values.bookingDisplayStart.Some? && values.bookingDisplayEnd.Some?
    ensures d.Some? ==>
              d.value.startDate == StartDateOf(values) && d.value.endDate == EndDateOf(values)
              && d.value.displayStart == values.bookingDisplayStart.value
              && d.value.displayEnd == values.bookingDisplayEnd.value
  {
    if values.bookingDisplayStart.Some? && values.bookingDisplayEnd.Some? then
      Some(BookingData(DateOf(values.bookingStartDate), DateOf(values.bookingEndDate),
                       values.bookingDisplayStart.value, values.bookingDisplayEnd.value))
    else
      None
  }

  /** The breakdown shows with booking data and line items, while no fetch
      is in progress and no fetch failed. */
  predicate ShowEstimatedBreakdown(values: BookingValues, hasLineItems: bool,
                                   fetchLineItemsInProgress: bool, fetchLineItemsFailed: bool) {
    BookingDataOf(values).Some? && hasLineItems && !fetchLineItemsInProgress && !fetchLineItemsFailed
  }

  /** The breakdown needs both display dates and is never shown while line
      items are being fetched or after the fetch failed. */
  lemma BreakdownNeedsDisplayDates(values: BookingValues, hasLineItems: bool,
                                   fetchLineItemsInProgress: bool, fetchLineItemsFailed: bool)
    ensures ShowEstimatedBreakdown(values, hasLineItems, fetchLineItemsInProgress, fetchLineItemsFailed) ==>
              values.bookingDisplayStart.Some? && values.bookingDisplayEnd.Some? && hasLineItems
              && !fetchLineItemsInProgress && !fetchLineItemsFailed
    ensures values.bookingDisplayStart.Some? && values.bookingDisplayEnd.Some? && hasLineItems
            && !fetchLineItemsInProgress && !fetchLineItemsFailed ==>
              ShowEstimatedBreakdown(values, hasLineItems, fetchLineItemsInProgress, fetchLineItemsFailed)
  {
  }

  /** Whenever line items are requested, the breakdown has the very booking
      data that was sent. */
  lemma RequestMatchesBookingData(values: BookingValues, listingId: string, isOwnListing: bool,
                                  fetchLineItemsInProgress: bool,
                                  identical: (Option<Instant>, Option<Instant>) -> bool)
    ensures var r := LineItemsRequest(values, listingId, isOwnListing, fetchLineItemsInProgress, identical);
            r.Some? ==> BookingDataOf(values) == Some(r.value.bookingData)
  {
  }

  /** The breakdown can be shown without any dates: the display dates alone
      make the booking data. */
  lemma BookingDataWithoutDates(displayStart: DisplayDate, displayEnd: DisplayDate)
    ensures var values := BookingValues(None, None, None, None, Some(displayStart), Some(displayEnd));
            BookingDataOf(values) == Some(BookingData(None, None, displayStart, displayEnd))
            && LineItemsRequest(values, "", false, false, (a, b) => false).None?
  {
  }

  /** On every state the date-and-time field reaches, an end time comes with
      an end date, so the request goes out exactly when both times are
      chosen, both display dates are set, the dates differ and no fetch is
      running: the separate end-date test never decides it. */
  lemma RequestOnValidInput(input: DateAndTimeInput, listingId: string, isOwnListing: bool,
                            fetchLineItemsInProgress: bool,
                            identical: (Option<Instant>, Option<Instant>) -> bool)
    requires input.Valid()
    ensures var values := input.values;
            LineItemsRequest(values, listingId, isOwnListing, fetchLineItemsInProgress, identical).Some? <==>
              StartDateOf(values).Some?
              && JsValues.IsTruthyText(values.bookingStartTime) && JsValues.IsTruthyText(values.bookingEndTime)
              && values.bookingDisplayStart.Some? && values.bookingDisplayEnd.Some?
              && !identical(StartDateOf(values), EndDateOf(values)) && !fetchLineItemsInProgress
  {
  }

  /** No line items are requested right after a start date is picked or
      cleared: the field handler always leaves the end time empty. */
  method StartDateChangeThenFetch(input: DateAndTimeInput, value: Option<DateValue>, listingId: string,
                                  isOwnListing: bool, fetchLineItemsInProgress: bool,
                                  identical: (Option<Instant>, Option<Instant>) -> bool)
      returns (r: Option<FetchRequest>)
    modifies input
    requires input.Valid()
    ensures input.Valid()
    ensures r == LineItemsRequest(input.values, listingId, isOwnListing, fetchLineItemsInProgress, identical)
    ensures r.None?
  {
    input.OnBookingStartDateChange(value);
    r := LineItemsRequest(input.values, listingId, isOwnListing, fetchLineItemsInProgress, identical);
  }

  /** The form component and its one piece of state. */
  class BookingTimeFormComponent {
    var focusedInput: Option<FocusedInput>

    constructor()
      ensures focusedInput.None?
    {
      focusedInput := None;
    }

    method OnFocusedInputChange(f: Option<FocusedInput>)
      modifies this
      ensures focusedInput == f
    {
      focusedInput := f;
    }

    /** `handleFormSubmit`: with no start-date field the focus moves to the
        start date, with no end-date field to the end date, and only with
        both are the values submitted. A field holding `{ date: null }` is
        an object, so it counts as present. The focus change is the one the
        handler intends; the `preventDefault` call before it is not
        modelled. */
    method HandleFormSubmit(values: BookingValues) returns (submitted: Option<BookingValues>)
      modifies this
      ensures values.bookingStartDate.None? ==> submitted.None? && focusedInput == Some(StartDate)
      ensures values.bookingStartDate.Some? && values.bookingEndDate.None? ==>
                submitted.None? && focusedInput == Some(EndDate)
      ensures values.bookingStartDate.Some? && values.bookingEndDate.Some? ==>
                submitted == Some(values) && focusedInput == old(focusedInput)
    {
      if values.bookingStartDate.None? {
        focusedInput := Some(StartDate);
        submitted := None;
      } else if values.bookingEndDate.None? {
        focusedInput := Some(EndDate);
        submitted := None;
      } else {
        submitted := Some(values);
      }
    }
  }
}
