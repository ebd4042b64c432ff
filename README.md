# Rental marketplace front-end: a verified model of its booking, filter and listing-wizard logic

This project models, in Dafny, the decision logic of a rental marketplace's web client. People list equipment and saunas there and book them by the hour. The model covers:

- **The "max using time a day" search filter**, in its inline and its popup form. It covers their query-string codecs (`parse`/`format` of strings such as `"2,8"`), the parameter name they write, the initial values and label they derive from the URL, and their `isOpen` state. In the popup, that state is driven by the label button, the form's buttons, outside clicks and the Escape key.
- **The booking date-and-time field**: which time slots fall on a chosen day and the start hours each slot offers on it. It also covers the first offered time, how a chosen time becomes a display date, which inputs are disabled, and how each date and time handler rewrites the other form fields and the calendar's month.
- **The booking form**: the price and currency guard, the condition that asks the backend for line items, the booking data behind the price breakdown, and the submit decision that moves the focus to a missing date.
- **The listing wizard tab**: next-tab navigation, the draft redirect after saving, image normalisation, what completing a tab calls and what it does after a save, and the submit-button message of every panel.
- **The listing link** (the route it targets and what it shows), **the description panel** (heading, initial values, submitted update) and **the availability panel** (default weekly plans, the chosen plan, heading).

One module models each source file. Shared modules hold the JavaScript semantics the components rely on:

- `JsValues`: truthiness, `||`, property reads and `String.prototype.trim`.
- `JsNumbers`: decimal text of integers and `Number(string)`.
- `RangeCodec`: `split(',')`, `Number.parseInt(s, 10)`, template-literal text and the filter label.
- `Listings`: the listing record, `ensureListing`, the published test and the listing-type constants.

Time-zone arithmetic in the date-and-time field goes through the time utilities the component imports. They are fields of a `ZoneOps` value, and the lemmas that need it state what they assume of them. For example, `dateIsAfter` orders instants, and `getStartHours` stays between its bounds. The browser's own time zone is a fixed offset.

Where the code does something the description of the system does not say, the model follows the code:

- After saving a tab in the new-listing flow (a `new` URL), the user stays on the same tab: only the URL changes from `new` to `draft`.
- The popup filter's Escape key calls `toggleOpen(false)`, and that flips the state, so Escape opens a closed popup.
- The inline filter's `parse` turns `"a,0"` into the single value `a`.
- Clearing the start date leaves a stale display end in the form.
- The booking data behind the price breakdown exists as soon as both display dates do, even with no dates chosen.

## Model

| member | source | states |
|---|---|---|
| RangeCodec.ResolveParamName | src/components/MaxUsingTimeADayFilter/MaxUsingTimeADayFilterPlain.js:14-20 | an array of names gives its first element (undefined for an empty array), a string is the name itself, anything else the fallback |
| RangeCodec.PropertyKey | src/components/MaxUsingTimeADayFilter/MaxUsingTimeADayFilterPlain.js:45 | a computed key made from a missing name is the string "undefined" |
| RangeCodec.BoundsOf | src/components/MaxUsingTimeADayFilter/MaxUsingTimeADayFilterPlain.js:41 | destructuring `range \|\| {}` gives the range's bounds, or two undefined bounds for no range |
| RangeCodec.ParseInt | src/components/MaxUsingTimeADayFilter/MaxUsingTimeADayFilterPlain.js:26 | `Number.parseInt(v, 10)` never yields null or undefined: a number, or NaN when no digits follow the optional sign |
| RangeCodec.ParseIntOfText | src/components/MaxUsingTimeADayFilter/MaxUsingTimeADayFilterPlain.js:26 | parseInt reads back exactly the integer whose decimal text it is given |
| RangeCodec.Split | src/components/MaxUsingTimeADayFilter/MaxUsingTimeADayFilterPlain.js:26 | `split(',')` always gives at least one piece |
| RangeCodec.JoinSplit | src/components/MaxUsingTimeADayFilter/MaxUsingTimeADayFilterPlain.js:26 | joining the pieces with commas gives back the original string |
| RangeCodec.SplitPiecesCommaFree | src/components/MaxUsingTimeADayFilter/MaxUsingTimeADayFilterPlain.js:26 | no piece contains a comma |
| RangeCodec.SplitNoComma | src/components/MaxUsingTimeADayFilter/MaxUsingTimeADayFilterPlain.js:26 | a comma-free string splits into itself alone |
| RangeCodec.SplitAfterFirstComma | src/components/MaxUsingTimeADayFilter/MaxUsingTimeADayFilterPlain.js:26 | splitting `a,b` with a comma-free `a` gives `a` followed by the pieces of `b` |
| RangeCodec.Pieces | src/components/MaxUsingTimeADayFilter/MaxUsingTimeADayFilterPlain.js:25-27 | an empty or missing value gives no bounds; otherwise the minimum is always set and the maximum is undefined exactly when there is no comma |
| RangeCodec.PiecesOfSingle | src/components/MaxUsingTimeADayFilter/MaxUsingTimeADayFilterPlain.js:25-27 | "n" gives the minimum n and no maximum |
| RangeCodec.PiecesOfPair | src/components/MaxUsingTimeADayFilter/MaxUsingTimeADayFilterPopup.js:26-28 | "a,b" gives exactly the bounds a and b |
| RangeCodec.FilterLabel | src/components/MaxUsingTimeADayFilter/MaxUsingTimeADayFilterPlain.js:101-111 | the selected label exactly when the filter is set, carrying its bounds; else the label prop when non-empty; else the default message |
| RangeCodec.LabelMessageId | src/components/MaxUsingTimeADayFilter/MaxUsingTimeADayFilterPopup.js:148-158 | a message id is formatted unless the label prop is shown |
| MaxUsingTimeADayFilterPlain.QueryParamName | src/components/MaxUsingTimeADayFilter/MaxUsingTimeADayFilterPlain.js:14-20 | the first listed name, the given name, or "maxUsingTimeADay" |
| MaxUsingTimeADayFilterPlain.Parse | src/components/MaxUsingTimeADayFilter/MaxUsingTimeADayFilterPlain.js:23-38 | a range exactly for a non-empty value; both bounds set; the minimum is the first piece's parseInt; a truthy second piece is the maximum, and a falsy maximum collapses onto the minimum |
| MaxUsingTimeADayFilterPlain.Format | src/components/MaxUsingTimeADayFilter/MaxUsingTimeADayFilterPlain.js:40-49 | the value is null exactly when a bound is missing; equal bounds give one number, unequal ones exactly the text of the minimum, a comma and the text of the maximum |
| MaxUsingTimeADayFilterPlain.ParseSingle | src/components/MaxUsingTimeADayFilter/MaxUsingTimeADayFilterPlain.js:29-32 | a bare "n" parses to the range n..n |
| MaxUsingTimeADayFilterPlain.ParsePair | src/components/MaxUsingTimeADayFilter/MaxUsingTimeADayFilterPlain.js:35-37 | "a,b" with a non-zero maximum parses to a..b |
| MaxUsingTimeADayFilterPlain.ParseZeroMaximum | src/components/MaxUsingTimeADayFilter/MaxUsingTimeADayFilterPlain.js:29-32 | "a,0" parses to a..a, because the maximum 0 is falsy |
| MaxUsingTimeADayFilterPlain.FormatNull | src/components/MaxUsingTimeADayFilter/MaxUsingTimeADayFilterPlain.js:68-72 | clearing writes the parameter with the value null |
| MaxUsingTimeADayFilterPlain.FormatNumbers | src/components/MaxUsingTimeADayFilter/MaxUsingTimeADayFilterPlain.js:43-48 | two integers are written as their decimals, once when they are equal |
| MaxUsingTimeADayFilterPlain.ParseFormat | src/components/MaxUsingTimeADayFilter/MaxUsingTimeADayFilterPlain.js:23-49 | format then parse gives the integers back, unless only the maximum is 0 |
| MaxUsingTimeADayFilterPlain.ParseFormatOrdered | src/components/MaxUsingTimeADayFilter/MaxUsingTimeADayFilterPlain.js:23-49 | the round trip holds for every range of naturals with min <= max |
| MaxUsingTimeADayFilterPlain.FormatParse | src/components/MaxUsingTimeADayFilter/MaxUsingTimeADayFilterPlain.js:23-49 | parse then format gives back a canonical query value |
| MaxUsingTimeADayFilterPlain.InitialBounds | src/components/MaxUsingTimeADayFilter/MaxUsingTimeADayFilterPlain.js:94-95 | no initial values give no bounds; otherwise the bounds of the parsed parameter |
| MaxUsingTimeADayFilterPlain.HasInitialValuesIffParses | src/components/MaxUsingTimeADayFilter/MaxUsingTimeADayFilterPlain.js:97-98 | the filter counts as set exactly when there are initial values and their parameter parses |
| MaxUsingTimeADayFilterPlain.FormInitialValues | src/components/MaxUsingTimeADayFilter/MaxUsingTimeADayFilterPlain.js:126 | the form starts from the parsed range when the filter is set, else from the min/max props |
| MaxUsingTimeADayFilterPlain.Label | src/components/MaxUsingTimeADayFilter/MaxUsingTimeADayFilterPlain.js:93-111 | the selected label exactly when the filter is set, showing the parsed bounds |
| MaxUsingTimeADayFilterPlain.Filter.constructor | src/components/MaxUsingTimeADayFilter/MaxUsingTimeADayFilterPlain.js:51-53 | the inline filter starts open |
| MaxUsingTimeADayFilterPlain.Filter.ToggleIsOpen | src/components/MaxUsingTimeADayFilter/MaxUsingTimeADayFilterPlain.js:74-76 | the flag flips |
| MaxUsingTimeADayFilterPlain.ToggleTwice | src/components/MaxUsingTimeADayFilter/MaxUsingTimeADayFilterPlain.js:74-76 | toggling twice restores the flag |
| MaxUsingTimeADayFilterPlain.Filter.HandleChange | src/components/MaxUsingTimeADayFilter/MaxUsingTimeADayFilterPlain.js:60-66 | submits the formatted values under the resolved parameter name |
| MaxUsingTimeADayFilterPlain.Filter.HandleClear | src/components/MaxUsingTimeADayFilter/MaxUsingTimeADayFilterPlain.js:68-72 | submits the parameter with the value null |
| MaxUsingTimeADayFilterPopup.QueryParamName | src/components/MaxUsingTimeADayFilter/MaxUsingTimeADayFilterPopup.js:16-22 | the first listed name, the given name, or "pub_maxUsingTimeADay" |
| MaxUsingTimeADayFilterPopup.Parse | src/components/MaxUsingTimeADayFilter/MaxUsingTimeADayFilterPopup.js:25-33 | a range exactly for a non-empty value holding a comma, with both pieces' parseInt as its bounds |
| MaxUsingTimeADayFilterPopup.Format | src/components/MaxUsingTimeADayFilter/MaxUsingTimeADayFilterPopup.js:36-43 | nothing at all exactly when the bounds are strictly equal (two missing bounds included); otherwise null for a missing bound, else "min,max" |
| MaxUsingTimeADayFilterPopup.ParseSingle | src/components/MaxUsingTimeADayFilter/MaxUsingTimeADayFilterPopup.js:30-32 | a bare number is not a range |
| MaxUsingTimeADayFilterPopup.ParsePair | src/components/MaxUsingTimeADayFilter/MaxUsingTimeADayFilterPopup.js:25-33 | "a,b" parses to a..b, a zero maximum included |
| MaxUsingTimeADayFilterPopup.ParseFormat | src/components/MaxUsingTimeADayFilter/MaxUsingTimeADayFilterPopup.js:25-43 | distinct integer bounds survive format and then parse |
| MaxUsingTimeADayFilterPopup.FormatEqualOrNull | src/components/MaxUsingTimeADayFilter/MaxUsingTimeADayFilterPopup.js:39-42 | equal bounds, and no range, submit nothing |
| MaxUsingTimeADayFilterPopup.FormatParse | src/components/MaxUsingTimeADayFilter/MaxUsingTimeADayFilterPopup.js:25-43 | "a,b" with distinct bounds survives parse and then format |
| MaxUsingTimeADayFilterPopup.InitialParam | src/components/MaxUsingTimeADayFilter/MaxUsingTimeADayFilterPopup.js:140-143 | the URL value is used only when it is present and non-empty |
| MaxUsingTimeADayFilterPopup.InitialBounds | src/components/MaxUsingTimeADayFilter/MaxUsingTimeADayFilterPopup.js:140-144 | no usable URL value gives no bounds |
| MaxUsingTimeADayFilterPopup.HasInitialValuesIffRange | src/components/MaxUsingTimeADayFilter/MaxUsingTimeADayFilterPopup.js:146-147 | the filter counts as set exactly when the URL value is non-empty and holds a comma |
| MaxUsingTimeADayFilterPopup.FormInitialValues | src/components/MaxUsingTimeADayFilter/MaxUsingTimeADayFilterPopup.js:177 | the form starts from the parsed range when set, else from the min/max props |
| MaxUsingTimeADayFilterPopup.Label | src/components/MaxUsingTimeADayFilter/MaxUsingTimeADayFilterPopup.js:139-158 | the selected label exactly when the filter is set, showing the parsed bounds |
| MaxUsingTimeADayFilterPopup.Filter.constructor | src/components/MaxUsingTimeADayFilter/MaxUsingTimeADayFilterPopup.js:46-49 | the popup starts closed |
| MaxUsingTimeADayFilterPopup.Filter.ToggleOpen | src/components/MaxUsingTimeADayFilter/MaxUsingTimeADayFilterPopup.js:93-99 | true opens it; false and no argument both flip it |
| MaxUsingTimeADayFilterPopup.Filter.HandleSubmit | src/components/MaxUsingTimeADayFilter/MaxUsingTimeADayFilterPopup.js:62-67 | closes and submits the formatted values |
| MaxUsingTimeADayFilterPopup.Filter.HandleClear | src/components/MaxUsingTimeADayFilter/MaxUsingTimeADayFilterPopup.js:69-74 | closes and submits nothing (`format(null)` is undefined) |
| MaxUsingTimeADayFilterPopup.Filter.HandleCancel | src/components/MaxUsingTimeADayFilter/MaxUsingTimeADayFilterPopup.js:76-80 | closes and resubmits the initial values |
| MaxUsingTimeADayFilterPopup.Filter.HandleBlur | src/components/MaxUsingTimeADayFilter/MaxUsingTimeADayFilterPopup.js:82-84 | an outside click closes it |
| MaxUsingTimeADayFilterPopup.Filter.HandleKeyDown | src/components/MaxUsingTimeADayFilter/MaxUsingTimeADayFilterPopup.js:86-91 | Escape (27) flips the state, other keys change nothing |
| JsValues.Or | src/forms/BookingTimeForm/BookingTimeForm.js:48 | `a \|\| b` is a when a is truthy, else b |
| JsValues.Get | src/components/EditListingWizard/EditListingWizardTab.js:134 | reading a property gives its value, or undefined when absent |
| JsValues.Lookup | src/components/MaxUsingTimeADayFilter/MaxUsingTimeADayFilterPlain.js:94 | a dictionary read finds exactly the keys present |
| JsValues.Trim | src/components/EditListingDescriptionPanel/EditListingDescriptionPanel.js:91 | the result is the input with only whitespace removed from both ends, and it neither starts nor ends with whitespace |
| JsValues.TrimOfNonBlank | src/components/EditListingDescriptionPanel/EditListingDescriptionPanel.js:91 | a string without whitespace at its ends is its own trim |
| JsValues.TrimIdempotent | src/components/EditListingDescriptionPanel/EditListingDescriptionPanel.js:102 | trimming twice is trimming once |
| JsValues.TrimEmptyIffBlank | src/components/EditListingDescriptionPanel/EditListingDescriptionPanel.js:102 | only an all-whitespace title trims to the empty string |
| JsNumbers.IntToText | src/forms/BookingTimeForm/FieldDateAndTimeInput.js:102 | an integer's decimal text: a sign exactly for negatives, then the digits, with no comma |
| JsNumbers.NumberOf | src/forms/BookingTimeForm/FieldDateAndTimeInput.js:46 | `Number(null)` and `Number` of a blank string are 0 |
| JsNumbers.NumberOfText | src/forms/BookingTimeForm/FieldDateAndTimeInput.js:46 | `Number` reads back the integer whose decimal text it is given |
| JsNumbers.DecimalValueOfDecimal | src/forms/BookingTimeForm/FieldDateAndTimeInput.js:102 | the digits written for a natural read back as that natural |
| Listings.EnsureListing | src/components/EditListingWizard/EditListingWizardTab.js:132 | a missing listing reads as one with no id, no state, no plan and empty public data |
| Listings.UnsavedOrDraftIsNotPublished | src/components/EditListingDescriptionPanel/EditListingDescriptionPanel.js:34 | a listing without an id or in the draft state is not published |
| Listings.IdValue | src/components/EditListingWizard/EditListingWizardTab.js:151 | the id sent to the API is `{ uuid }`, or null when the listing has none |
| EditListingWizardTab.FindIndex | src/components/EditListingWizard/EditListingWizardTab.js:47 | the index of the first occurrence, -1 exactly when absent |
| EditListingWizardTab.NextTab | src/components/EditListingWizard/EditListingWizardTab.js:46-51 | the tab after the current one, the last tab for the last one, the first tab for an unknown one; none only for an empty list |
| EditListingWizardTab.PathParamsToNextTab | src/components/EditListingWizard/EditListingWizardTab.js:46-53 | every other parameter is kept and `tab` becomes the next tab |
| EditListingWizardTab.NextTabInDistinctList | src/components/EditListingWizard/EditListingWizardTab.js:46-53 | in a list without repeats, each tab is followed by the next one and the last by itself |
| EditListingWizardTab.SupportedTabsDistinct | src/components/EditListingWizard/EditListingWizardTab.js:35-44 | the supported tabs are all different |
| EditListingWizardTab.UrlTypeOf | src/components/EditListingWizard/EditListingWizardTab.js:127-130 | a `new` URL and a `draft` URL are told apart by the `type` parameter |
| EditListingWizardTab.ListingTypeParam | src/components/EditListingWizard/EditListingWizardTab.js:127 | the listing type defaults to the empty string |
| EditListingWizardTab.ImageId | src/components/EditListingWizard/EditListingWizardTab.js:134 | an image's `imageId` when truthy, else its `id` |
| EditListingWizardTab.ImageIds | src/components/EditListingWizard/EditListingWizardTab.js:133-135 | null for falsy images, else the id of every image in order |
| EditListingWizardTab.Normalize | src/components/EditListingWizard/EditListingWizardTab.js:139-142 | `images` is replaced by its ids when defined and dropped otherwise; every other value is kept |
| EditListingWizardTab.NormalizeWithoutImages | src/components/EditListingWizard/EditListingWizardTab.js:139-142 | update values without images pass through unchanged |
| EditListingWizardTab.ImageIdsOfUploads | src/components/EditListingWizard/EditListingWizardTab.js:133-142 | uploaded images `{ id }` are normalised to exactly their ids |
| EditListingWizardTab.DraftPathParams | src/components/EditListingWizard/EditListingWizardTab.js:57-61 | the draft path keeps every parameter and sets `type` to draft and `id` to the saved listing |
| EditListingWizardTab.EditRoute | src/components/EditListingWizard/EditListingWizardTab.js:67-99 | equipment edits on the equipment page, a sauna on the listing page, other types go nowhere |
| EditListingWizardTab.RedirectAfterDraftUpdate | src/components/EditListingWizard/EditListingWizardTab.js:56-100 | no navigation for an unknown type; a `new` URL is replaced by the draft URL of the same tab; otherwise the next tab is pushed |
| EditListingWizardTab.NewFlowStaysOnTab | src/components/EditListingWizard/EditListingWizardTab.js:64-87 | after the first save the user stays on the tab they saved |
| EditListingWizardTab.DraftFlowMovesOn | src/components/EditListingWizard/EditListingWizardTab.js:89-99 | after saving a draft the user is pushed to the following tab |
| EditListingWizardTab.AfterUpsert | src/components/EditListingWizard/EditListingWizardTab.js:153-167 | a failed save does nothing; the last tab publishes the current listing; any other tab scrolls, then navigates to the redirect computed from the saved id when there is one |
| EditListingWizardTab.OnComplete | src/components/EditListingWizard/EditListingWizardTab.js:137-171 | a `new` URL creates a draft from the normalised values; otherwise the tab is updated with the listing id added; effects follow only in the new-listing flow |
| EditListingWizardTab.CompletionIds | src/components/EditListingWizard/EditListingWizardTab.js:149-151 | a draft call carries an id exactly when the submitted values do; every update carries the current listing's id and the tab |
| EditListingWizardTab.NoEffectsWhenEditingOrFailed | src/components/EditListingWizard/EditListingWizardTab.js:165-170 | editing a published listing, or a failed save, has no follow-up effect |
| EditListingWizardTab.PublishOrNavigate | src/components/EditListingWizard/EditListingWizardTab.js:155-163 | never both publish and navigate; after a successful save in the new-listing flow the last tab only publishes the current listing; any other tab scrolls, then navigates to a location whose `id` is the saved listing id when the listing type has an edit route, and only scrolls when it has none |
| EditListingWizardTab.TabPanel | src/components/EditListingWizard/EditListingWizardTab.js:242-359 | a panel exactly for the supported tabs |
| EditListingWizardTab.SubmitButtonKey | src/components/EditListingWizard/EditListingWizardTab.js:186-359 | the key is the prefix, then `saveNew` for equipment on the description, location, pricing and availability panels or in the new-listing flow and `saveEdit` otherwise, then the panel's own name, then `Equipment` exactly for equipment on those four panels |
| EditListingWizardTab.SubmitButtonKeyNamesPanel | src/components/EditListingWizard/EditListingWizardTab.js:186-359 | two different panels never get the same button message, for any listing type and flow |
| EditListingWizardTab.KeyShape | src/components/EditListingWizard/EditListingWizardTab.js:186-241 | what every built message key starts and ends with |
| EditListingWizardTab.RenderTab | src/components/EditListingWizard/EditListingWizardTab.js:242-359 | nothing for an unsupported tab; otherwise its panel with the button key for the URL's flow and listing type |
| EditListingWizardTab.EquipmentDescriptionKey | src/components/EditListingWizard/EditListingWizardTab.js:186-189 | the equipment description button reads saveNewDescriptionEquipment even when editing |
| EditListingWizardTab.SaunaLocationKey | src/components/EditListingWizard/EditListingWizardTab.js:204-207 | a new sauna's location button reads saveNewLocation |
| EditListingWizardTab.DefaultPricingKey | src/components/EditListingWizard/EditListingWizardTab.js:222-225 | editing a listing of another type shows saveEditPricing |
| EditListingWizardTab.EquipmentPoliciesKey | src/components/EditListingWizard/EditListingWizardTab.js:284-287 | the policies button does not depend on the listing type |
| FieldDateAndTimeInput.OnDay | src/forms/BookingTimeForm/FieldDateAndTimeInput.js:81 | a slot is on a day when the day lies in its range |
| FieldDateAndTimeInput.SlotsOnDay | src/forms/BookingTimeForm/FieldDateAndTimeInput.js:81 | the filter keeps exactly the slots on the day, in their order and with their multiplicity |
| FieldDateAndTimeInput.SlotsOnDayIdempotent | src/forms/BookingTimeForm/FieldDateAndTimeInput.js:81 | filtering a filtered list changes nothing |
| FieldDateAndTimeInput.GetTimeSlots | src/forms/BookingTimeForm/FieldDateAndTimeInput.js:79-83 | a missing or empty list gives none; otherwise an ordered sub-list holding every slot on the day, as often as the list does, and only those |
| FieldDateAndTimeInput.GetTimeSlotsIdempotent | src/forms/BookingTimeForm/FieldDateAndTimeInput.js:99-100 | filtering a day's slots a second time changes nothing |
| FieldDateAndTimeInput.SlotLimits | src/forms/BookingTimeForm/FieldDateAndTimeInput.js:66-72 | the later of the day's start and the slot's start, and the earlier of the slot's end and the next day's start |
| FieldDateAndTimeInput.SlotLimitsWithinDay | src/forms/BookingTimeForm/FieldDateAndTimeInput.js:64-72 | both limits lie within the day, however `dateIsAfter` treats equal instants |
| FieldDateAndTimeInput.HoursFoldIsConcatenation | src/forms/BookingTimeForm/FieldDateAndTimeInput.js:61-76 | the `reduce` gives the concatenation of every slot's hours in slot order |
| FieldDateAndTimeInput.GetAvailableTime | src/forms/BookingTimeForm/FieldDateAndTimeInput.js:56-78 | no slots or no start give no hours; otherwise every slot's hours within the start's day, slot by slot |
| FieldDateAndTimeInput.AllHoursWithin | src/forms/BookingTimeForm/FieldDateAndTimeInput.js:61-76 | every concatenated hour lies between the day's start and the next day's start |
| FieldDateAndTimeInput.AvailableHoursWithinDay | src/forms/BookingTimeForm/FieldDateAndTimeInput.js:56-78 | every hour offered for a date lies within that date's day |
| FieldDateAndTimeInput.GetFirstTimeValue | src/forms/BookingTimeForm/FieldDateAndTimeInput.js:99-104 | a time exactly when hours are offered and the first timestamp is non-zero; its text reads back as that timestamp |
| FieldDateAndTimeInput.AddTimeToDate | src/forms/BookingTimeForm/FieldDateAndTimeInput.js:45-54 | always a date on the same local day with minute and second zero and the date's milliseconds kept; its hour is the time's hour, or the date's own hour when the time is not a number |
| FieldDateAndTimeInput.DateOf | src/forms/BookingTimeForm/FieldDateAndTimeInput.js:233-237 | a date field gives its date only when the field and its date are both set |
| FieldDateAndTimeInput.DisabledCascade | src/forms/BookingTimeForm/FieldDateAndTimeInput.js:239-241 | each input is disabled whenever the one before it is, and enabled exactly when everything before it is set |
| FieldDateAndTimeInput.AvailableStartTimes | src/forms/BookingTimeForm/FieldDateAndTimeInput.js:243-248 | no start date gives no options; else the hours offered on it |
| FieldDateAndTimeInput.AvailableEndTimes | src/forms/BookingTimeForm/FieldDateAndTimeInput.js:244-251 | no end date gives no options; else the hours offered on it |
| FieldDateAndTimeInput.IsOutsideRange | src/forms/BookingTimeForm/FieldDateAndTimeInput.js:205-208 | without a start date every day is outside the range |
| FieldDateAndTimeInput.OutsideRangeIffNotAfterStart | src/forms/BookingTimeForm/FieldDateAndTimeInput.js:212-217 | an end day is selectable exactly when it is after the start of the start date's day |
| FieldDateAndTimeInput.NextMonthWithinRange | src/forms/BookingTimeForm/FieldDateAndTimeInput.js:85-90 | the next-month arrow shows before the bookable range ends and is gone after it |
| FieldDateAndTimeInput.NoPrevMonthAtStart | src/forms/BookingTimeForm/FieldDateAndTimeInput.js:91-97 | on today's month the previous-month arrow is hidden |
| FieldDateAndTimeInput.DateAndTimeInput.constructor | src/forms/BookingTimeForm/FieldDateAndTimeInput.js:109-114 | the calendar starts at today's month |
| FieldDateAndTimeInput.DateAndTimeInput.OnMonthClick | src/forms/BookingTimeForm/FieldDateAndTimeInput.js:124-128 | the month moves one step back or forward and nothing else changes |
| FieldDateAndTimeInput.DateAndTimeInput.OnStartDateClose | src/forms/BookingTimeForm/FieldDateAndTimeInput.js:286-288 | closing the start calendar returns to today's month |
| FieldDateAndTimeInput.DateAndTimeInput.OnBookingStartDateChange | src/forms/BookingTimeForm/FieldDateAndTimeInput.js:130-162 | clearing nulls the start time and every end field and resets the month, and the display fields stay; choosing writes the date, its first offered time and display start, and clears the end; the end time is disabled afterwards and the invariant is kept |
| FieldDateAndTimeInput.DateAndTimeInput.OnBookingStartTimeChange | src/forms/BookingTimeForm/FieldDateAndTimeInput.js:164-172 | writes the time and the display start on the start date; the end fields stay |
| FieldDateAndTimeInput.DateAndTimeInput.OnBookingEndTimeChange | src/forms/BookingTimeForm/FieldDateAndTimeInput.js:173-182 | writes the time and the display end on the end date |
| FieldDateAndTimeInput.DateAndTimeInput.OnBookingEndDateChange | src/forms/BookingTimeForm/FieldDateAndTimeInput.js:183-204 | clearing nulls only the end time; choosing writes the date, its first offered time and display end |
| FieldDateAndTimeInput.StartTimeIsFirstOffered | src/forms/BookingTimeForm/FieldDateAndTimeInput.js:143-150 | the time the start-date handler writes is the first hour offered on that day |
| BookingTimeForm.Guard | src/forms/BookingTimeForm/BookingTimeForm.js:116-133 | a missing price first, then a price in another currency, and only then the form |
| BookingTimeForm.LineItemsRequest | src/forms/BookingTimeForm/BookingTimeForm.js:64-110 | a request exactly when all six fields are set, the two dates are not the same object and no fetch is running; it carries those dates and display dates, the listing id and the own-listing flag |
| BookingTimeForm.BookingDataOf | src/forms/BookingTimeForm/BookingTimeForm.js:162-203 | booking data exactly when both display dates are set, with the dates that are chosen |
| BookingTimeForm.BreakdownNeedsDisplayDates | src/forms/BookingTimeForm/BookingTimeForm.js:205-206 | the breakdown shows exactly with both display dates and line items and no running or failed fetch |
| BookingTimeForm.RequestMatchesBookingData | src/forms/BookingTimeForm/BookingTimeForm.js:104-108 | a requested booking holds the same start date, end date and display dates that the breakdown's booking data reads from the form values |
| BookingTimeForm.RequestOnValidInput | src/forms/BookingTimeForm/BookingTimeForm.js:94-108 | on every state the date and time field reaches, line items are requested exactly when both times are chosen, both display dates are set, the dates differ and no fetch is running |
| BookingTimeForm.BookingDataWithoutDates | src/forms/BookingTimeForm/BookingTimeForm.js:162-203 | display dates alone make booking data, though no request follows |
| BookingTimeForm.StartDateChangeThenFetch | src/forms/BookingTimeForm/BookingTimeForm.js:95-103 | picking or clearing a start date never asks for line items |
| BookingTimeForm.BookingTimeFormComponent.constructor | src/forms/BookingTimeForm/BookingTimeForm.js:31 | no input has the focus at first |
| BookingTimeForm.BookingTimeFormComponent.OnFocusedInputChange | src/forms/BookingTimeForm/BookingTimeForm.js:40-42 | the focus becomes the given input |
| BookingTimeForm.BookingTimeFormComponent.HandleFormSubmit | src/forms/BookingTimeForm/BookingTimeForm.js:47-58 | no start-date field focuses the start date, no end-date field the end date, and only with both are the values submitted |
| ListingLink.Variant | src/components/ListingLink/ListingLink.js:43-49 | pending approval gives its variant, a draft the draft variant, any other state none |
| ListingLink.Target | src/components/ListingLink/ListingLink.js:50-78 | the variant page for an unpublished listing; otherwise the equipment page exactly for equipment, else the listing page; always the id and the title's slug |
| ListingLink.Render | src/components/ListingLink/ListingLink.js:25-84 | no link exactly when the listing or its id is missing; the children when truthy, else the title |
| ListingLink.SaunaUsesListingPage | src/components/ListingLink/ListingLink.js:62-77 | a sauna gets the same target as a listing of no known type |
| ListingLink.PublishedHasNoVariant | src/components/ListingLink/ListingLink.js:43-61 | the variant page is used exactly for listings pending approval or in draft |
| EditListingDescriptionPanel.PanelTitle | src/components/EditListingDescriptionPanel/EditListingDescriptionPanel.js:36-49 | the edit title for a published listing, else the equipment or the general create title |
| EditListingDescriptionPanel.InitialValues | src/components/EditListingDescriptionPanel/EditListingDescriptionPanel.js:57-80 | title and description, plus the three equipment fields for equipment or the category otherwise, read from the public data |
| EditListingDescriptionPanel.Submit | src/components/EditListingDescriptionPanel/EditListingDescriptionPanel.js:81-109 | only equipment and sauna submit; the title is trimmed; equipment public data holds its three fields with the category defaulting to [] and the type; a sauna's holds its category and type |
| EditListingDescriptionPanel.UntouchedEquipmentForm | src/components/EditListingDescriptionPanel/EditListingDescriptionPanel.js:57-97 | an untouched equipment form writes back the listing's own title, description and equipment fields |
| EditListingDescriptionPanel.ResubmitKeepsTitle | src/components/EditListingDescriptionPanel/EditListingDescriptionPanel.js:90-92 | submitting the submitted title again keeps it |
| EditListingDescriptionPanel.SaunaUpdateIsTagged | src/components/EditListingDescriptionPanel/EditListingDescriptionPanel.js:99-108 | a sauna update always names its type and carries a category |
| EditListingAvailabilityPanel.DefaultPlan | src/components/EditListingAvailabilityPanel/EditListingAvailabilityPanel.js:33-56 | a day plan with one entry per weekday, Monday to Sunday, each with the given seats |
| EditListingAvailabilityPanel.ChoosePlan | src/components/EditListingAvailabilityPanel/EditListingAvailabilityPanel.js:57-67 | the listing's own plan wins; otherwise no seats for equipment and one seat for any other type |
| EditListingAvailabilityPanel.Submit | src/components/EditListingAvailabilityPanel/EditListingAvailabilityPanel.js:87-93 | the saved plan is the chosen plan, whatever the form holds |
| EditListingAvailabilityPanel.PanelTitle | src/components/EditListingAvailabilityPanel/EditListingAvailabilityPanel.js:71-80 | the edit title exactly for a published listing |
| EditListingAvailabilityPanel.DefaultPlanCoversTheWeek | src/components/EditListingAvailabilityPanel/EditListingAvailabilityPanel.js:33-44 | a default plan names each weekday exactly once, Monday first and Sunday last |
| EditListingAvailabilityPanel.DefaultSeats | src/components/EditListingAvailabilityPanel/EditListingAvailabilityPanel.js:57-67 | without a plan of its own, equipment has 0 seats and any other listing 1 seat on each of the seven days |
| EditListingAvailabilityPanel.NewListingDefaults | src/components/EditListingAvailabilityPanel/EditListingAvailabilityPanel.js:31-32 | a listing not created yet gets a default day plan and the create heading |

## Left out

- Rendering is not modelled: JSX markup, CSS classes, `react-final-form` plumbing, `FormSpy` and message formatting through `intl`. Message ids are modelled as strings, and the label's arguments as the bounds.
- `positionStyleForContent` is not modelled. It measures the page, and that is browser I/O.
- The time utilities are not modelled: time zones, `resetToStartOfDay`, `isInRange`, `getStartHours`, `dateIsAfter`, `dateIsAfterOnly`, `timeOfDayFromLocalToTimeZone`, month starts and month steps. They are function parameters (`ZoneOps`), and the lemmas state what they assume of them.
- The number of bookable days (`config.dayCountAvailableForBooking`), the marketplace currency and `createSlug` are parameters.
- FieldDateAndTimeInput.AddTimeToDate: the browser's time zone is fixed, with no daylight-saving changes. A date outside JavaScript's date range is not treated as invalid. The model assumes moment's `set` skips a `NaN` unit, as moment's setter does, so a non-numeric time leaves the date's own hour.
- JsNumbers.NumberOf: only decimal integers are modelled. Exponents, fractions, hex forms and `Infinity` are not. Numbers are unbounded integers, not floating point, and `toString` of very large timestamps (exponent notation) is not modelled.
- RangeCodec.ParseInt: digits are read as an unbounded integer. Precision loss of very long digit strings is not modelled.
- BookingTimeForm.LineItemsRequest: `startDate === endDate` compares object identity, which values cannot express. It is the parameter `identical`.
- The value that `FieldDateInput` itself writes into the date field is not part of this model, because that component is not part of this model. The handlers model only the writes the date-and-time component makes.
- The date and time handlers do not model a time slot list holding `null` entries (`!timeSlotsOnSelectedDate[0]`). They also do not model a start-time or end-time change while that select is disabled; those methods require the input to be enabled.
- BookingTimeForm.BookingTimeFormComponent.HandleFormSubmit: the form calls `handleFormSubmit` with the values object, which has no `preventDefault` method. So when a date is missing, the source throws a `TypeError` at `e.preventDefault()` (BookingTimeForm.js:50 and :53), before the focus is changed. The model states the intended focus change instead.
- EditListingWizardTab.ImageIds and EditListingWizardTab.Normalize (and OnComplete through them) require `images` to be falsy or an array with no `null` or `undefined` entry. For any other truthy value, `imageIds` throws a `TypeError` (EditListingWizardTab.js:134): a non-array has no `map`, and a `null` entry has no `imageId`. That path is not modelled.
- The breakdown's booking data also carries the constant `unitType` (BookingTimeForm.js:197), and the request names its display dates `bookingDisplayStart`/`bookingDisplayEnd`. Neither is modelled: one datatype holds the dates both share.
- The promise returned by the upsert calls is not modelled. Its outcome (saved with the listing id, or failed) is an input of `OnComplete`, and the effects are returned as a list instead of being run.
- An `undefined` value in the wizard's URL parameters is modelled as an absent key.
- `panelProps`, and the panels other than description and availability, are not modelled. The tab sees them only as the panel it renders.
- `ensureListing`/`ensureOwnListing` come from a file that is not part of this model. A missing listing is assumed to read as an empty listing.
- The constant values for listing types, listing states, URL types and page variants come from files that are not part of this model. The model assumes `"equipment"`, `"sauna"`, `"draft"`, `"pendingApproval"`, `"new"`, `"pending-approval"` and the marketplace's usual draft variant `"draft"`.
- `richText` and the route table behind `NamedLink` and `createResourceLocatorString` are not modelled. A link is modelled as its route name and parameters.
- The description panel assumes that its form values are plain objects. It models a title that is not a string as a thrown error (`TitleNotText`), not as an exception.
- The availability panel's calendar exceptions and the availability form itself are not modelled.
- Page-level containers named around these components (the transaction panel heading, the listing page sections) are not part of this model.
