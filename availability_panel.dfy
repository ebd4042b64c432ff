/** The availability panel of the listing wizard: the plan it shows and
    saves, which is the listing's own plan when it has one and otherwise a
    default plan of one booking a day, or none for equipment, on every day
    of the week; and its heading. */
module EditListingAvailabilityPanel {

  import opened Wrappers
  import opened Listings

  const PLAN_TYPE_DAY := "availability-plan/day"
  const WEEKDAYS := ["mon", "tue", "wed", "thu", "fri", "sat", "sun"]

  const TITLE_MESSAGE := "EditListingAvailabilityPanel.title"
  const CREATE_LISTING_TITLE_MESSAGE := "EditListingAvailabilityPanel.createListingTitle"

  /** The day plan with the same number of seats on every weekday. */
  function DefaultPlan(seats: int): (p: AvailabilityPlan)
    ensures p.planType == PLAN_TYPE_DAY
    ensures |p.entries| == |WEEKDAYS|
    ensures forall i :: 0 <= i < |p.entries| ==> p.entries[i] == DayEntry(WEEKDAYS[i], seats)
  {
    AvailabilityPlan(PLAN_TYPE_DAY, EntriesFor(WEEKDAYS, seats))
  }

  function EntriesFor(days: seq<string>, seats: int): (r: seq<DayEntry>)
    ensures |r| == |days|
    ensures forall i :: 0 <= i < |r| ==> r[i] == DayEntry(days[i], seats)
  {
    if days == [] then [] else [DayEntry(days[0], seats)] + EntriesFor(days[1..], seats)
  }

  /** `availabilityPlan()`: the listing's plan wins; otherwise no seats for
      equipment and one seat a day for a sauna or any other type. */
  function ChoosePlan(listing: Option<Listing>, listingType: Option<string>): (p: AvailabilityPlan)
    ensures EnsureListing(listing).attributes.availabilityPlan.Some? ==>
              p == EnsureListing(listing).attributes.availabilityPlan.value
    ensures EnsureListing(listing).attributes.availabilityPlan.None? ==>
              p == DefaultPlan(if listingType == Some(EQUIPMENT_LISTING_TYPE) then 0 else 1)
  {
    var current := EnsureListing(listing);
    if current.attributes.availabilityPlan.Some? then current.attributes.availabilityPlan.value
    else if listingType == Some(EQUIPMENT_LISTING_TYPE) then DefaultPlan(0)
    else if listingType == Some(SAUNA_LISTING_TYPE) then DefaultPlan(1)
    else DefaultPlan(1)
  }

  /** Both the form's initial values and what it submits. */
  datatype UpdateValues = UpdateValues(availabilityPlan: AvailabilityPlan)

  /** The form's `onSubmit` ignores the form's values and saves the chosen
      plan. */
  function Submit(listing: Option<Listing>, listingType: Option<string>): (u: UpdateValues)
    ensures u.availabilityPlan == ChoosePlan(listing, listingType)
  {
    UpdateValues(ChoosePlan(listing, listingType))
  }

  /** The heading's message id. */
  function PanelTitle(listing: Option<Listing>): (id: string)
    ensures IsPublished(EnsureListing(listing)) <==> id == TITLE_MESSAGE
    ensures !IsPublished(EnsureListing(listing)) <==> id == CREATE_LISTING_TITLE_MESSAGE
  {
    if IsPublished(EnsureListing(listing)) then TITLE_MESSAGE else CREATE_LISTING_TITLE_MESSAGE
  }

  /** A default plan names each weekday exactly once, Monday first. */
  lemma DefaultPlanCoversTheWeek(seats: int)
    ensures var p := DefaultPlan(seats);
            (forall d :: d in WEEKDAYS <==> exists i :: 0 <= i < |p.entries| && p.entries[i].dayOfWeek == d)
            && (forall i, j :: 0 <= i < j < |p.entries| ==> p.entries[i].dayOfWeek != p.entries[j].dayOfWeek)
            && p.entries[0].dayOfWeek == "mon" && p.entries[6].dayOfWeek == "sun"
  {
    var p := DefaultPlan(seats);
    forall d | d in WEEKDAYS
      ensures exists i :: 0 <= i < |p.entries| && p.entries[i].dayOfWeek == d
    {
      var i :| 0 <= i < |WEEKDAYS| && WEEKDAYS[i] == d;
      assert p.entries[i].dayOfWeek == d;
    }
  }

  /** Without a plan of its own, equipment is never bookable by default and
      any other listing takes one booking every day. */
  lemma DefaultSeats(listing: Option<Listing>, listingType: Option<string>)
    requires EnsureListing(listing).attributes.availabilityPlan.None?
    ensures forall i :: 0 <= i < |Submit(listing, listingType).availabilityPlan.entries| ==>
              Submit(listing, listingType).availabilityPlan.entries[i].seats
              == (if listingType == Some(EQUIPMENT_LISTING_TYPE) then 0 else 1)
    ensures |Submit(listing, listingType).availabilityPlan.entries| == 7
  {
  }

  /** A new listing, which has no id, always starts from a default plan and
      the create heading. */
  lemma NewListingDefaults(listingType: Option<string>)
    ensures ChoosePlan(None, listingType).planType == PLAN_TYPE_DAY
    ensures PanelTitle(None) == CREATE_LISTING_TITLE_MESSAGE
  {
  }
}
