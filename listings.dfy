/** The listing entity the wizard panels and links read, the listing-type
    and listing-state constants they compare against, and availability
    plans. */
module Listings {

  import opened Wrappers
  import opened JsValues

  type Uuid = string

  /** The two listing types the marketplace offers. */
  const EQUIPMENT_LISTING_TYPE := "equipment"
  const SAUNA_LISTING_TYPE := "sauna"

  const LISTING_STATE_DRAFT := "draft"
  const LISTING_STATE_PENDING_APPROVAL := "pendingApproval"

  /** One weekday of a plan: how many bookings it takes. */
  datatype DayEntry = DayEntry(dayOfWeek: string, seats: int)

  datatype AvailabilityPlan = AvailabilityPlan(planType: string, entries: seq<DayEntry>)

  datatype Attributes = Attributes(
    title: Json,
    description: Json,
    state: Option<string>,
    publicData: map<string, Json>,
    availabilityPlan: Option<AvailabilityPlan>)

  /** A listing as the client holds it; a draft not yet created has no
      `id`. */
  datatype Listing = Listing(id: Option<Uuid>, attributes: Attributes)

  /** `ensureListing(listing)` / `ensureOwnListing(listing)`: a missing
      listing reads as one with no id, no state and empty public data. */
  function EnsureListing(listing: Option<Listing>): (l: Listing)
    ensures listing.Some? ==> l == listing.value
    ensures listing.None? ==>
              l.id.None? && l.attributes.state.None? && l.attributes.publicData == map[]
              && l.attributes.availabilityPlan.None?
  {
    match listing
    case Some(l) => l
    case None => Listing(None, Attributes(Undefined, Undefined, None, map[], None))
  }

  /** `currentListing.id && state !== LISTING_STATE_DRAFT` */
  predicate IsPublished(l: Listing) {
    l.id.Some? && l.attributes.state != Some(LISTING_STATE_DRAFT)
  }

  /** A listing that does not exist yet is never published, and a draft is
      not either. */
  lemma UnsavedOrDraftIsNotPublished(listing: Option<Listing>)
    ensures listing.None? ==> !IsPublished(EnsureListing(listing))
    ensures listing.Some? && listing.value.attributes.state == Some(LISTING_STATE_DRAFT) ==>
              !IsPublished(EnsureListing(listing))
  {
  }

  /** The listing's id as the API object `{ uuid }`, `null` when absent. */
  function IdValue(id: Option<Uuid>): (v: Json)
    ensures id.None? <==> v.Null?
    ensures id.Some? ==> v == Obj(map["uuid" := Str(id.value)])
  {
    match id
    case None => Null
    case Some(u) => Obj(map["uuid" := Str(u)])
  }
}
