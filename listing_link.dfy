/** The link to a listing's page: nothing until the listing is loaded, the
    pending-approval or draft variant of the page while the listing is not
    published, and otherwise the equipment page or the general listing page
    by the listing's type. */
module ListingLink {

  import opened Wrappers
  import opened JsValues
  import opened Listings

  const LISTING_PAGE_PENDING_APPROVAL_VARIANT := "pending-approval"
  const LISTING_PAGE_DRAFT_VARIANT := "draft"

  datatype RouteName = ListingPageVariant | EquipmentListingPage | ListingPage

  /** The `NamedLink` target: the route and its params; `variant` and
      `listingType` are only set on the routes that take them. */
  datatype LinkTarget = LinkTarget(name: RouteName, id: Uuid, slug: string,
                                   variant: Option<string>, listingType: Option<Json>)

  /** What the link shows: the children when there are any, otherwise the
      listing's title. */
  datatype Content = Children(text: string) | RichTitle(title: Json)

  /** The page variant of an unpublished listing; pending approval wins. */
  function Variant(state: Option<string>): (v: Option<string>)
    ensures v == Some(LISTING_PAGE_PENDING_APPROVAL_VARIANT) <==> state == Some(LISTING_STATE_PENDING_APPROVAL)
    ensures v == Some(LISTING_PAGE_DRAFT_VARIANT) <==> state == Some(LISTING_STATE_DRAFT)
    ensures v.None? <==> state != Some(LISTING_STATE_PENDING_APPROVAL) && state != Some(LISTING_STATE_DRAFT)
  {
    if state == Some(LISTING_STATE_PENDING_APPROVAL) then Some(LISTING_PAGE_PENDING_APPROVAL_VARIANT)
    else if state == Some(LISTING_STATE_DRAFT) then Some(LISTING_PAGE_DRAFT_VARIANT)
    else None
  }

  /** `linkProps()`, with `createSlug` given. */
  function Target(id: Uuid, attributes: Attributes, createSlug: Json -> string): (t: LinkTarget)
    ensures t.id == id && t.slug == createSlug(attributes.title)
    ensures t.name == ListingPageVariant <==> Variant(attributes.state).Some?
    ensures t.name == ListingPageVariant ==> t.variant == Variant(attributes.state) && t.listingType.None?
    ensures t.name == EquipmentListingPage <==>
              Variant(attributes.state).None?
              && Lookup(attributes.publicData, "listingType") == Some(Str(EQUIPMENT_LISTING_TYPE))
    ensures t.name == EquipmentListingPage ==>
              t.listingType == Some(Str(EQUIPMENT_LISTING_TYPE)) && t.variant.None?
    ensures t.name == ListingPage ==> t.variant.None? && t.listingType.None?
  {
    var slug := createSlug(attributes.title);
    var variant := Variant(attributes.state);
    var listingType := Lookup(attributes.publicData, "listingType");
    if variant.Some? then LinkTarget(ListingPageVariant, id, slug, variant, None)
    else if listingType == Some(Str(SAUNA_LISTING_TYPE)) then LinkTarget(ListingPage, id, slug, None, None)
    else if listingType == Some(Str(EQUIPMENT_LISTING_TYPE)) then
      LinkTarget(EquipmentListingPage, id, slug, None, listingType)
    else LinkTarget(ListingPage, id, slug, None, None)
  }

  /** The whole component: no link for a missing listing or one without an
      id; otherwise the target and the content. */
  function Render(listing: Option<Listing>, children: Option<string>, createSlug: Json -> string):
    (r: Option<(LinkTarget, Content)>)
    ensures r.None? <==> listing.None? || listing.value.id.None?
    ensures r.Some? ==> r.value.0 == Target(listing.value.id.value, listing.value.attributes, createSlug)
    ensures r.Some? ==>
              (if IsTruthyText(children) then r.value.1 == Children(children.value)
               else r.value.1 == RichTitle(listing.value.attributes.title))
  {
    if listing.None? || listing.value.id.None? then None
    else
      var l := listing.value;
      var content := if IsTruthyText(children) then Children(children.value) else RichTitle(l.attributes.title);
      Some((Target(l.id.value, l.attributes, createSlug), content))
  }

  /** A sauna goes to the general listing page, exactly like a listing of
      no known type. */
  lemma SaunaUsesListingPage(id: Uuid, attributes: Attributes, createSlug: Json -> string)
    requires Variant(attributes.state).None?
    requires Lookup(attributes.publicData, "listingType") == Some(Str(SAUNA_LISTING_TYPE))
    ensures Target(id, attributes, createSlug) == LinkTarget(ListingPage, id, createSlug(attributes.title), None, None)
  {
  }

  /** A published listing never gets the variant page, and the variant page
      is only for listings in one of the two unpublished states. */
  lemma PublishedHasNoVariant(id: Uuid, attributes: Attributes, createSlug: Json -> string)
    ensures Target(id, attributes, createSlug).name == ListingPageVariant <==>
              attributes.state == Some(LISTING_STATE_PENDING_APPROVAL) || attributes.state == Some(LISTING_STATE_DRAFT)
  {
  }
}
