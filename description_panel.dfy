/** The description panel of the listing wizard: its heading, the values
    its form starts from, and the update it hands to `onSubmit` for an
    equipment or a sauna listing. */
module EditListingDescriptionPanel {

  import opened Wrappers
  import opened JsValues
  import opened Listings

  const TITLE_MESSAGE := "EditListingDescriptionPanel.title"
  const CREATE_EQUIPMENT_LISTING_TITLE_MESSAGE := "EditListingDescriptionPanel.createEquipmentListingTitle"
  const CREATE_LISTING_TITLE_MESSAGE := "EditListingDescriptionPanel.createListingTitle"

  /** The heading's message id: the edit title for a published listing, and
      a create title, equipment or general, otherwise. */
  function PanelTitle(listing: Option<Listing>, listingType: Option<string>): (id: string)
    ensures IsPublished(EnsureListing(listing)) ==> id == TITLE_MESSAGE
    ensures !IsPublished(EnsureListing(listing)) && listingType == Some(EQUIPMENT_LISTING_TYPE) ==>
              id == CREATE_EQUIPMENT_LISTING_TITLE_MESSAGE
    ensures !IsPublished(EnsureListing(listing)) && listingType != Some(EQUIPMENT_LISTING_TYPE) ==>
              id == CREATE_LISTING_TITLE_MESSAGE
  {
    if IsPublished(EnsureListing(listing)) then TITLE_MESSAGE
    else if listingType == Some(EQUIPMENT_LISTING_TYPE) then CREATE_EQUIPMENT_LISTING_TITLE_MESSAGE
    else CREATE_LISTING_TITLE_MESSAGE
  }

  /** `obj[key]` of a plain object. */
  function Field(m: map<string, Json>, key: string): Json {
    Get(Obj(m), key)
  }

  /** The form's initial values: title and description, then the equipment
      fields from the public data for an equipment listing, or the category
      for any other type. */
  function InitialValues(listing: Option<Listing>, listingType: Option<string>): (v: map<string, Json>)
    ensures "title" in v && "description" in v
    ensures var a := EnsureListing(listing).attributes;
            v["title"] == a.title && v["description"] == a.description
    ensures var pd := EnsureListing(listing).attributes.publicData;
            listingType == Some(EQUIPMENT_LISTING_TYPE) ==>
              v.Keys == {"title", "description", "equipmentCategory", "manufactureYear", "maxUsingTimeADay"}
              && v["equipmentCategory"] == Field(pd, "equipmentCategory")
              && v["manufactureYear"] == Field(pd, "manufactureYear")
              && v["maxUsingTimeADay"] == Field(pd, "maxUsingTimeADay")
    ensures var pd := EnsureListing(listing).attributes.publicData;
            listingType != Some(EQUIPMENT_LISTING_TYPE) ==>
              v.Keys == {"title", "description", "category"} && v["category"] == Field(pd, "category")
  {
    var a := EnsureListing(listing).attributes;
    var pd := a.publicData;
    if listingType == Some(EQUIPMENT_LISTING_TYPE) then
      map["title" := a.title, "description" := a.description,
          "equipmentCategory" := Field(pd, "equipmentCategory"),
          "manufactureYear" := Field(pd, "manufactureYear"),
          "maxUsingTimeADay" := Field(pd, "maxUsingTimeADay")]
    else
      map["title" := a.title, "description" := a.description, "category" := Field(pd, "category")]
  }

  datatype UpdateValues = UpdateValues(title: string, description: Json, publicData: map<string, Json>)

  /** What submitting the form does: calls `onSubmit` with the update, calls
      nothing (a listing type other than equipment and sauna), or throws
      because the title is not a string and has no `trim`. */
  datatype Submission = Submitted(update: UpdateValues) | NotSubmitted | TitleNotText

  /** The equipment public data: the three equipment fields, the category
      defaulting to an empty array when the form has none, tagged with the
      listing type. */
  function EquipmentPublicData(values: map<string, Json>): (pd: map<string, Json>)
    ensures pd.Keys == {"equipmentCategory", "manufactureYear", "maxUsingTimeADay", "listingType"}
    ensures pd["listingType"] == Str(EQUIPMENT_LISTING_TYPE)
    ensures pd["equipmentCategory"] ==
              (if Field(values, "equipmentCategory").Undefined? then Arr([]) else Field(values, "equipmentCategory"))
    ensures pd["manufactureYear"] == Field(values, "manufactureYear")
    ensures pd["maxUsingTimeADay"] == Field(values, "maxUsingTimeADay")
  {
    var given := Field(values, "equipmentCategory");
    map["equipmentCategory" := if given.Undefined? then Arr([]) else given,
        "manufactureYear" := Field(values, "manufactureYear"),
        "maxUsingTimeADay" := Field(values, "maxUsingTimeADay"),
        "listingType" := Str(EQUIPMENT_LISTING_TYPE)]
  }

  /** `handleSubmitListingDescription(values)` */
  function Submit(listingType: Option<string>, values: map<string, Json>): (s: Submission)
    ensures s.NotSubmitted? <==> listingType != Some(EQUIPMENT_LISTING_TYPE) && listingType != Some(SAUNA_LISTING_TYPE)
    ensures s.TitleNotText? <==>
              (listingType == Some(EQUIPMENT_LISTING_TYPE) || listingType == Some(SAUNA_LISTING_TYPE))
              && !Field(values, "title").Str?
    ensures s.Submitted? ==>
              s.update.title == Trim(Field(values, "title").s)
              && s.update.description == Field(values, "description")
    ensures s.Submitted? && listingType == Some(EQUIPMENT_LISTING_TYPE) ==>
              s.update.publicData == EquipmentPublicData(values)
    ensures s.Submitted? && listingType == Some(SAUNA_LISTING_TYPE) ==>
              s.update.publicData == map["category" := Field(values, "category"), "listingType" := Str(SAUNA_LISTING_TYPE)]
  {
    if listingType != Some(EQUIPMENT_LISTING_TYPE) && listingType != Some(SAUNA_LISTING_TYPE) then
      NotSubmitted
    else
      match Field(values, "title")
      case Str(title) =>
        var publicData :=
          if listingType == Some(EQUIPMENT_LISTING_TYPE) then EquipmentPublicData(values)
          else map["category" := Field(values, "category"), "listingType" := Str(SAUNA_LISTING_TYPE)];
        Submitted(UpdateValues(Trim(title), Field(values, "description"), publicData))
      case _ => TitleNotText
  }

  /** Submitting an untouched equipment form writes back the listing's own
      equipment fields, tagged with the listing type, when the listing has
      an equipment category and a title without surrounding whitespace. */
  lemma UntouchedEquipmentForm(listing: Listing, title: string)
    requires listing.attributes.title == Str(title) && Trim(title) == title
    requires !Field(listing.attributes.publicData, "equipmentCategory").Undefined?
    ensures var s := Submit(Some(EQUIPMENT_LISTING_TYPE), InitialValues(Some(listing), Some(EQUIPMENT_LISTING_TYPE)));
            var pd := listing.attributes.publicData;
            s.Submitted? && s.update.title == title && s.update.description == listing.attributes.description
            && s.update.publicData["equipmentCategory"] == Field(pd, "equipmentCategory")
            && s.update.publicData["manufactureYear"] == Field(pd, "manufactureYear")
            && s.update.publicData["maxUsingTimeADay"] == Field(pd, "maxUsingTimeADay")
            && s.update.publicData["listingType"] == Str(EQUIPMENT_LISTING_TYPE)
  {
    var v := InitialValues(Some(listing), Some(EQUIPMENT_LISTING_TYPE));
    var pd := listing.attributes.publicData;
    assert Field(v, "title") == Str(title);
    assert Field(v, "equipmentCategory") == Field(pd, "equipmentCategory");
    assert Field(v, "manufactureYear") == Field(pd, "manufactureYear");
    assert Field(v, "maxUsingTimeADay") == Field(pd, "maxUsingTimeADay");
  }

  /** Submitting the submitted title again changes nothing: the trim is
      idempotent. */
  lemma ResubmitKeepsTitle(listingType: Option<string>, values: map<string, Json>)
    requires Submit(listingType, values).Submitted?
    ensures var u := Submit(listingType, values).update;
            Submit(listingType, values["title" := Str(u.title)]).Submitted?
            && Submit(listingType, values["title" := Str(u.title)]).update.title == u.title
  {
    var title := Field(values, "title").s;
    var first := Submit(listingType, values);
    assert first.update.title == Trim(title);
    var again := values["title" := Str(Trim(title))];
    assert Field(again, "title") == Str(Trim(title));
    var second := Submit(listingType, again);
    assert second.Submitted? && second.update.title == Trim(Trim(title));
    TrimIdempotent(title);
  }

  /** A sauna update always names its type, whatever the form says. */
  lemma SaunaUpdateIsTagged(values: map<string, Json>)
    requires Field(values, "title").Str?
    ensures var s := Submit(Some(SAUNA_LISTING_TYPE), values);
            s.Submitted? && s.update.publicData["listingType"] == Str(SAUNA_LISTING_TYPE)
            && "category" in s.update.publicData
  {
  }
}
