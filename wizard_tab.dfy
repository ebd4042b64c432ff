/** One tab of the listing wizard: which panel it shows and with which
    submit-button message, how the values a panel submits are normalised,
    which collaborator is called for the URL's type (`new`, `draft` or an
    edit), and what happens once the call succeeds (scrolling, a history
    navigation, publishing). Collaborators and `history` are not called:
    the model returns the call and the effects as values, and the
    collaborator's success or failure is an input. */
module EditListingWizardTab {

  import opened Wrappers
  import opened JsValues
  import opened Listings

  const AVAILABILITY := "availability"
  const DESCRIPTION := "description"
  const FEATURES := "features"
  const POLICY := "policy"
  const LOCATION := "location"
  const PRICING := "pricing"
  const PHOTOS := "photos"
  const CAPACITY := "capacity"

  const SUPPORTED_TABS: seq<string> :=
    [DESCRIPTION, FEATURES, POLICY, LOCATION, PRICING, AVAILABILITY, PHOTOS, CAPACITY]

  const LISTING_PAGE_PARAM_TYPE_NEW := "new"
  const LISTING_PAGE_PARAM_TYPE_DRAFT := "draft"

  /** Route parameters; a parameter that is `undefined` is absent. */
  type Params = map<string, string>

  // ---------------------------------------------------------------------
  // The next tab

  /** `tabs.findIndex(s => s === tab)` */
  function FindIndex(tabs: seq<string>, tab: string): (i: int)
    ensures -1 <= i < |tabs|
    ensures i == -1 <==> tab !in tabs
    ensures i >= 0 ==> tabs[i] == tab && tab !in tabs[..i]
  {
    if tabs == [] then -1
    else if tabs[0] == tab then 0
    else
      var j := FindIndex(tabs[1..], tab);
      assert j >= 0 ==> tabs[..j + 1] == [tabs[0]] + tabs[1..][..j];
      if j == -1 then -1 else j + 1
  }

  /** The tab after `tab`: the element after its first occurrence, the last
      tab when it is the last, the first tab when it is not listed, and
      `undefined` when there are no tabs. */
  function NextTab(tab: string, tabs: seq<string>): (r: Option<string>)
    ensures r.None? <==> tabs == []
    ensures r.Some? ==> r.value in tabs
    ensures tabs != [] && tab !in tabs ==> r == Some(tabs[0])
    ensures forall i :: 0 <= i < |tabs| - 1 && tabs[i] == tab && tab !in tabs[..i] ==> r == Some(tabs[i + 1])
    ensures tabs != [] && tab == tabs[|tabs| - 1] && tab !in tabs[..|tabs| - 1] ==> r == Some(tab)
  {
    var next := FindIndex(tabs, tab) + 1;
    if next < |tabs| then Some(tabs[next])
    else if tabs != [] then Some(tabs[|tabs| - 1])
    else None
  }

  /** `pathParamsToNextTab`: the same parameters with `tab` moved on. */
  function PathParamsToNextTab(params: Params, tab: string, tabs: seq<string>): (r: Params)
    ensures forall k :: k != "tab" ==> (k in r <==> k in params)
    ensures forall k :: k in params && k != "tab" ==> r[k] == params[k]
    ensures "tab" in r <==> tabs != []
    ensures "tab" in r ==> Some(r["tab"]) == NextTab(tab, tabs)
  {
    match NextTab(tab, tabs)
    case Some(t) => params["tab" := t]
    case None => params - {"tab"}
  }

  /** In a list without repeats, every tab but the last moves to its
      successor and the last stays put. */
  lemma {:induction false} NextTabInDistinctList(tabs: seq<string>, i: nat)
    requires forall j, k :: 0 <= j < k < |tabs| ==> tabs[j] != tabs[k]
    requires i < |tabs|
    ensures i < |tabs| - 1 ==> NextTab(tabs[i], tabs) == Some(tabs[i + 1])
    ensures i == |tabs| - 1 ==> NextTab(tabs[i], tabs) == Some(tabs[i])
  {
    assert tabs[i] !in tabs[..i] by {
      forall j | 0 <= j < i
        ensures tabs[..i][j] != tabs[i]
      {
        assert tabs[..i][j] == tabs[j];
      }
    }
  }

  /** The wizard's own tab order has no repeats. */
  lemma SupportedTabsDistinct()
    ensures forall j, k :: 0 <= j < k < |SUPPORTED_TABS| ==> SUPPORTED_TABS[j] != SUPPORTED_TABS[k]
  {
  }

  // ---------------------------------------------------------------------
  // The URL's type and the listing type

  datatype UrlType = NewUri | DraftUri | EditUri

  function UrlTypeOf(params: Params): (u: UrlType)
    ensures u.NewUri? <==> "type" in params && params["type"] == LISTING_PAGE_PARAM_TYPE_NEW
    ensures u.DraftUri? <==> "type" in params && params["type"] == LISTING_PAGE_PARAM_TYPE_DRAFT
  {
    if "type" in params && params["type"] == LISTING_PAGE_PARAM_TYPE_NEW then NewUri
    else if "type" in params && params["type"] == LISTING_PAGE_PARAM_TYPE_DRAFT then DraftUri
    else EditUri
  }

  /** `isNewURI || isDraftURI` */
  predicate IsNewListingFlow(params: Params) {
    !UrlTypeOf(params).EditUri?
  }

  /** `const { listingType = '' } = params` */
  function ListingTypeParam(params: Params): (t: string)
    ensures "listingType" in params ==> t == params["listingType"]
    ensures "listingType" !in params ==> t == ""
  {
    if "listingType" in params then params["listingType"] else ""
  }

  // ---------------------------------------------------------------------
  // Image normalisation

  /** The images value `imageIds` can map without throwing: falsy, or an
      array of objects. */
  predicate ImagesMappable(images: Json) {
    !IsTruthy(images) || (images.Arr? && forall i :: 0 <= i < |images.items| ==> !IsNullishJson(images.items[i]))
  }

  predicate IsNullishJson(v: Json) {
    v.Undefined? || v.Null?
  }

  /** `img.imageId || img.id` */
  function ImageId(img: Json): (r: Json)
    requires !IsNullishJson(img)
    ensures IsTruthy(Get(img, "imageId")) ==> r == Get(img, "imageId")
    ensures !IsTruthy(Get(img, "imageId")) ==> r == Get(img, "id")
  {
    Or(Get(img, "imageId"), Get(img, "id"))
  }

  /** `imageIds(images)`: one id per image, in order; `null` for a falsy
      list. */
  function ImageIds(images: Json): (r: Json)
    requires ImagesMappable(images)
    ensures !IsTruthy(images) ==> r == Null
    ensures images.Arr? ==> r.Arr? && |r.items| == |images.items|
    ensures images.Arr? ==> forall i :: 0 <= i < |images.items| ==> r.items[i] == ImageId(images.items[i])
  {
    if !IsTruthy(images) then Null
    else Arr(seq(|images.items|, i requires 0 <= i < |images.items| => ImageId(images.items[i])))
  }

  /** Values whose `images` entry, if any, `imageIds` can map. */
  predicate ValuesMappable(values: map<string, Json>) {
    "images" in values ==> ImagesMappable(values["images"])
  }

  /** `{ ...otherValues, ...imageProperty }`: the submitted values with
      `images` replaced by its ids when it is defined, and dropped when it
      is `undefined`. */
  function Normalize(values: map<string, Json>): (r: map<string, Json>)
    requires ValuesMappable(values)
    ensures "images" in r <==> "images" in values && !values["images"].Undefined?
    ensures "images" in r ==> r["images"] == ImageIds(values["images"])
    ensures forall k :: k != "images" ==> (k in r <==> k in values)
    ensures forall k :: k in values && k != "images" ==> r[k] == values[k]
  {
    var updatedImages := Get(Obj(values), "images");
    var otherValues := values - {"images"};
    if !updatedImages.Undefined? then otherValues["images" := ImageIds(updatedImages)] else otherValues
  }

  /** Values without images pass through unchanged, and values whose
      `images` is `undefined` lose only that key. */
  lemma NormalizeWithoutImages(values: map<string, Json>)
    requires "images" !in values || values["images"].Undefined?
    ensures Normalize(values) == values - {"images"}
    ensures "images" !in values ==> Normalize(values) == values
  {
  }

  /** A payload built from plain objects keeps every image, in order,
      as its `imageId`, or its `id` when it has no `imageId`. */
  lemma {:induction false} ImageIdsOfUploads(ids: seq<Json>)
    requires forall i :: 0 <= i < |ids| ==> IsTruthy(ids[i])
    ensures var images := Arr(seq(|ids|, i requires 0 <= i < |ids| => Obj(map["id" := ids[i]])));
            ImagesMappable(images) && ImageIds(images) == Arr(ids)
  {
    var images := Arr(seq(|ids|, i requires 0 <= i < |ids| => Obj(map["id" := ids[i]])));
    var r := ImageIds(images);
    assert forall i :: 0 <= i < |ids| ==> r.items[i] == ids[i] by {
      forall i | 0 <= i < |ids|
        ensures r.items[i] == ids[i]
      {
        assert r.items[i] == ImageId(images.items[i]);
      }
    }
    assert r.items == ids;
  }

  // ---------------------------------------------------------------------
  // Redirect after a draft is saved

  datatype Route = EditEquipmentListingPage | EditListingPage

  /** `history.replace(uri)` or `history.push(uri)` of the route with its
      parameters. */
  datatype Navigation = Replace(route: Route, params: Params) | Push(route: Route, params: Params)

  /** `{ ...params, type: LISTING_PAGE_PARAM_TYPE_DRAFT, id: listingId }` */
  function DraftPathParams(listingId: Uuid, params: Params): (r: Params)
    ensures r.Keys == params.Keys + {"type", "id"}
    ensures r["type"] == LISTING_PAGE_PARAM_TYPE_DRAFT && r["id"] == listingId
    ensures forall k :: k in params && k != "type" && k != "id" ==> r[k] == params[k]
  {
    params["type" := LISTING_PAGE_PARAM_TYPE_DRAFT]["id" := listingId]
  }

  /** The edit page of a listing type, if it has one. */
  function EditRoute(listingType: string): (r: Option<Route>)
    ensures r == Some(EditEquipmentListingPage) <==> listingType == EQUIPMENT_LISTING_TYPE
    ensures r == Some(EditListingPage) <==> listingType == SAUNA_LISTING_TYPE
    ensures r.None? <==> listingType != EQUIPMENT_LISTING_TYPE && listingType != SAUNA_LISTING_TYPE
  {
    if listingType == EQUIPMENT_LISTING_TYPE then Some(EditEquipmentListingPage)
    else if listingType == SAUNA_LISTING_TYPE then Some(EditListingPage)
    else None
  }

  /** `redirectAfterDraftUpdate`: from a `new` URL, replace it with the
      draft's URL on the same tab; otherwise push the next tab of the
      draft. Listing types without an edit page navigate nowhere. */
  function RedirectAfterDraftUpdate(listingId: Uuid, params: Params, tab: string, tabs: seq<string>): (nav: Option<Navigation>)
    ensures nav.None? <==> EditRoute(ListingTypeParam(params)).None?
    ensures nav.Some? && UrlTypeOf(params).NewUri? ==>
              nav.value == Replace(EditRoute(ListingTypeParam(params)).value, DraftPathParams(listingId, params))
    ensures nav.Some? && !UrlTypeOf(params).NewUri? ==>
              nav.value == Push(EditRoute(ListingTypeParam(params)).value,
                                PathParamsToNextTab(DraftPathParams(listingId, params), tab, tabs))
  {
    var currentPathParams := DraftPathParams(listingId, params);
    match EditRoute(ListingTypeParam(params))
    case None => None
    case Some(route) =>
      if UrlTypeOf(params).NewUri? then Some(Replace(route, currentPathParams))
      else Some(Push(route, PathParamsToNextTab(currentPathParams, tab, tabs)))
  }

  /** From a `new` URL the redirect only swaps the URL for the draft's:
      the tab stays the one in the URL, whatever tab was saved. */
  lemma NewFlowStaysOnTab(listingId: Uuid, params: Params, tab: string, tabs: seq<string>)
    requires UrlTypeOf(params).NewUri?
    requires EditRoute(ListingTypeParam(params)).Some?
    ensures var nav := RedirectAfterDraftUpdate(listingId, params, tab, tabs);
            nav.Some? && nav.value.Replace?
            && ("tab" in params ==> nav.value.params["tab"] == params["tab"])
            && nav.value.params["id"] == listingId
            && nav.value.params["type"] == LISTING_PAGE_PARAM_TYPE_DRAFT
  {
  }

  /** From a draft URL the redirect pushes the draft's URL with the saved
      tab's successor. */
  lemma {:induction false} DraftFlowMovesOn(listingId: Uuid, params: Params, tabs: seq<string>, i: nat)
    requires UrlTypeOf(params).DraftUri?
    requires EditRoute(ListingTypeParam(params)).Some?
    requires forall j, k :: 0 <= j < k < |tabs| ==> tabs[j] != tabs[k]
    requires i < |tabs| - 1
    ensures var nav := RedirectAfterDraftUpdate(listingId, params, tabs[i], tabs);
            nav.Some? && nav.value.Push?
            && nav.value.params["tab"] == tabs[i + 1]
            && nav.value.params["id"] == listingId
            && nav.value.params["type"] == LISTING_PAGE_PARAM_TYPE_DRAFT
  {
    NextTabInDistinctList(tabs, i);
  }

  // ---------------------------------------------------------------------
  // Completing a tab

  /** The collaborator a submission goes to. */
  datatype Call =
    | CreateListingDraft(values: map<string, Json>)
    | UpdateListing(tab: string, values: map<string, Json>)

  /** How the collaborator's promise settles: with the saved listing's id,
      or rejected. */
  datatype Outcome = Saved(listingId: Uuid) | Failed

  datatype Effect =
    | HandleCreateFlowTabScrolling(smooth: bool)
    | Navigate(nav: Navigation)
    | HandlePublishListing(id: Json)

  /** `tab !== marketplaceTabs[marketplaceTabs.length - 1]` */
  predicate IsNotLastTab(tab: string, tabs: seq<string>) {
    tabs == [] || tab != tabs[|tabs| - 1]
  }

  /** What the settled promise does in the new-listing flow. */
  function AfterUpsert(outcome: Outcome, currentListingId: Json, params: Params, tab: string,
                       tabs: seq<string>): (effects: seq<Effect>)
    ensures outcome.Failed? ==> effects == []
    ensures outcome.Saved? && !IsNotLastTab(tab, tabs) ==> effects == [HandlePublishListing(currentListingId)]
    ensures outcome.Saved? && IsNotLastTab(tab, tabs) ==>
              |effects| >= 1 && effects[0] == HandleCreateFlowTabScrolling(false)
              && forall e :: e in effects ==> !e.HandlePublishListing?
    ensures outcome.Saved? && IsNotLastTab(tab, tabs) ==>
              effects == [HandleCreateFlowTabScrolling(false)]
                         + (match RedirectAfterDraftUpdate(outcome.listingId, params, tab, tabs)
                            case Some(nav) => [Navigate(nav)]
                            case None => [])
  {
    match outcome
    case Failed => []
    case Saved(listingId) =>
      if IsNotLastTab(tab, tabs) then
        match RedirectAfterDraftUpdate(listingId, params, tab, tabs)
        case Some(nav) => [HandleCreateFlowTabScrolling(false), Navigate(nav)]
        case None => [HandleCreateFlowTabScrolling(false)]
      else
        [HandlePublishListing(currentListingId)]
  }

  /** `onCompleteEditListingWizardTab(tab, updateValues)`: the call made for
      the URL's type and the effects once it settles with `outcome`. */
  function OnComplete(params: Params, tabs: seq<string>, currentListingId: Json, tab: string,
                      updateValues: map<string, Json>, outcome: Outcome): (r: (Call, seq<Effect>))
    requires ValuesMappable(updateValues)
    ensures UrlTypeOf(params).NewUri? ==> r.0 == CreateListingDraft(Normalize(updateValues))
    ensures !UrlTypeOf(params).NewUri? ==>
              r.0 == UpdateListing(tab, Normalize(updateValues)["id" := currentListingId])
    ensures IsNewListingFlow(params) ==> r.1 == AfterUpsert(outcome, currentListingId, params, tab, tabs)
    ensures !IsNewListingFlow(params) ==> r.1 == []
  {
    var values := Normalize(updateValues);
    if IsNewListingFlow(params) then
      var call := if UrlTypeOf(params).NewUri? then CreateListingDraft(values)
                  else UpdateListing(tab, values["id" := currentListingId]);
      (call, AfterUpsert(outcome, currentListingId, params, tab, tabs))
    else
      (UpdateListing(tab, values["id" := currentListingId]), [])
  }

  /** Creating a draft sends no id of its own making; updating always sends
      the current listing's id, overriding any submitted one. */
  lemma CompletionIds(params: Params, tabs: seq<string>, currentListingId: Json, tab: string,
                      updateValues: map<string, Json>, outcome: Outcome)
    requires ValuesMappable(updateValues)
    ensures var call := OnComplete(params, tabs, currentListingId, tab, updateValues, outcome).0;
            (call.CreateListingDraft? ==> ("id" in call.values <==> "id" in updateValues))
            && (call.UpdateListing? ==> call.values["id"] == currentListingId && call.tab == tab)
  {
  }

  /** Editing a published listing never navigates and never publishes; a
      failed save in the new-listing flow does nothing either. */
  lemma NoEffectsWhenEditingOrFailed(params: Params, tabs: seq<string>, currentListingId: Json, tab: string,
                                     updateValues: map<string, Json>, outcome: Outcome)
    requires ValuesMappable(updateValues)
    requires !IsNewListingFlow(params) || outcome.Failed?
    ensures OnComplete(params, tabs, currentListingId, tab, updateValues, outcome).1 == []
  {
  }

  /** After a successful save in the new-listing flow, the last tab
      publishes the current listing and nothing else; any other tab scrolls
      and then, for a listing type with an edit page, navigates to the
      saved listing's draft URL, and for any other type stops there. A
      save never both navigates and publishes. */
  lemma {:induction false} PublishOrNavigate(params: Params, tabs: seq<string>, currentListingId: Json, tab: string,
                                              updateValues: map<string, Json>, outcome: Outcome)
    requires ValuesMappable(updateValues)
    ensures var effects := OnComplete(params, tabs, currentListingId, tab, updateValues, outcome).1;
            !((exists e :: e in effects && e.HandlePublishListing?) && (exists e :: e in effects && e.Navigate?))
    ensures var effects := OnComplete(params, tabs, currentListingId, tab, updateValues, outcome).1;
            IsNewListingFlow(params) && outcome.Saved? && !IsNotLastTab(tab, tabs) ==>
              effects == [HandlePublishListing(currentListingId)]
    ensures var effects := OnComplete(params, tabs, currentListingId, tab, updateValues, outcome).1;
            IsNewListingFlow(params) && outcome.Saved? && IsNotLastTab(tab, tabs)
            && EditRoute(ListingTypeParam(params)).Some? ==>
              |effects| == 2 && effects[0] == HandleCreateFlowTabScrolling(false) && effects[1].Navigate?
              && "id" in effects[1].nav.params && effects[1].nav.params["id"] == outcome.listingId
    ensures var effects := OnComplete(params, tabs, currentListingId, tab, updateValues, outcome).1;
            IsNewListingFlow(params) && outcome.Saved? && IsNotLastTab(tab, tabs)
            && EditRoute(ListingTypeParam(params)).None? ==>
              effects == [HandleCreateFlowTabScrolling(false)]
  {
    var effects := OnComplete(params, tabs, currentListingId, tab, updateValues, outcome).1;
    if IsNewListingFlow(params) && outcome.Saved? {
      if !IsNotLastTab(tab, tabs) {
        assert effects == [HandlePublishListing(currentListingId)];
      } else {
        var nav := RedirectAfterDraftUpdate(outcome.listingId, params, tab, tabs);
        if nav.Some? {
          assert effects == [HandleCreateFlowTabScrolling(false), Navigate(nav.value)];
          var draft := DraftPathParams(outcome.listingId, params);
          if !UrlTypeOf(params).NewUri? {
            assert nav.value.params == PathParamsToNextTab(draft, tab, tabs);
          }
        } else {
          assert effects == [HandleCreateFlowTabScrolling(false)];
        }
      }
    }
  }

  // ---------------------------------------------------------------------
  // The panel and its submit button

  datatype Panel =
    | DescriptionPanel | FeaturesPanel | CapacityPanel | PoliciesPanel
    | LocationPanel | PricingPanel | AvailabilityPanel | PhotosPanel

  const KEY_PREFIX := "EditListingWizard."

  /** `saveNew<stem>` in the new-listing flow, `saveEdit<stem>` otherwise. */
  function FlowKey(stem: string, isNewListingFlow: bool): string {
    if isNewListingFlow then KEY_PREFIX + "saveNew" + stem else KEY_PREFIX + "saveEdit" + stem
  }

  /** The `submitButton*TranslationToUse` helpers: equipment listings get
      `saveNew<stem>Equipment` in every flow, every other type the flow's
      key. */
  function TypedKey(stem: string, listingType: string, isNewListingFlow: bool): string {
    if listingType == EQUIPMENT_LISTING_TYPE then KEY_PREFIX + "saveNew" + stem + "Equipment"
    else FlowKey(stem, isNewListingFlow)
  }

  /** The tab `switch`: the panel a tab shows, `null` for any other tab. */
  function TabPanel(tab: string): (p: Option<Panel>)
    ensures p.Some? <==> tab in SUPPORTED_TABS
  {
    if tab == DESCRIPTION then Some(DescriptionPanel)
    else if tab == FEATURES then Some(FeaturesPanel)
    else if tab == CAPACITY then Some(CapacityPanel)
    else if tab == POLICY then Some(PoliciesPanel)
    else if tab == LOCATION then Some(LocationPanel)
    else if tab == PRICING then Some(PricingPanel)
    else if tab == AVAILABILITY then Some(AvailabilityPanel)
    else if tab == PHOTOS then Some(PhotosPanel)
    else None
  }

  /** The panels whose button message depends on the listing type. */
  predicate IsTypedPanel(p: Panel) {
    p.DescriptionPanel? || p.LocationPanel? || p.PricingPanel? || p.AvailabilityPanel?
  }

  /** The part of a button's message id that names its panel. */
  function PanelStem(p: Panel): string {
    match p
    case DescriptionPanel => "Description"
    case FeaturesPanel => "Features"
    case CapacityPanel => "Capacity"
    case PoliciesPanel => "Policies"
    case LocationPanel => "Location"
    case PricingPanel => "Pricing"
    case AvailabilityPanel => "Availability"
    case PhotosPanel => "Photos"
  }

  /** The message id of a panel's submit button: the four typed panels go
      through their `submitButton*TranslationToUse` helper, the others use
      the flow's key directly. */
  function SubmitButtonKey(p: Panel, listingType: string, isNewListingFlow: bool): (key: string)
    ensures var typedEquipment := IsTypedPanel(p) && listingType == EQUIPMENT_LISTING_TYPE;
            key == KEY_PREFIX + (if typedEquipment || isNewListingFlow then "saveNew" else "saveEdit")
                   + PanelStem(p) + (if typedEquipment then "Equipment" else "")
    ensures IsTypedPanel(p) && listingType == EQUIPMENT_LISTING_TYPE ==>
              IsPrefix(KEY_PREFIX + "saveNew", key) && IsSuffix("Equipment", key)
    ensures !(IsTypedPanel(p) && listingType == EQUIPMENT_LISTING_TYPE) ==>
              (isNewListingFlow <==> IsPrefix(KEY_PREFIX + "saveNew", key))
              && (!isNewListingFlow <==> IsPrefix(KEY_PREFIX + "saveEdit", key))
  {
    var key := match p
      case DescriptionPanel => TypedKey("Description", listingType, isNewListingFlow)
      case LocationPanel => TypedKey("Location", listingType, isNewListingFlow)
      case PricingPanel => TypedKey("Pricing", listingType, isNewListingFlow)
      case AvailabilityPanel => TypedKey("Availability", listingType, isNewListingFlow)
      case FeaturesPanel => FlowKey("Features", isNewListingFlow)
      case CapacityPanel => FlowKey("Capacity", isNewListingFlow)
      case PoliciesPanel => FlowKey("Policies", isNewListingFlow)
      case PhotosPanel => FlowKey("Photos", isNewListingFlow);
    KeyShape(key, PanelStem(p), listingType, isNewListingFlow, IsTypedPanel(p));
    key
  }

  /** No two stems begin with the same two letters. */
  lemma StemsDiffer(p: Panel, q: Panel)
    requires p != q
    ensures |PanelStem(p)| >= 2 && |PanelStem(q)| >= 2
    ensures PanelStem(p)[0] != PanelStem(q)[0] || PanelStem(p)[1] != PanelStem(q)[1]
  {
  }

  lemma LettersOfJoin(a: string, b: string, c: string, k: nat)
    requires k < |a| + |b|
    ensures (a + b + c)[k] == if k < |a| then a[k] else b[k - |a|]
  {
  }

  /** Keys built from flow prefixes and stems that start differently are
      different. */
  lemma KeysDiffer(mp: string, sp: string, xp: string, mq: string, sq: string, xq: string)
    requires mp == KEY_PREFIX + "saveNew" || mp == KEY_PREFIX + "saveEdit"
    requires mq == KEY_PREFIX + "saveNew" || mq == KEY_PREFIX + "saveEdit"
    requires |sp| >= 2 && |sq| >= 2 && (sp[0] != sq[0] || sp[1] != sq[1])
    ensures mp + sp + xp != mq + sq + xq
  {
    var flow := |KEY_PREFIX| + 4;
    LettersOfJoin(mp, sp, xp, flow);
    LettersOfJoin(mq, sq, xq, flow);
    if mp == mq {
      LettersOfJoin(mp, sp, xp, |mp|);
      LettersOfJoin(mp, sp, xp, |mp| + 1);
      LettersOfJoin(mq, sq, xq, |mq|);
      LettersOfJoin(mq, sq, xq, |mq| + 1);
    } else {
      assert mp[flow] != mq[flow];
    }
  }

  /** Two panels never share a button message: the first two letters of
      the stems already differ. */
  lemma SubmitButtonKeyNamesPanel(p: Panel, q: Panel, listingType: string, isNewListingFlow: bool)
    requires p != q
    ensures SubmitButtonKey(p, listingType, isNewListingFlow) != SubmitButtonKey(q, listingType, isNewListingFlow)
  {
    var tp := IsTypedPanel(p) && listingType == EQUIPMENT_LISTING_TYPE;
    var tq := IsTypedPanel(q) && listingType == EQUIPMENT_LISTING_TYPE;
    StemsDiffer(p, q);
    KeysDiffer(KEY_PREFIX + (if tp || isNewListingFlow then "saveNew" else "saveEdit"), PanelStem(p),
               if tp then "Equipment" else "",
               KEY_PREFIX + (if tq || isNewListingFlow then "saveNew" else "saveEdit"), PanelStem(q),
               if tq then "Equipment" else "");
  }

  predicate IsPrefix(p: string, s: string) {
    |p| <= |s| && s[..|p|] == p
  }

  predicate IsSuffix(p: string, s: string) {
    |p| <= |s| && s[|s| - |p|..] == p
  }

  /** What a built key starts and ends with. */
  lemma KeyShape(key: string, stem: string, listingType: string, isNewListingFlow: bool, typed: bool)
    requires typed ==> key == TypedKey(stem, listingType, isNewListingFlow)
    requires !typed ==> key == FlowKey(stem, isNewListingFlow)
    ensures typed && listingType == EQUIPMENT_LISTING_TYPE ==>
              IsPrefix(KEY_PREFIX + "saveNew", key) && IsSuffix("Equipment", key)
    ensures !(typed && listingType == EQUIPMENT_LISTING_TYPE) ==>
              (isNewListingFlow <==> IsPrefix(KEY_PREFIX + "saveNew", key))
              && (!isNewListingFlow <==> IsPrefix(KEY_PREFIX + "saveEdit", key))
  {
    var n := KEY_PREFIX + "saveNew";
    var e := KEY_PREFIX + "saveEdit";
    assert n[|KEY_PREFIX| + 5] != e[|KEY_PREFIX| + 5];
    if typed && listingType == EQUIPMENT_LISTING_TYPE {
      assert key == n + stem + "Equipment";
      assert key[..|n|] == n;
      assert key[|key| - 9..] == "Equipment";
    } else if isNewListingFlow {
      assert key == n + stem;
      assert key[..|n|] == n;
      assert !IsPrefix(e, key);
    } else {
      assert key == e + stem;
      assert key[..|e|] == e;
      assert !IsPrefix(n, key);
    }
  }

  /** What the tab renders: its panel and the message id of its button. */
  datatype TabView = TabView(panel: Panel, submitButtonKey: string)

  function RenderTab(tab: string, params: Params): (v: Option<TabView>)
    ensures v.None? <==> tab !in SUPPORTED_TABS
    ensures v.Some? ==> Some(v.value.panel) == TabPanel(tab)
    ensures v.Some? ==>
              v.value.submitButtonKey == SubmitButtonKey(v.value.panel, ListingTypeParam(params), IsNewListingFlow(params))
  {
    match TabPanel(tab)
    case None => None
    case Some(p) => Some(TabView(p, SubmitButtonKey(p, ListingTypeParam(params), IsNewListingFlow(params))))
  }

  /** The message ids as the component spells them out. */
  lemma EquipmentDescriptionKey(isNew: bool)
    ensures SubmitButtonKey(DescriptionPanel, EQUIPMENT_LISTING_TYPE, isNew) ==
              "EditListingWizard.saveNewDescriptionEquipment"
  {
  }

  lemma SaunaLocationKey()
    ensures SubmitButtonKey(LocationPanel, SAUNA_LISTING_TYPE, true) == "EditListingWizard.saveNewLocation"
  {
  }

  lemma DefaultPricingKey()
    ensures SubmitButtonKey(PricingPanel, "", false) == "EditListingWizard.saveEditPricing"
  {
  }

  lemma EquipmentPoliciesKey()
    ensures SubmitButtonKey(PoliciesPanel, EQUIPMENT_LISTING_TYPE, true) == "EditListingWizard.saveNewPolicies"
  {
  }
}
