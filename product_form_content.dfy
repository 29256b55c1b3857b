/**
 * The sectioned product form used for both creating and editing: the set of
 * expanded sections, the draft autosave kept in browser storage, restoring
 * that draft, and the submit handler that picks URL and method from the mode.
 * Storage is a field holding the stored draft (its JSON text is not
 * modelled); the clock and the outcome of `fetch` are parameters.
 */
module ProductFormContent {
  import opened Wrappers
  import Js
  import Validations

  datatype Mode = Create | Edit
  datatype Section = Basic | Media | Pricing | Publish

  /** The fields of a stored product the form starts from. */
  datatype Product = Product(
    id: string, title: string, slug: string, description: Option<string>,
    shortDescription: Option<string>, price: real, status: string,
    filePath: Option<string>, thumbnailUrl: Option<string>)

  const AllSections: set<Section> := {Basic, Media, Pricing, Publish}

  /** The form's default values: the product's fields, a missing text becoming '', or the empty form. */
  function InitialValues(product: Option<Product>): (r: Validations.ProductForm)
    ensures product.None? ==> r.title == "" && r.slug == "" && r.price == 0.0 && r.status == "draft"
    ensures product.Some? ==> (r.title == product.value.title && r.slug == product.value.slug
      && r.price == product.value.price && r.status == product.value.status)
    ensures r.description.Some? && r.shortDescription.Some? && r.filePath.Some? && r.thumbnailUrl.Some?
    ensures r.categoryIds.None? && r.collectionIds.None? && r.metaTitle.None? && r.metaDescription.None?
  {
    match product
    case Some(p) =>
      Validations.ProductForm(p.title, p.slug, Some(Js.Or(p.description, "")), Some(Js.Or(p.shortDescription, "")),
        p.price, p.status, Some(Js.Or(p.filePath, "")), Some(Js.Or(p.thumbnailUrl, "")), None, None, None, None)
    case None =>
      Validations.ProductForm("", "", Some(""), Some(""), 0.0, "draft", Some(""), Some(""), None, None, None, None)
  }

  /**
   * The four sections have inputs for the title, slug, descriptions, price,
   * status and file path only: an edit leaves every other field as it started.
   */
  predicate SectionEdited(f: Validations.ProductForm, start: Validations.ProductForm) {
    && f.thumbnailUrl == start.thumbnailUrl
    && f.categoryIds == start.categoryIds && f.collectionIds == start.collectionIds
    && f.metaTitle == start.metaTitle && f.metaDescription == start.metaDescription
  }

  /**
   * As written, a create form (and an edit form whose product has no thumbnail)
   * starts with thumbnailUrl '', which the URL rule refuses; no section can change
   * it, so no edited form is valid and the resolver never lets the submit through.
   */
  lemma WrittenInitialValuesNeverValidate(f: Validations.ProductForm, product: Option<Product>,
                                          isUrl: string -> bool, isUuid: string -> bool)
    requires product.None? || !Js.Truthy(product.value.thumbnailUrl)
    requires SectionEdited(f, InitialValues(product))
    requires !isUrl("")
    ensures !Validations.ValidProductForm(f, isUrl, isUuid)
  {
    assert f.thumbnailUrl == Some("");
  }

  /** The evidently intended defaults: a missing thumbnail stays undefined instead of becoming ''. */
  function IntendedInitialValues(product: Option<Product>): (r: Validations.ProductForm)
    ensures r.thumbnailUrl.Some? ==> product.Some? && r.thumbnailUrl == product.value.thumbnailUrl && r.thumbnailUrl.value != ""
    ensures product.Some? && Js.Truthy(product.value.thumbnailUrl) ==> r == InitialValues(product)
    ensures r.(thumbnailUrl := InitialValues(product).thumbnailUrl) == InitialValues(product)
  {
    var written := InitialValues(product);
    written.(thumbnailUrl := if product.Some? then Js.OrUndefined(product.value.thumbnailUrl) else None)
  }

  /** With the intended defaults, a new product needs only a title and its slug to be valid. */
  lemma IntendedCreateFormCanBeCompleted(isUrl: string -> bool, isUuid: string -> bool)
    ensures var f := IntendedInitialValues(None).(title := "Kit", slug := "kit");
      SectionEdited(f, IntendedInitialValues(None)) && Validations.ValidProductForm(f, isUrl, isUuid)
  {
    var f := IntendedInitialValues(None).(title := "Kit", slug := "kit");
    assert Validations.MatchesSlugPattern("kit");
    assert Validations.ValidProductForm(f, isUrl, isUuid);
  }

  /** A new set with `section` deleted if it was there and added if it was not. */
  function Toggle(expanded: set<Section>, section: Section): (r: set<Section>)
    ensures section in r <==> section !in expanded
    ensures forall s :: s != section ==> (s in r <==> s in expanded)
  {
    if section in expanded then expanded - {section} else expanded + {section}
  }

  /** Toggling a section twice gives back the original set. */
  lemma ToggleTwice(expanded: set<Section>, section: Section)
    ensures Toggle(Toggle(expanded, section), section) == expanded
  {
  }

  /** Toggles of different sections commute. */
  lemma TogglesCommute(expanded: set<Section>, a: Section, b: Section)
    ensures Toggle(Toggle(expanded, a), b) == Toggle(Toggle(expanded, b), a)
  {
  }

  /** The autosave effect fires only in create mode and only for a non-empty title. */
  predicate AutosaveTriggered(mode: Mode, debounced: Validations.ProductForm) {
    mode == Create && debounced.title != ""
  }

  /** Where the form is sent and with which method; a missing product renders its id as "undefined". */
  function SubmitTarget(mode: Mode, product: Option<Product>): (r: (string, string))
    ensures mode == Create ==> r == ("/api/products", "POST")
    ensures mode == Edit && product.Some? ==> r == ("/api/products/" + product.value.id, "PATCH")
    ensures mode == Edit && product.None? ==> r == ("/api/products/undefined", "PATCH")
  {
    if mode == Create then ("/api/products", "POST")
    else if product.Some? then ("/api/products/" + product.value.id, "PATCH")
    else ("/api/products/undefined", "PATCH")
  }

  /** What the submit request produced; the body is parsed before the status is looked at. */
  datatype Body = Unparseable(message: string) | Json(error: Option<string>)
  datatype FetchResult = Threw(message: string) | Responded(ok: bool, body: Body)

  datatype Toast = Success(text: string) | Failure(text: string) | Info(text: string)

  /** The stored draft: `JSON.stringify` of the form values, or a text that does not parse. */
  datatype StoredDraft = Corrupt | Draft(values: Validations.ProductForm)

  /** The error message of a failed submit, or None when the save succeeded. */
  function SubmitFailure(result: FetchResult): (r: Option<string>)
    ensures r.None? <==> result.Responded? && result.ok && result.body.Json?
    ensures result.Responded? && !result.ok && result.body.Json?
      ==> r == Some(Js.Or(result.body.error, "Failed to save product"))
  {
    match result
    case Threw(m) => Some(m)
    case Responded(ok, Unparseable(m)) => Some(m)
    case Responded(ok, Json(e)) => if ok then None else Some(Js.Or(e, "Failed to save product"))
  }

  /**
   * `Object.keys(parsed).forEach(key => form.setValue(key, parsed[key]))`:
   * JSON drops undefined fields, so an optional field the draft leaves out keeps the form's value.
   */
  function RestoreOver(form: Validations.ProductForm, d: Validations.ProductForm): (r: Validations.ProductForm)
    ensures r.title == d.title && r.slug == d.slug && r.price == d.price && r.status == d.status
    ensures d.description.Some? ==> r.description == d.description
    ensures d.description.None? ==> r.description == form.description
  {
    Validations.ProductForm(d.title, d.slug,
      if d.description.Some? then d.description else form.description,
      if d.shortDescription.Some? then d.shortDescription else form.shortDescription,
      d.price, d.status,
      if d.filePath.Some? then d.filePath else form.filePath,
      if d.thumbnailUrl.Some? then d.thumbnailUrl else form.thumbnailUrl,
      if d.categoryIds.Some? then d.categoryIds else form.categoryIds,
      if d.collectionIds.Some? then d.collectionIds else form.collectionIds,
      if d.metaTitle.Some? then d.metaTitle else form.metaTitle,
      if d.metaDescription.Some? then d.metaDescription else form.metaDescription)
  }

  /** Restoring a draft over the form it was saved from gives that form back. */
  lemma RestoreOfSavedIsIdentity(form: Validations.ProductForm)
    ensures RestoreOver(form, form) == form
  {
  }

  /** A draft saved from a create form restores all of it over the empty defaults. */
  lemma RestoreOverDefaults(saved: Validations.ProductForm)
    requires saved.description.Some? && saved.shortDescription.Some? && saved.filePath.Some? && saved.thumbnailUrl.Some?
    ensures var r := RestoreOver(InitialValues(None), saved);
      r.title == saved.title && r.slug == saved.slug && r.description == saved.description
      && r.shortDescription == saved.shortDescription && r.filePath == saved.filePath
      && r.thumbnailUrl == saved.thumbnailUrl && r.categoryIds == saved.categoryIds
  {
  }

  class Form {
    const mode: Mode
    const product: Option<Product>
    var activeSection: Section
    var expanded: set<Section>
    var isSubmitting: bool
    var isSaving: bool
    var lastSaved: Option<int>
    var values: Validations.ProductForm
    /** The browser's 'product-draft' entry. */
    var draft: Option<StoredDraft>
    var toasts: seq<Toast>
    /** How many times `onSuccess` has been called. */
    var successCalls: nat

    constructor (mode: Mode, product: Option<Product>, stored: Option<StoredDraft>)
      ensures this.mode == mode && this.product == product
      ensures activeSection == Basic && expanded == AllSections
      ensures !isSubmitting && !isSaving && lastSaved.None?
      ensures values == InitialValues(product) && draft == stored
      ensures toasts == [] && successCalls == 0
    {
      this.mode := mode;
      this.product := product;
      activeSection := Basic;
      expanded := AllSections;
      isSubmitting := false;
      isSaving := false;
      lastSaved := None;
      values := InitialValues(product);
      draft := stored;
      toasts := [];
      successCalls := 0;
    }

    /** The mount effect: in create mode a stored draft that parses is written over the form. */
    method LoadDraft()
      modifies this
      ensures mode == Create && draft.Some? && draft.value.Draft? ==>
        values == RestoreOver(old(values), draft.value.values) && toasts == old(toasts) + [Info("Draft restored")]
      ensures !(mode == Create && draft.Some? && draft.value.Draft?) ==> values == old(values) && toasts == old(toasts)
      ensures draft == old(draft) && expanded == old(expanded) && isSaving == old(isSaving)
      ensures isSubmitting == old(isSubmitting) && successCalls == old(successCalls) && lastSaved == old(lastSaved)
      ensures activeSection == old(activeSection)
    {
      if mode == Create && draft.Some? && draft.value.Draft? {
        values := RestoreOver(values, draft.value.values);
        toasts := toasts + [Info("Draft restored")];
      }
    }

    /** `toggleSection` */
    method ToggleSection(section: Section)
      modifies this
      ensures expanded == Toggle(old(expanded), section)
      ensures activeSection == old(activeSection) && values == old(values) && draft == old(draft)
      ensures isSubmitting == old(isSubmitting) && isSaving == old(isSaving) && lastSaved == old(lastSaved)
      ensures toasts == old(toasts) && successCalls == old(successCalls)
    {
      var next := expanded;
      if section in next {
        next := next - {section};
      } else {
        next := next + {section};
      }
      expanded := next;
    }

    /** `scrollToSection`: the section becomes the active one (the scrolling itself is not modelled). */
    method ScrollToSection(section: Section)
      modifies this
      ensures activeSection == section && expanded == old(expanded) && values == old(values)
      ensures draft == old(draft) && isSubmitting == old(isSubmitting) && isSaving == old(isSaving)
      ensures lastSaved == old(lastSaved) && toasts == old(toasts) && successCalls == old(successCalls)
    {
      activeSection := section;
    }

    /** A user edit of the form values. */
    method SetValues(next: Validations.ProductForm)
      modifies this
      ensures values == next
      ensures draft == old(draft) && expanded == old(expanded) && isSaving == old(isSaving)
      ensures isSubmitting == old(isSubmitting) && lastSaved == old(lastSaved)
      ensures activeSection == old(activeSection) && toasts == old(toasts) && successCalls == old(successCalls)
    {
      values := next;
    }

    /**
     * `autoSaveDraft`: skipped while saving or submitting; otherwise the values
     * are stored and the time recorded, unless storage throws.
     */
    method AutoSaveDraft(data: Validations.ProductForm, now: int, storageOk: bool)
      modifies this
      ensures isSaving == old(isSaving)
      ensures old(isSaving) || old(isSubmitting) || !storageOk ==> draft == old(draft) && lastSaved == old(lastSaved)
      ensures !old(isSaving) && !old(isSubmitting) && storageOk ==> draft == Some(Draft(data)) && lastSaved == Some(now)
      ensures values == old(values) && isSubmitting == old(isSubmitting) && expanded == old(expanded)
      ensures activeSection == old(activeSection) && toasts == old(toasts) && successCalls == old(successCalls)
    {
      if isSaving || isSubmitting {
        return;
      }
      isSaving := true;
      if storageOk {
        draft := Some(Draft(data));
        lastSaved := Some(now);
      }
      isSaving := false;
    }

    /** The autosave effect, run when the debounced values settle. */
    method OnDebouncedValues(debounced: Validations.ProductForm, now: int, storageOk: bool)
      modifies this
      ensures !AutosaveTriggered(mode, debounced) ==> draft == old(draft) && lastSaved == old(lastSaved)
      ensures mode == Edit ==> draft == old(draft)
      ensures AutosaveTriggered(mode, debounced) && !old(isSaving) && !old(isSubmitting) && storageOk
        ==> draft == Some(Draft(debounced)) && lastSaved == Some(now)
      ensures AutosaveTriggered(mode, debounced) && (old(isSaving) || old(isSubmitting) || !storageOk)
        ==> draft == old(draft) && lastSaved == old(lastSaved)
      ensures values == old(values) && isSubmitting == old(isSubmitting) && isSaving == old(isSaving)
      ensures activeSection == old(activeSection) && expanded == old(expanded)
      ensures toasts == old(toasts) && successCalls == old(successCalls)
    {
      if mode == Create && debounced.title != "" {
        AutoSaveDraft(debounced, now, storageOk);
      }
    }

    /**
     * `onSubmit`: on success a toast, the draft removed in create mode only,
     * and one `onSuccess` call; on failure an error toast. Either way
     * submitting is over afterwards.
     */
    method OnSubmit(result: FetchResult)
      modifies this
      ensures !isSubmitting
      ensures SubmitFailure(result).None? ==>
        && toasts == old(toasts) + [Success(if mode == Create then "Product created!" else "Product updated!")]
        && successCalls == old(successCalls) + 1
        && draft == (if mode == Create then None else old(draft))
      ensures SubmitFailure(result).Some? ==>
        toasts == old(toasts) + [Failure(SubmitFailure(result).value)]
        && successCalls == old(successCalls) && draft == old(draft)
      ensures values == old(values) && expanded == old(expanded) && isSaving == old(isSaving)
      ensures activeSection == old(activeSection) && lastSaved == old(lastSaved)
    {
      isSubmitting := true;
      var failure := SubmitFailure(result);
      if failure.None? {
        toasts := toasts + [Success(if mode == Create then "Product created!" else "Product updated!")];
        if mode == Create {
          draft := None;
        }
        successCalls := successCalls + 1;
      } else {
        toasts := toasts + [Failure(failure.value)];
      }
      isSubmitting := false;
    }

    /**
     * `form.handleSubmit(onSubmit)`, behind both submit buttons: the resolver
     * validates the whole form first; an invalid form never reaches `onSubmit`.
     */
    method HandleSubmit(isUrl: string -> bool, isUuid: string -> bool, result: FetchResult)
      modifies this
      ensures Validations.ValidProductForm(old(values), isUrl, isUuid) ==>
        && !isSubmitting
        && (SubmitFailure(result).None? ==>
          && toasts == old(toasts) + [Success(if mode == Create then "Product created!" else "Product updated!")]
          && successCalls == old(successCalls) + 1
          && draft == (if mode == Create then None else old(draft)))
        && (SubmitFailure(result).Some? ==>
          toasts == old(toasts) + [Failure(SubmitFailure(result).value)]
          && successCalls == old(successCalls) && draft == old(draft))
      ensures !Validations.ValidProductForm(old(values), isUrl, isUuid) ==>
        && isSubmitting == old(isSubmitting) && toasts == old(toasts)
        && successCalls == old(successCalls) && draft == old(draft)
      ensures values == old(values) && expanded == old(expanded) && isSaving == old(isSaving)
      ensures activeSection == old(activeSection) && lastSaved == old(lastSaved)
    {
      if Validations.ValidProductForm(values, isUrl, isUuid) {
        OnSubmit(result);
      }
    }
  }

  /**
   * The create form as written: whatever is typed into the sections, submitting
   * sends nothing, so no toast appears, `onSuccess` is never called and the
   * autosaved draft stays in storage.
   */
  method WrittenCreateFormNeverSubmits(edited: Validations.ProductForm, stored: Option<StoredDraft>,
                                       result: FetchResult, isUrl: string -> bool, isUuid: string -> bool)
    returns (toasts: seq<Toast>, successCalls: nat, draft: Option<StoredDraft>)
    requires SectionEdited(edited, InitialValues(None))
    requires !isUrl("")
    ensures toasts == [] && successCalls == 0 && draft == stored
  {
    var form := new Form(Create, None, stored);
    form.SetValues(edited);
    WrittenInitialValuesNeverValidate(edited, None, isUrl, isUuid);
    form.HandleSubmit(isUrl, isUuid, result);
    toasts, successCalls, draft := form.toasts, form.successCalls, form.draft;
  }
}
