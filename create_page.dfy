/**
 * The create-product page: a form with default values, the title handler
 * shared with the basic section, the upload-complete handler and the submit
 * handler. The request to the products endpoint is a parameter: what the
 * network and the response body turned out to be.
 */
module CreateProductPage {
  import opened Wrappers
  import Js
  import Text
  import Validations
  import SlugGenerator
  import BasicSection

  /** Default values as the page writes them; `thumbnailUrl` starts as the empty string. */
  const WrittenDefaults := Validations.ProductForm(
    title := "", slug := "", description := Some(""), shortDescription := Some(""),
    price := 0.0, status := "draft", filePath := Some(""), thumbnailUrl := Some(""),
    categoryIds := None, collectionIds := None, metaTitle := None, metaDescription := None)

  /**
   * The defaults the page evidently intends: the same, except that the
   * thumbnail URL, which the page has no input for, is left undefined.
   */
  const Defaults := WrittenDefaults.(thumbnailUrl := None)

  /** The page has inputs for these fields only; `thumbnailUrl` is not among them. */
  predicate EditedFrom(f: Validations.ProductForm, start: Validations.ProductForm) {
    && f.thumbnailUrl == start.thumbnailUrl
    && f.categoryIds == start.categoryIds && f.collectionIds == start.collectionIds
    && f.metaTitle == start.metaTitle && f.metaDescription == start.metaDescription
  }

  /**
   * With the written defaults no edit the page allows yields a valid form,
   * because the empty string is not a URL: the submit handler is never reached.
   */
  lemma WrittenDefaultsNeverValidate(f: Validations.ProductForm, isUrl: string -> bool, isUuid: string -> bool)
    requires EditedFrom(f, WrittenDefaults)
    requires !isUrl("")
    ensures !Validations.ValidProductForm(f, isUrl, isUuid)
  {
  }

  /** The untouched defaults are refused: the title and slug are empty. */
  lemma DefaultsAreIncomplete(isUrl: string -> bool, isUuid: string -> bool)
    ensures !Validations.ValidProductForm(Defaults, isUrl, isUuid)
    ensures Defaults.title == "" && Defaults.slug == "" && Defaults.price == 0.0 && Defaults.status == "draft"
  {
  }

  /** The slug generated from the title "Kit". */
  lemma SlugOfKit()
    ensures SlugGenerator.Slugify("Kit") == "kit"
  {
    assert Text.ToLower("Kit") == "kit";
    assert SlugGenerator.CollapseSeparators("t") == "t";
    assert SlugGenerator.CollapseSeparators("it") == "it";
  }

  /** With the intended defaults, typing a title of three letters is enough for a valid form. */
  lemma DefaultsCanBeCompleted(isUrl: string -> bool, isUuid: string -> bool)
    ensures var f := BasicSection.HandleTitleChange(Defaults.(title := "Kit"), "Kit");
      EditedFrom(f, Defaults) && Validations.ValidProductForm(f, isUrl, isUuid)
  {
    SlugOfKit();
    var f := Defaults.(title := "Kit", slug := "kit");
    assert Validations.MatchesSlugPattern("kit");
    assert Validations.ValidProductForm(f, isUrl, isUuid);
  }

  /** What `fetch` produced: a thrown error, or a response whose body parsed or did not. */
  datatype Body = Unparseable(message: string) | Json(error: Option<string>)
  datatype FetchResult = Threw(message: string) | Responded(ok: bool, body: Body)

  datatype Toast = Success(text: string) | Failure(text: string)

  const CreateFailed := "Failed to create product"
  const ProductsPath := "/dashboard/products"

  /** The toast shown after submitting and whether the page then navigates to the product list. */
  function SubmitOutcome(result: FetchResult): (r: (Toast, bool))
    ensures r.1 <==> result.Responded? && result.ok && result.body.Json?
    ensures r.1 <==> r.0.Success?
    ensures result.Responded? && !result.ok && result.body.Json?
      ==> r.0 == Failure(Js.Or(result.body.error, CreateFailed))
    ensures result.Threw? ==> r.0 == Failure(result.message)
  {
    match result
    case Threw(m) => (Failure(m), false)
    case Responded(ok, body) =>
      match body
      case Unparseable(m) => (Failure(m), false)
      case Json(e) =>
        if ok then (Success("Product created successfully"), true)
        else (Failure(Js.Or(e, CreateFailed)), false)
  }

  class Page {
    var isSubmitting: bool
    var filePath: string
    var form: Validations.ProductForm
    var toasts: seq<Toast>
    var location: Option<string>

    constructor ()
      ensures !isSubmitting && filePath == "" && form == WrittenDefaults
      ensures toasts == [] && location == None
    {
      isSubmitting := false;
      filePath := "";
      form := WrittenDefaults;
      toasts := [];
      location := None;
    }

    /** The title input: the field takes the text, then the slug is regenerated from it. */
    method EditTitle(value: string)
      modifies this
      ensures form == BasicSection.HandleTitleChange(old(form).(title := value), value)
      ensures form.title == value && form.slug == SlugGenerator.Slugify(value)
      ensures isSubmitting == old(isSubmitting) && filePath == old(filePath)
      ensures toasts == old(toasts) && location == old(location)
    {
      form := form.(title := value);
      form := BasicSection.HandleTitleChange(form, value);
    }

    /** `handleFileUpload`: the storage key, not the file URL, becomes the file path. */
    method HandleFileUpload(key: string, fileUrl: string)
      modifies this
      ensures filePath == key && form == old(form).(filePath := Some(key))
      ensures toasts == old(toasts) + [Success("File uploaded successfully")]
      ensures isSubmitting == old(isSubmitting) && location == old(location)
    {
      filePath := key;
      form := form.(filePath := Some(key));
      toasts := toasts + [Success("File uploaded successfully")];
    }

    /** `onSubmit`: posts the form; whatever happens, submitting is over afterwards. */
    method OnSubmit(result: FetchResult)
      modifies this
      ensures !isSubmitting
      ensures toasts == old(toasts) + [SubmitOutcome(result).0]
      ensures location == if SubmitOutcome(result).1 then Some(ProductsPath) else old(location)
      ensures form == old(form) && filePath == old(filePath)
    {
      isSubmitting := true;
      var (toast, navigate) := SubmitOutcome(result);
      toasts := toasts + [toast];
      if navigate {
        location := Some(ProductsPath);
      }
      isSubmitting := false;
    }

    /**
     * `form.handleSubmit(onSubmit)`: the resolver validates the whole form first;
     * only a valid form reaches the submit handler, an invalid one changes nothing here.
     */
    method HandleSubmit(isUrl: string -> bool, isUuid: string -> bool, result: FetchResult)
      modifies this
      ensures Validations.ValidProductForm(old(form), isUrl, isUuid) ==>
        && !isSubmitting && toasts == old(toasts) + [SubmitOutcome(result).0]
        && location == (if SubmitOutcome(result).1 then Some(ProductsPath) else old(location))
      ensures !Validations.ValidProductForm(old(form), isUrl, isUuid) ==>
        isSubmitting == old(isSubmitting) && toasts == old(toasts) && location == old(location)
      ensures form == old(form) && filePath == old(filePath)
    {
      if Validations.ValidProductForm(form, isUrl, isUuid) {
        OnSubmit(result);
      }
    }
  }

  /**
   * The page as written: whatever title is typed and whatever file is uploaded,
   * submitting never posts, so no toast about the product appears and the page stays.
   */
  method WrittenPageNeverSubmits(title: string, key: string, fileUrl: string, result: FetchResult,
                                 isUrl: string -> bool, isUuid: string -> bool)
    returns (toasts: seq<Toast>, location: Option<string>)
    requires !isUrl("")
    ensures toasts == [Success("File uploaded successfully")] && location == None
  {
    var page := new Page();
    page.EditTitle(title);
    page.HandleFileUpload(key, fileUrl);
    WrittenDefaultsNeverValidate(page.form, isUrl, isUuid);
    page.HandleSubmit(isUrl, isUuid, result);
    toasts := page.toasts;
    location := page.location;
  }
}
