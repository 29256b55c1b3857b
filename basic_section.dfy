/**
 * The basic-information section of the product form. Its only logic is the
 * title handler, which derives the slug field from the typed title with
 * the slug generator and leaves every other form value alone.
 */
module BasicSection {
  import Text
  import Validations
  import SlugGenerator

  /** `handleTitleChange`: the form's slug becomes the slug generated from `value`. */
  function HandleTitleChange(form: Validations.ProductForm, value: string): (r: Validations.ProductForm)
    ensures SlugGenerator.AllSlugChars(r.slug)
    ensures SlugGenerator.NoEdgeHyphen(r.slug) && SlugGenerator.NoDoubleHyphen(r.slug)
    ensures |r.slug| <= |value|
    ensures SlugGenerator.Alnums(r.slug) == SlugGenerator.Alnums(Text.ToLower(value))
    ensures r.(slug := form.slug) == form
  {
    SlugGenerator.SlugKeepsAlnums(value);
    form.(slug := SlugGenerator.Slugify(value))
  }

  /** Typing the generated slug back in as the title leaves the form as it is. */
  lemma RetypingSlugIsStable(form: Validations.ProductForm, value: string)
    ensures var f := HandleTitleChange(form, value);
      HandleTitleChange(f, f.slug) == f
  {
    SlugGenerator.SlugifyIdempotent(value);
  }

  /** A non-empty generated slug satisfies the slug pattern, though the length rule may still refuse it. */
  lemma TitleChangeSlugPattern(form: Validations.ProductForm, value: string)
    requires SlugGenerator.Slugify(value) != []
    ensures Validations.MatchesSlugPattern(HandleTitleChange(form, value).slug)
    ensures Validations.ValidProductTitle(value) && |HandleTitleChange(form, value).slug| >= 3
      ==> Validations.ValidProductSlug(HandleTitleChange(form, value).slug)
  {
    SlugGenerator.SlugMatchesPattern(value);
  }
}
