/** The listing form of the sell page: the field-keyed error map `validateForm` builds,
    the change handler, and the type check of the cover upload. JavaScript's number
    coercion of the price string (`isNaN(price)`, `price <= 0`) is the parameter
    `toNumber`: `None` where coercion gives NaN, `Some(x)` where it gives the number x. */
module SellBooks {
  import opened Wrappers
  import opened Text

  datatype File = File(name: string, mimeType: string)

  datatype FormData = FormData(
    title: string, author: string, description: string, genre: string,
    condition: string, price: string, coverImage: Option<File>, coverPreview: Option<string>)

  const InitialForm := FormData("", "", "", "", "new", "", None, None)

  /** The keys of `formErrors`: the names of the form's fields. */
  datatype FormField = TitleKey | AuthorKey | DescriptionKey | GenreKey | ConditionKey | PriceKey | CoverImageKey

  /** `formErrors`: an edited field's key stays in the map with `null` (`None`). */
  type FormErrors = map<FormField, Option<string>>

  /** `formErrors[key]` is truthy: a non-empty message is stored under `key`. */
  predicate ErrorIsSet(errors: FormErrors, key: FormField) {
    key in errors && errors[key].Some? && errors[key].value != ""
  }

  datatype SellState = SellState(form: FormData, errors: FormErrors)

  /** The `name` attributes of the text inputs and selects. */
  datatype InputField = Title | Author | Description | Genre | Condition | Price

  /** The input's `name`, as a key of the error map. */
  function FieldName(f: InputField): FormField {
    match f
    case Title => TitleKey
    case Author => AuthorKey
    case Description => DescriptionKey
    case Genre => GenreKey
    case Condition => ConditionKey
    case Price => PriceKey
  }

  function FieldValue(form: FormData, f: InputField): string {
    match f
    case Title => form.title
    case Author => form.author
    case Description => form.description
    case Genre => form.genre
    case Condition => form.condition
    case Price => form.price
  }

  function SetField(form: FormData, f: InputField, v: string): FormData {
    match f
    case Title => form.(title := v)
    case Author => form.(author := v)
    case Description => form.(description := v)
    case Genre => form.(genre := v)
    case Condition => form.(condition := v)
    case Price => form.(price := v)
  }

  /** `handleInputChange`: stores the value under the field's name and, only when that
      field shows an error, resets its entry to `null`; nothing else changes. */
  function HandleInputChange(st: SellState, f: InputField, v: string): (r: SellState)
    ensures FieldValue(r.form, f) == v
    ensures forall g :: g != f ==> FieldValue(r.form, g) == FieldValue(st.form, g)
    ensures r.form.coverImage == st.form.coverImage && r.form.coverPreview == st.form.coverPreview
    ensures ErrorIsSet(st.errors, FieldName(f)) ==> r.errors == st.errors[FieldName(f) := None]
    ensures !ErrorIsSet(st.errors, FieldName(f)) ==> r.errors == st.errors
    ensures !ErrorIsSet(r.errors, FieldName(f))
  {
    var form := SetField(st.form, f, v);
    var key := FieldName(f);
    if ErrorIsSet(st.errors, key) then SellState(form, st.errors[key := None])
    else SellState(form, st.errors)
  }

  const NotAnImage := "Please upload an image file (JPG, PNG, etc.)"

  /** `handleImageUpload` for the chosen file (`None` when none was chosen), with
      `dataUrl` standing for the preview the file reader produces. `type.match('image.*')`
      succeeds when "image" occurs anywhere in the MIME type. */
  function HandleImageUpload(st: SellState, file: Option<File>, dataUrl: string): (r: SellState)
    ensures file.None? ==> r == st
    ensures file.Some? && !Includes(file.value.mimeType, "image") ==>
      r.form == st.form && r.errors == st.errors[CoverImageKey := Some(NotAnImage)]
    ensures file.Some? && Includes(file.value.mimeType, "image") ==>
      r.form == st.form.(coverImage := file, coverPreview := Some(dataUrl))
      && r.errors == st.errors[CoverImageKey := None]
  {
    match file
    case None => st
    case Some(f) =>
      if !Includes(f.mimeType, "image") then
        SellState(st.form, st.errors[CoverImageKey := Some(NotAnImage)])
      else
        SellState(st.form.(coverImage := file, coverPreview := Some(dataUrl)),
                  st.errors[CoverImageKey := None])
  }

  /** The messages of `validateForm`. */
  const TitleRequired := "Title is required"
  const AuthorRequired := "Author name is required"
  const DescriptionRequired := "Description is required"
  const GenreRequired := "Please select a genre"
  const PriceRequired := "Price is required"
  const PriceInvalid := "Please enter a valid price greater than 0"
  const CoverRequired := "Cover image is required"

  /** `!value.trim()`: the value is empty or white space only. */
  method IsBlank(value: string) returns (blank: bool)
    ensures blank <==> AllWhitespace(value)
  {
    TrimEmptyIff(value);
    blank := Trim(value) == "";
  }

  /** One `if (failed) errors[key] = message` step of `validateForm`. */
  function AddErrorIf(errors: FormErrors, failed: bool, key: FormField, message: string): FormErrors {
    if failed then errors[key := Some(message)] else errors
  }

  /** The first four checks of `validateForm`: the trimmed title, author and description
      and the genre must be non-empty. */
  method ValidateRequiredFields(form: FormData) returns (errors: FormErrors)
    ensures ConditionKey !in errors && PriceKey !in errors && CoverImageKey !in errors
    ensures TitleKey in errors <==> AllWhitespace(form.title)
    ensures AuthorKey in errors <==> AllWhitespace(form.author)
    ensures DescriptionKey in errors <==> AllWhitespace(form.description)
    ensures GenreKey in errors <==> form.genre == ""
    ensures TitleKey in errors ==> errors[TitleKey] == Some(TitleRequired)
    ensures AuthorKey in errors ==> errors[AuthorKey] == Some(AuthorRequired)
    ensures DescriptionKey in errors ==> errors[DescriptionKey] == Some(DescriptionRequired)
    ensures GenreKey in errors ==> errors[GenreKey] == Some(GenreRequired)
  {
    var noTitle := IsBlank(form.title);
    var noAuthor := IsBlank(form.author);
    var noDescription := IsBlank(form.description);
    errors := map[];
    errors := AddErrorIf(errors, noTitle, TitleKey, TitleRequired);
    errors := AddErrorIf(errors, noAuthor, AuthorKey, AuthorRequired);
    errors := AddErrorIf(errors, noDescription, DescriptionKey, DescriptionRequired);
    errors := AddErrorIf(errors, form.genre == "", GenreKey, GenreRequired);
  }

  /** The price check of `validateForm`: the message for a missing price, or for one that
      does not coerce to a number above zero. */
  function PriceError(price: string, toNumber: string -> Option<real>): (e: Option<string>)
    ensures e.Some? <==> price == "" || toNumber(price).None? || toNumber(price).value <= 0.0
    ensures e.Some? ==>
      e.value == if price == "" then PriceRequired else PriceInvalid
  {
    if price == "" then Some(PriceRequired)
    else if toNumber(price).None? || toNumber(price).value <= 0.0 then
      Some(PriceInvalid)
    else None
  }

  /** `validateForm`: required text fields are checked after trimming, the genre must be
      chosen, the price must be present and a number above zero, and a cover image must be
      attached; `condition` is never checked. */
  method ValidateForm(form: FormData, toNumber: string -> Option<real>) returns (ok: bool, errors: FormErrors)
    ensures ok <==> errors == map[]
    ensures ConditionKey !in errors
    ensures TitleKey in errors <==> AllWhitespace(form.title)
    ensures AuthorKey in errors <==> AllWhitespace(form.author)
    ensures DescriptionKey in errors <==> AllWhitespace(form.description)
    ensures GenreKey in errors <==> form.genre == ""
    ensures PriceKey in errors <==>
      form.price == "" || toNumber(form.price).None? || toNumber(form.price).value <= 0.0
    ensures CoverImageKey in errors <==> form.coverImage.None?
    ensures TitleKey in errors ==> errors[TitleKey] == Some(TitleRequired)
    ensures AuthorKey in errors ==> errors[AuthorKey] == Some(AuthorRequired)
    ensures DescriptionKey in errors ==> errors[DescriptionKey] == Some(DescriptionRequired)
    ensures GenreKey in errors ==> errors[GenreKey] == Some(GenreRequired)
    ensures PriceKey in errors ==>
      errors[PriceKey] == Some(if form.price == "" then PriceRequired else PriceInvalid)
    ensures CoverImageKey in errors ==> errors[CoverImageKey] == Some(CoverRequired)
  {
    errors := ValidateRequiredFields(form);
    var priceError := PriceError(form.price, toNumber);
    if priceError.Some? {
      errors := errors[PriceKey := priceError];
    }
    if form.coverImage.None? {
      errors := errors[CoverImageKey := Some(CoverRequired)];
    }
    ok := |errors.Keys| == 0;
  }
}
