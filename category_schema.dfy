/**
 * The category form schema: `formSchema(isUpdate)` checks the three form
 * fields and yields either "valid" or the messages of every failed rule,
 * field by field.
 */
module CategorySchema {
  import opened Wrappers
  import opened BrowserFile

  const FileRequiredMessage: string := "File is required."
  const FileTypeMessage: string := "Must be a png, jpeg, or jpg."
  const FileSizeMessage: string := "Max file size is 5MB."
  const MinLengthMessage: string := "Must be at least 2 characters."

  /** The MIME types a new category image may have. */
  const AllowedTypes: seq<string> := ["image/png", "image/jpeg", "image/jpg"]
  /** 5 MiB, inclusive. */
  const MaxFileSize: nat := 5 * 1024 * 1024
  const MinLength: nat := 2

  /** The form's three fields: `category-image`, `category-name`, `category-slug`. */
  datatype FormValues = FormValues(image: Option<File>, name: string, slug: string)

  /** The messages each field's rules produced, in the order the rules run. */
  datatype FieldErrors = FieldErrors(image: seq<string>, name: seq<string>, slug: seq<string>)

  datatype Validation = Valid | Invalid(errors: FieldErrors)

  /** Reference definition: an image a new category may be created with. */
  predicate AcceptableImage(f: File) {
    f.mimeType in AllowedTypes && f.size <= MaxFileSize
  }

  /** Reference definition: what the schema accepts, rule by rule. */
  predicate Acceptable(isUpdate: bool, values: FormValues) {
    && (isUpdate || (values.image.Some? && AcceptableImage(values.image.value)))
    && |values.name| >= MinLength
    && |values.slug| >= MinLength
  }

  /**
   * The image rules. In update mode the field is an unconstrained optional.
   * In create mode a missing file fails the custom "is a File" check; both
   * refinements let a missing file through, and both run on a present one,
   * so a file of the wrong type that is also too large gets both messages.
   */
  function ImageErrors(isUpdate: bool, image: Option<File>): (errs: seq<string>)
    ensures isUpdate ==> errs == []
    ensures !isUpdate && image.None? ==> errs == [FileRequiredMessage]
    ensures !isUpdate && image.Some? ==>
              && (FileTypeMessage in errs <==> image.value.mimeType !in AllowedTypes)
              && (FileSizeMessage in errs <==> image.value.size > MaxFileSize)
              && FileRequiredMessage !in errs
              && |errs| <= 2
              && (errs != [] && image.value.mimeType !in AllowedTypes ==> errs[0] == FileTypeMessage)
              && (errs != [] && image.value.mimeType in AllowedTypes ==> errs == [FileSizeMessage])
    ensures errs == [] <==> isUpdate || (image.Some? && AcceptableImage(image.value))
  {
    if isUpdate then []
    else
      match image
      case None => [FileRequiredMessage]
      case Some(f) =>
        (if f.mimeType in AllowedTypes then [] else [FileTypeMessage]) +
        (if f.size <= MaxFileSize then [] else [FileSizeMessage])
  }

  /** `z.string().min(2, …)`: the name and slug rule. */
  function LengthErrors(s: string): (errs: seq<string>)
    ensures errs == [] <==> |s| >= MinLength
    ensures errs != [] ==> errs == [MinLengthMessage]
  {
    if |s| >= MinLength then [] else [MinLengthMessage]
  }

  /** `formSchema(isUpdate)` applied to the form's values. */
  function Validate(isUpdate: bool, values: FormValues): (v: Validation)
    ensures v.Valid? <==> Acceptable(isUpdate, values)
    ensures v.Invalid? ==>
              v.errors == FieldErrors(ImageErrors(isUpdate, values.image),
                                      LengthErrors(values.name), LengthErrors(values.slug))
  {
    var errors := FieldErrors(ImageErrors(isUpdate, values.image),
                              LengthErrors(values.name), LengthErrors(values.slug));
    if errors.image == [] && errors.name == [] && errors.slug == [] then Valid else Invalid(errors)
  }

  /** The name rule fails with exactly one message, and that message, iff the name is shorter than 2. */
  lemma NameRule(isUpdate: bool, values: FormValues)
    ensures Validate(isUpdate, values).Valid? ==> |values.name| >= MinLength
    ensures |values.name| < MinLength ==>
              && Validate(isUpdate, values).Invalid?
              && Validate(isUpdate, values).errors.name == [MinLengthMessage]
  {
  }

  /** The slug rule does not depend on the mode: the slug's messages are the same in both. */
  lemma SlugRuleModeIndependent(values: FormValues)
    ensures LengthErrors(values.slug) == [] <==> |values.slug| >= MinLength
    ensures |values.slug| < MinLength ==>
              && Validate(false, values).errors.slug == [MinLengthMessage]
              && Validate(true, values).errors.slug == [MinLengthMessage]
  {
  }

  /** In update mode the image never matters: any two images give the same verdict. */
  lemma UpdateModeIgnoresImage(image1: Option<File>, image2: Option<File>, name: string, slug: string)
    ensures Validate(true, FormValues(image1, name, slug)) == Validate(true, FormValues(image2, name, slug))
    ensures Validate(true, FormValues(image1, name, slug)).Invalid? ==>
              Validate(true, FormValues(image1, name, slug)).errors.image == []
  {
  }

  /** The size limit is inclusive: exactly 5 MiB passes, one byte more fails. */
  lemma SizeLimitBoundary(mimeType: string)
    requires mimeType in AllowedTypes
    ensures ImageErrors(false, Some(File(mimeType, 5 * 1024 * 1024))) == []
    ensures ImageErrors(false, Some(File(mimeType, 5 * 1024 * 1024 + 1))) == [FileSizeMessage]
  {
  }

  /** A record the create-mode schema accepts always carries an image of allowed type and size. */
  lemma ValidCreateHasImage(values: FormValues)
    requires Validate(false, values).Valid?
    ensures values.image.Some?
    ensures values.image.value.mimeType in AllowedTypes && values.image.value.size <= MaxFileSize
  {
  }
}
