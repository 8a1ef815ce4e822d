/**
 * The category form's controller: the submit handler, the form reset, the
 * image-change handler and the preview's clear button, over the component
 * state `isLoading`, `previewImage`, the form values (with the image field's
 * shown error) and the file input's value. Toasts are kept as a list of
 * notices so that what the user is told can be stated.
 */
module CategoryFormController {
  import opened Wrappers
  import opened BrowserFile
  import opened CategorySchema
  import opened CategoryWrite

  datatype Notice = SuccessToast(text: string) | ErrorToast(text: string)

  const NotFoundMessage: string := "Category not found!"
  const UpdatedMessage: string := "Category updated successfully!"
  const CreatedMessage: string := "Category created successfully!"

  /** The form's `defaultValues`, which `form.reset()` restores. */
  const DefaultValues: FormValues := FormValues(None, "", "")

  /** The message a field shows: the resolver keeps the first issue of each field. */
  function FirstMessage(errs: seq<string>): (shown: Option<string>)
    ensures shown.None? <==> errs == []
    ensures shown.Some? ==> shown.value == errs[0]
  {
    if errs == [] then None else Some(errs[0])
  }

  /**
   * `values["category-image"] || existingCategory.imageUrl`: the chosen file,
   * or else the stored URL string, which is truthy whenever it is non-empty.
   */
  function SubmittedImage(chosen: Option<File>, existing: Category): (image: UpdateImage)
    ensures chosen.Some? ==> image == NewFile(chosen.value)
    ensures chosen.None? ==> image.StoredUrl? && image.url == existing.imageUrl
    ensures Truthy(image) <==> chosen.Some? || existing.imageUrl != ""
  {
    if chosen.Some? then NewFile(chosen.value) else StoredUrl(existing.imageUrl)
  }

  /** `if (fileInputRef.current) fileInputRef.current.value = ""`. */
  function ClearedInput(input: Option<string>): (cleared: Option<string>)
    ensures cleared.Some? <==> input.Some?
    ensures cleared.Some? ==> cleared.value == ""
  {
    if input.Some? then Some("") else None
  }

  /** `e.target.files?.[0] || undefined`. */
  function FirstFile(files: Option<seq<File>>): (chosen: Option<File>)
    ensures chosen.Some? <==> files.Some? && |files.value| > 0
    ensures chosen.Some? ==> chosen.value == files.value[0]
  {
    if files.Some? && |files.value| > 0 then Some(files.value[0]) else None
  }

  class CategoryForm {
    /** The `id` search parameter, or "" when it is absent. */
    const id: string
    /** The `categories` collection the form reads and writes. */
    const store: CategoryStore

    var isLoading: bool
    /** The preview image's URL, or null. */
    var previewImage: Option<string>
    var values: FormValues
    /** The message shown under the image field, if any. */
    var imageError: Option<string>
    /** The file input's value; none while the input is not mounted. */
    var fileInput: Option<string>
    var notices: seq<Notice>

    constructor (idParam: Option<string>, repository: CategoryStore)
      ensures id == idParam.GetOr("") && store == repository
      ensures !isLoading && previewImage == None && values == DefaultValues
      ensures imageError == None && fileInput == Some("") && notices == []
    {
      id := idParam.GetOr("");
      store := repository;
      isLoading := false;
      previewImage := None;
      values := DefaultValues;
      imageError := None;
      fileInput := Some("");
      notices := [];
    }

    /** The form is in update mode exactly when an id was given. */
    predicate IsUpdate() {
      id != ""
    }

    /** The resolver: the schema built for this form's mode, applied to a set of values. */
    function Resolve(v: FormValues): (r: Validation)
      ensures r.Valid? <==>
                && |v.name| >= MinLength && |v.slug| >= MinLength
                && (id == "" ==> v.image.Some? && AcceptableImage(v.image.value))
      ensures id != "" ==> r == Validate(true, FormValues(None, v.name, v.slug))
    {
      Validate(IsUpdate(), v)
    }

    /** `resetForm`: default values, no errors, no preview, and an empty file input. */
    method ResetForm()
      modifies this
      ensures values == DefaultValues && imageError == None && previewImage == None
      ensures fileInput == ClearedInput(old(fileInput))
      ensures isLoading == old(isLoading) && notices == old(notices)
    {
      values := DefaultValues;
      imageError := None;
      previewImage := None;
      if fileInput.Some? {
        fileInput := Some("");
      }
    }

    /**
     * `handleImageChange`: store the first selected file (validating the
     * field) and show a preview of it, or no preview when nothing was selected.
     * `objectUrl` stands for what `URL.createObjectURL` returns.
     */
    method HandleImageChange(files: Option<seq<File>>, objectUrl: string)
      modifies this
      ensures values == old(values).(image := FirstFile(files))
      ensures previewImage.None? <==> FirstFile(files).None?
      ensures previewImage.Some? ==> previewImage.value == objectUrl
      ensures imageError == FirstMessage(ImageErrors(IsUpdate(), FirstFile(files)))
      ensures isLoading == old(isLoading) && fileInput == old(fileInput) && notices == old(notices)
    {
      var file := FirstFile(files);
      values := values.(image := file);
      imageError := FirstMessage(ImageErrors(IsUpdate(), file));
      previewImage := if file.Some? then Some(objectUrl) else None;
    }

    /** The preview's clear button: drop the image value (validating the field), the preview and the input's value. */
    method ClearPreview()
      modifies this
      ensures values == old(values).(image := None)
      ensures previewImage == None && fileInput == ClearedInput(old(fileInput))
      ensures imageError == FirstMessage(ImageErrors(IsUpdate(), None))
      ensures IsUpdate() ==> imageError == None
      ensures !IsUpdate() ==> imageError == Some(FileRequiredMessage)
      ensures isLoading == old(isLoading) && notices == old(notices)
    {
      values := values.(image := None);
      imageError := FirstMessage(ImageErrors(IsUpdate(), None));
      previewImage := None;
      if fileInput.Some? {
        fileInput := Some("");
      }
    }

    /**
     * `onSubmit`: in update mode read the record, abort with a notice when it
     * is missing, otherwise update it with the chosen file or the stored URL;
     * in create mode create only when an image value is present. A success
     * resets the form; `isLoading` is set at the start and cleared on every exit.
     */
    method OnSubmit(submitted: FormValues, upload: Uploader, newId: string, now: Instant)
      modifies this, store
      ensures !isLoading
      // create mode without an image: nothing is written and nothing else changes
      ensures !IsUpdate() && submitted.image.None? ==>
                && store.docs == old(store.docs) && notices == old(notices)
                && values == old(values) && previewImage == old(previewImage)
                && imageError == old(imageError) && fileInput == old(fileInput)
      // update mode, record missing: no write, an error notice
      ensures IsUpdate() && id !in old(store.docs) ==>
                && store.docs == old(store.docs)
                && notices == old(notices) + [ErrorToast(NotFoundMessage)]
                && values == old(values) && previewImage == old(previewImage)
                && imageError == old(imageError) && fileInput == old(fileInput)
      // update mode, record present: the update runs with the chosen file or the stored URL
      ensures IsUpdate() && id in old(store.docs) ==>
                var s := UpdateStep(old(store.docs), id, submitted.name, submitted.slug,
                                    SubmittedImage(submitted.image, old(store.docs)[id]), upload, now);
                && store.docs == s.docs
                && (s.result.Updated? ==>
                      && notices == old(notices) + [SuccessToast(UpdatedMessage)]
                      && values == DefaultValues && previewImage == None && imageError == None
                      && fileInput == ClearedInput(old(fileInput)))
                && (s.result.UpdateFailed? ==>
                      && notices == old(notices) + [ErrorToast("Error: " + s.result.error)]
                      && values == old(values) && previewImage == old(previewImage)
                      && imageError == old(imageError) && fileInput == old(fileInput))
      // create mode with an image: the create runs with it
      ensures !IsUpdate() && submitted.image.Some? ==>
                var s := CreateStep(old(store.docs), submitted.name, submitted.slug,
                                    submitted.image.value, upload, newId, now);
                && store.docs == s.docs
                && (s.result.Created? ==>
                      && notices == old(notices) + [SuccessToast(CreatedMessage)]
                      && values == DefaultValues && previewImage == None && imageError == None
                      && fileInput == ClearedInput(old(fileInput)))
                && (s.result.CreateFailed? ==>
                      && notices == old(notices) + [ErrorToast("Error: " + s.result.error)]
                      && values == old(values) && previewImage == old(previewImage)
                      && imageError == old(imageError) && fileInput == old(fileInput))
    {
      isLoading := true;
      if IsUpdate() {
        var existing := store.Get(id);
        if existing.None? {
          notices := notices + [ErrorToast(NotFoundMessage)];
        } else {
          var result := store.UpdateCategory(id, submitted.name, submitted.slug,
                                             SubmittedImage(submitted.image, existing.value), upload, now);
          if result.Updated? {
            notices := notices + [SuccessToast(UpdatedMessage)];
            ResetForm();
          } else {
            notices := notices + [ErrorToast("Error: " + result.error)];
          }
        }
      } else if submitted.image.Some? {
        var result := store.CreateCategory(submitted.name, submitted.slug, submitted.image.value,
                                           upload, newId, now);
        if result.Created? {
          notices := notices + [SuccessToast(CreatedMessage)];
          ResetForm();
          isLoading := false;
        } else {
          notices := notices + [ErrorToast("Error: " + result.error)];
        }
      }
      isLoading := false;
    }
  }

  /**
   * The message the image field shows in create mode: "File is required."
   * for no file, the type message for a file of a type not allowed (even
   * when it is also too large), the size message for an allowed type that is
   * too large, and nothing for an acceptable file.
   */
  lemma ShownImageMessage(image: Option<File>)
    ensures image.None? ==> FirstMessage(ImageErrors(false, image)) == Some(FileRequiredMessage)
    ensures image.Some? && image.value.mimeType !in AllowedTypes ==>
              FirstMessage(ImageErrors(false, image)) == Some(FileTypeMessage)
    ensures image.Some? && image.value.mimeType in AllowedTypes && image.value.size > MaxFileSize ==>
              FirstMessage(ImageErrors(false, image)) == Some(FileSizeMessage)
    ensures image.Some? && AcceptableImage(image.value) ==> FirstMessage(ImageErrors(false, image)) == None
  {
  }

  /**
   * An update submitted from the form without a new file, for a record whose
   * image URL is non-empty, never takes the "keep the stored image" path:
   * the stored URL itself is sent to the host, the update fails if that
   * upload fails, and the record ends up with whatever URL the host answers
   * (the stored one survives only when the host answers an empty URL).
   */
  lemma FormResendsStoredUrl(docs: Collection, id: string, name: string, slug: string,
                             upload: Uploader, now: Instant)
    requires id != "" && id in docs && docs[id].imageUrl != ""
    ensures var s := UpdateStep(docs, id, name, slug, SubmittedImage(None, docs[id]), upload, now);
            && (s.result.Updated? <==> upload(UrlText(docs[id].imageUrl)).Uploaded?)
            && (s.result.Updated? ==>
                  s.docs[id].imageUrl ==
                    if upload(UrlText(docs[id].imageUrl)).url != "" then upload(UrlText(docs[id].imageUrl)).url
                    else docs[id].imageUrl)
  {
  }

  /** Only a record with an empty stored URL reaches the no-upload path from the form, and it keeps that URL. */
  lemma FormSkipsUploadOnlyForEmptyUrl(docs: Collection, id: string, name: string, slug: string,
                                       upload: Uploader, now: Instant)
    requires id != "" && id in docs && docs[id].imageUrl == ""
    ensures UpdateStep(docs, id, name, slug, SubmittedImage(None, docs[id]), upload, now).result == Updated
    ensures UpdateStep(docs, id, name, slug, SubmittedImage(None, docs[id]), upload, now).docs[id].imageUrl == ""
  {
  }
}
