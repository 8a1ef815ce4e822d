# Category lifecycle of the e-commerce admin, in Dafny

This project models the one piece of logic in the admin front end: creating,
updating and deleting catalog categories, with an image that is uploaded to a
hosted image service before the record is written to the hosted document
store. It has three parts.

- **The form schema** (`CategorySchema`, in `category_schema.dfy`).
  `formSchema(isUpdate)` is modelled as the pure function `Validate`. It
  returns `Valid`, or the messages of every failed rule for each field.
  - In create mode the image must be present and must be a png, jpeg or jpg
    of at most 5 MiB.
  - In update mode the image is not checked at all.
  - Name and slug need at least 2 characters in both modes.
- **The repository writes** (`CategoryWrite`, in `category_write.dfy`).
  - The `categories` collection is a `map` from document key to `Category`
    record. It is held in the class `CategoryStore`, whose methods
    `CreateCategory`, `UpdateCategory` and `DeleteCategory` change it in
    place.
  - Each method is proved equal to a pure step function: `CreateStep`,
    `UpdateStep` or `DeleteStep`. The contract of the step function states
    what the collection and the result become.
  - Lemmas over any sequence of writes show three things:
    - every record stays keyed by its own `id` and has a creation time;
    - names stay valid when every write carries valid names;
    - only a create adds a key;
    - with a host that never answers an empty URL, every record keeps a
      non-empty image URL, because an update never clears one.
- **The form controller** (`CategoryFormController`, in
  `category_form.dfy`). The class `CategoryForm` holds the component state
  (`isLoading`, `previewImage`, the form values, the image field's shown
  error, the file input's value) and the toasts shown. Its methods are the
  submit handler, `resetForm`, the image-change handler and the preview's
  clear button.

The external services are parameters:
- The image host is a function `upload` from what is sent (a file, or a
  string sent in a file's place) to its answer (a URL, or a thrown value).
- The generated document key is a parameter `newId`.
- `Timestamp.now()` is a parameter `now`.
- `URL.createObjectURL` is a parameter `objectUrl`.

Behaviour the model keeps as the code has it:
- **`updateCategory` re-uploads the stored URL when the form sends no file.**
  The form passes `values["category-image"] || existingCategory.imageUrl`. So
  when no file is chosen and the stored URL is non-empty, `updateCategory`
  gets a truthy string. That string goes to the image host for upload. The
  "keep the old image" path in `updateCategory` is then reached only for a
  record whose stored URL is empty (`FormResendsStoredUrl`,
  `FormSkipsUploadOnlyForEmptyUrl`).
- **A direct call without an image keeps the stored URL**
  (`UpdateWithoutImageKeepsUrl`). The repository-level promise "an update
  without a new image preserves `imageUrl`" is true for such a call, but not, in
  general, for an update submitted from the form.
- **An empty upload URL is not written.** The new `imageUrl` is merged only
  when it is truthy. An update whose upload answers an empty URL keeps the
  stored one. A create writes whatever URL the host answered.
- **Failed updates.** An update of a missing document fails, and so does an
  update with an empty id. In both cases nothing is written. With an empty
  id, the upload has already run.
- **A create under a key already present replaces that record.** The write
  is a whole-document set, so the old record, creation time included, is
  gone. The generated key is a parameter, and nothing requires it to be fresh.
- **Delete.** `deleteCategory` with an empty id throws "Category ID is
  required.". Deleting a missing key succeeds and changes nothing.

## Model

| member | source | states |
|---|---|---|
| `CategorySchema.ImageErrors` | lib/validation/categorySchema.ts:5-21 | update mode yields no image message; create mode yields "File is required." alone for a missing file, the type message iff the MIME type is not png/jpeg/jpg, the size message iff the size exceeds 5 MiB, the type message first when both fail; no message iff update mode or an acceptable file |
| `CategorySchema.LengthErrors` | lib/validation/categorySchema.ts:22-27 | no message iff the string has at least 2 characters, otherwise exactly "Must be at least 2 characters." |
| `CategorySchema.Validate` | lib/validation/categorySchema.ts:3-28 | valid iff every field rule passes (reference predicate `Acceptable`); when invalid, each field carries its own rule's messages |
| `CategorySchema.NameRule` | lib/validation/categorySchema.ts:22-24 | a valid form has a name of length >= 2; a shorter name makes the form invalid with exactly the min-length message on the name |
| `CategorySchema.SlugRuleModeIndependent` | lib/validation/categorySchema.ts:25-27 | the slug rule accepts iff length >= 2 and gives the same message in create and update mode |
| `CategorySchema.UpdateModeIgnoresImage` | lib/validation/categorySchema.ts:5-6 | in update mode any two images (absent, any type, any size) give the same verdict, and never an image message |
| `CategorySchema.SizeLimitBoundary` | lib/validation/categorySchema.ts:18-21 | an allowed-type file of exactly 5·1024·1024 bytes passes; one byte more gives only the size message |
| `CategorySchema.ValidCreateHasImage` | lib/validation/categorySchema.ts:3-28 | a form valid in create mode carries an image of allowed type and size |
| `CategoryWrite.CreateStep` | lib/firestore/categories/write.tsx:25-48 | succeeds iff the upload succeeds, returning the generated id; then the record under that key has `id` = key, the given name and slug, the uploaded URL and a creation time, and the key set grows by that key only; a failed upload writes nothing and returns the error's message or "Failed to create category."; every other key is unchanged |
| `CategoryWrite.UpdateStep` | lib/firestore/categories/write.tsx:50-81 | succeeds iff the id is non-empty, the record exists and no upload that ran failed; on success only `id`, `name`, `slug`, `timestampUpdate` and (when a non-empty URL was uploaded) `imageUrl` change, `timestampCreate` is kept and no key is added; on failure nothing changes and the error is the upload's message or "Failed to update category." when the upload failed, else the invalid-reference or no-document message; every other key is unchanged |
| `CategoryWrite.DeleteStep` | lib/firestore/categories/write.tsx:83-88 | throws "Category ID is required." iff the id is empty, leaving the collection as it was; otherwise exactly that key is gone; every other key is unchanged |
| `CategoryWrite.CategoryStore.Get` | app/admin/categories/components/Form.tsx:71-76 | the read finds a record iff the key is present, and it is the stored one |
| `CategoryWrite.CategoryStore.CreateCategory` | lib/firestore/categories/write.tsx:25-48 | the collection and result after the in-place create are those of `CreateStep` on the old collection |
| `CategoryWrite.CategoryStore.UpdateCategory` | lib/firestore/categories/write.tsx:50-81 | the collection and result after the in-place update are those of `UpdateStep` on the old collection |
| `CategoryWrite.CategoryStore.DeleteCategory` | lib/firestore/categories/write.tsx:83-88 | the collection and result after the in-place delete are those of `DeleteStep` on the old collection |
| `CategoryWrite.ApplyKeepsKeyed` | lib/firestore/categories/write.tsx:30-38 | one create, update or delete keeps every record keyed by its own `id` and with a creation time |
| `CategoryWrite.RunKeepsKeyed` | lib/firestore/categories/write.tsx:25-88 | any sequence of writes keeps every record keyed by its own `id` and with a creation time |
| `CategoryWrite.RunKeepsNamed` | lib/firestore/categories/write.tsx:32-38 | when every write carries a name and slug of length >= 2, no stored record ever has a shorter one |
| `CategoryWrite.RunOnlyCreatesAddKeys` | lib/firestore/categories/write.tsx:64-70 | after any sequence of writes, each key was present before or is the generated key of some create: updates and deletes never add records |
| `CategoryWrite.UpdateNeverClearsUrl` | lib/firestore/categories/write.tsx:68 | if every stored image URL is non-empty, an update leaves them all non-empty, whatever the host answers |
| `CategoryWrite.CreateStoresEmptyUrlOnlyFromHost` | lib/firestore/categories/write.tsx:27-38 | starting from non-empty image URLs, a create stores an empty one iff the host answers the upload with an empty URL |
| `CategoryWrite.RunKeepsImaged` | lib/firestore/categories/write.tsx:25-88 | with a host that never answers an empty URL, any sequence of writes keeps every stored image URL non-empty |
| `CategoryWrite.UpdateWithoutImageKeepsUrl` | lib/firestore/categories/write.tsx:57-69 | an update of an existing record without an image succeeds whatever the host would answer, keeps `imageUrl` and sets the name |
| `CategoryWrite.DeleteThenReadFindsNothing` | lib/firestore/categories/write.tsx:85-87 | after deleting a non-empty id, that key is absent |
| `CategoryFormController.FirstMessage` | app/admin/categories/components/Form.tsx:125 | a field shows a message iff its rules produced one, and the message shown is the first one |
| `CategoryFormController.SubmittedImage` | app/admin/categories/components/Form.tsx:82 | the chosen file when there is one, otherwise the stored URL; truthy iff a file was chosen or the stored URL is non-empty |
| `CategoryFormController.ClearedInput` | app/admin/categories/components/Form.tsx:120 | a mounted file input ends with value "", an unmounted one stays unmounted |
| `CategoryFormController.ShownImageMessage` | lib/validation/categorySchema.ts:7-21 | in create mode the image field shows "File is required." for no file, the type message for a disallowed type (even if also too large), the size message for an allowed type over 5 MiB, and nothing for an acceptable file |
| `CategoryFormController.FirstFile` | app/admin/categories/components/Form.tsx:124 | a file is taken iff the selection is non-empty, and it is the first selected |
| `CategoryFormController.CategoryForm.constructor` | app/admin/categories/components/Form.tsx:30-45 | the mode id is the `id` parameter or ""; not loading, no preview, default values |
| `CategoryFormController.CategoryForm.Resolve` | app/admin/categories/components/Form.tsx:36-39 | the schema is built in update mode iff the id is non-empty: values pass iff name and slug have length >= 2 and, in create mode only, an acceptable image is present |
| `CategoryFormController.CategoryForm.ResetForm` | app/admin/categories/components/Form.tsx:117-121 | fields back to defaults, errors and preview cleared, a mounted file input emptied; loading flag and notices kept |
| `CategoryFormController.CategoryForm.HandleImageChange` | app/admin/categories/components/Form.tsx:123-127 | the image value becomes the first selected file or none; the preview is null iff nothing was selected; the field shows the schema's first image message |
| `CategoryFormController.CategoryForm.ClearPreview` | app/admin/categories/components/Form.tsx:168-174 | the image value becomes none, the preview null and a mounted input ""; create mode then shows "File is required.", update mode nothing |
| `CategoryFormController.CategoryForm.OnSubmit` | app/admin/categories/components/Form.tsx:65-115 | `isLoading` is false on every exit; create mode without an image writes nothing; update mode with a missing record writes nothing and shows "Category not found!"; otherwise the collection is that of `UpdateStep` (with the chosen file or the stored URL) or `CreateStep`, a success resets the form and a failure shows "Error: " and the message |
| `CategoryFormController.FormResendsStoredUrl` | app/admin/categories/components/Form.tsx:78-83 | with no file chosen and a non-empty stored URL, the update succeeds iff re-uploading the stored URL succeeds, and the record takes the host's answer unless it is empty |
| `CategoryFormController.FormSkipsUploadOnlyForEmptyUrl` | app/admin/categories/components/Form.tsx:82 | with no file chosen and an empty stored URL, no upload runs, the update succeeds and the URL stays empty |

## Left out

- The image upload itself (an HTTP POST with an upload preset) is the function parameter `upload`. A missing preset is one of its failures. Its non-idempotence (the same file uploaded twice gives two URLs) is not modelled, because a function gives one answer per payload.
- Failures of the document store other than the two modelled (`updateDoc` on a missing document, and a document path with an empty key) are not modelled. A network or permission failure of `setDoc`, `updateDoc` or `deleteDoc` is therefore absent, and so is the orphaned upload that a failed `setDoc` would leave.
- The messages of the two modelled store failures are stand-ins. The store's exact wording is not part of this model.
- Document keys containing `/` are not modelled. The store rejects or re-nests such paths. Only an empty key is treated as an invalid reference.
- `getCategory` and `useCategories` are not part of this model. A read is the map lookup `CategoryStore.Get`.
- `CategoryFormController.CategoryForm.OnSubmit`: the `catch` branch is absent because the modelled read cannot throw. That branch would show "Error: " and the thrown value, and still clear `isLoading`.
- `CategoryFormController.CategoryForm.OnSubmit`: the navigation after a successful update (`router.replace`) is not modelled.
- `CategoryFormController.CategoryForm.OnSubmit`: the model takes submits as atomic, one after another. So `isLoading` is stated only at the end of a submit, not while the upload is in flight. The disabled button, the only guard against a double submit, is not modelled.
- The initial load of an existing record into the form (the effect that fills name, slug and preview) is not modelled. The form's submit handler receives the values it submits as a parameter.
- react-hook-form's `handleSubmit`, which runs the resolver and calls the submit handler only on valid values, is not modelled beyond `CategoryForm.Resolve`. Form-level error state other than the image field's message is not modelled either.
- The browser's own change to the file input's text when a file is picked is not modelled. `CategoryForm.HandleImageChange` leaves the field as the handler does.
- String lengths are counted in characters. The schema counts UTF-16 code units, so the two differ for characters outside the Basic Multilingual Plane.
- The create-mode image rule is modelled over "a file or nothing". A non-`File` value that is truthy, which the form never produces, is not modelled.
- The list screen, with its confirm dialog and per-row deleting flag, is not modelled. Only the `deleteCategory` call it makes is. Authentication, layout, routing, toasts' rendering and theming are not modelled either.
