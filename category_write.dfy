/**
 * The category repository: `createCategory`, `updateCategory` and
 * `deleteCategory` over the `categories` collection, a map from document key
 * to record. The image host is a function `upload` from what is sent to what
 * it answers; the generated key and `Timestamp.now()` are parameters.
 *
 * Each operation is given twice: a pure step function that says what the
 * collection and the result become, and a method of `CategoryStore` that
 * performs it in place and is proved to agree with the step function.
 */
module CategoryWrite {
  import opened Wrappers
  import opened BrowserFile
  import CategorySchema

  /** A clock reading, as `Timestamp.now()` returns. */
  type Instant = int

  /** A stored category document. Records written by `createCategory` have no `timestampUpdate`. */
  datatype Category = Category(
    id: string,
    name: string,
    slug: string,
    imageUrl: string,
    timestampCreate: Option<Instant>,
    timestampUpdate: Option<Instant>)

  type Collection = map<string, Category>

  /** A thrown JavaScript value: an `Error` carries a message, anything else does not. */
  datatype Thrown = ErrorObject(message: string) | OtherValue

  /** What is sent to the image host: a browser file, or a string in the file's place. */
  datatype Payload = FileBlob(file: File) | UrlText(url: string)

  /** The host's answer: the uploaded image's `secure_url`, or a thrown value. */
  datatype UploadOutcome = Uploaded(url: string) | UploadFailed(thrown: Thrown)

  type Uploader = Payload -> UploadOutcome

  /**
   * The `image` argument of `updateCategory`: absent, a newly chosen file, or
   * (as the form passes it when no file is chosen) the stored URL string.
   */
  datatype UpdateImage = NoImage | NewFile(file: File) | StoredUrl(url: string)

  datatype CreateResult = Created(id: string) | CreateFailed(error: string)
  datatype UpdateResult = Updated | UpdateFailed(error: string)
  /** `deleteCategory` returns nothing or throws. */
  datatype DeleteResult = Deleted | DeleteThrew(thrown: Thrown)

  /** The collection after an operation, and what the operation returned. */
  datatype Step<R> = Step(docs: Collection, result: R)

  const CreateFallbackMessage: string := "Failed to create category."
  const UpdateFallbackMessage: string := "Failed to update category."
  const IdRequiredMessage: string := "Category ID is required."
  /** Stand-in for the store's message when a document path has no key segment. */
  const InvalidReferenceMessage: string := "Invalid document reference."
  /** Stand-in for the store's message when `updateDoc` finds no document. */
  const NoDocumentMessage: string := "No document to update."

  /** The `catch` blocks' message: the error's own message, or the operation's fallback text. */
  function Caught(t: Thrown, fallback: string): string {
    match t
    case ErrorObject(message) => message
    case OtherValue => fallback
  }

  /** JavaScript truthiness of the `image` argument: a file always, a string when non-empty. */
  predicate Truthy(image: UpdateImage) {
    match image
    case NoImage => false
    case NewFile(_) => true
    case StoredUrl(url) => url != ""
  }

  function PayloadOf(image: UpdateImage): Payload
    requires Truthy(image)
  {
    match image
    case NewFile(f) => FileBlob(f)
    case StoredUrl(url) => UrlText(url)
  }

  /** Every other key keeps its presence and its record. */
  ghost predicate OthersUnchanged(before: Collection, after: Collection, key: string) {
    forall k :: k != key ==> (k in after <==> k in before) && (k in before ==> after[k] == before[k])
  }

  /**
   * `createCategory`: upload the image, then write the whole record under the
   * generated key. A failed upload writes nothing.
   */
  function CreateStep(docs: Collection, name: string, slug: string, image: File,
                      upload: Uploader, newId: string, now: Instant): (s: Step<CreateResult>)
    ensures s.result.Created? <==> upload(FileBlob(image)).Uploaded?
    ensures s.result.Created? ==>
              && s.result.id == newId
              && s.docs.Keys == docs.Keys + {newId}
              && s.docs[newId] == Category(newId, name, slug, upload(FileBlob(image)).url, Some(now), None)
    ensures s.result.CreateFailed? ==>
              && s.docs == docs
              && s.result.error == Caught(upload(FileBlob(image)).thrown, CreateFallbackMessage)
    ensures OthersUnchanged(docs, s.docs, newId)
  {
    match upload(FileBlob(image))
    case UploadFailed(thrown) => Step(docs, CreateFailed(Caught(thrown, CreateFallbackMessage)))
    case Uploaded(url) =>
      Step(docs[newId := Category(newId, name, slug, url, Some(now), None)], Created(newId))
  }

  /**
   * The image URL an update leaves in the record: the uploaded URL when an
   * upload ran and answered a non-empty URL, otherwise the stored one.
   */
  function UpdatedUrl(stored: string, image: UpdateImage, upload: Uploader): string {
    if Truthy(image) && upload(PayloadOf(image)).Uploaded? && upload(PayloadOf(image)).url != ""
    then upload(PayloadOf(image)).url
    else stored
  }

  /**
   * `updateCategory`: upload only when `image` is truthy, then merge `id`,
   * `name`, `slug`, the new `imageUrl` when there is one, and
   * `timestampUpdate` into the existing record. The upload runs before the
   * document reference is formed, so an empty `id` fails after it.
   */
  function UpdateStep(docs: Collection, id: string, name: string, slug: string, image: UpdateImage,
                      upload: Uploader, now: Instant): (s: Step<UpdateResult>)
    ensures s.result.Updated? <==>
              id != "" && id in docs && !(Truthy(image) && upload(PayloadOf(image)).UploadFailed?)
    ensures s.result.Updated? ==>
              && s.docs.Keys == docs.Keys
              && s.docs[id] == docs[id].(id := id, name := name, slug := slug,
                                         imageUrl := UpdatedUrl(docs[id].imageUrl, image, upload),
                                         timestampUpdate := Some(now))
    ensures s.result.Updated? ==> s.docs[id].timestampCreate == docs[id].timestampCreate
    ensures s.result.UpdateFailed? ==> s.docs == docs
    ensures Truthy(image) && upload(PayloadOf(image)).UploadFailed? ==>
              s.result == UpdateFailed(Caught(upload(PayloadOf(image)).thrown, UpdateFallbackMessage))
    ensures !(Truthy(image) && upload(PayloadOf(image)).UploadFailed?) && id == "" ==>
              s.result == UpdateFailed(InvalidReferenceMessage)
    ensures !(Truthy(image) && upload(PayloadOf(image)).UploadFailed?) && id != "" && id !in docs ==>
              s.result == UpdateFailed(NoDocumentMessage)
    ensures OthersUnchanged(docs, s.docs, id)
  {
    if Truthy(image) && upload(PayloadOf(image)).UploadFailed? then
      Step(docs, UpdateFailed(Caught(upload(PayloadOf(image)).thrown, UpdateFallbackMessage)))
    else if id == "" then
      Step(docs, UpdateFailed(InvalidReferenceMessage))
    else if id !in docs then
      Step(docs, UpdateFailed(NoDocumentMessage))
    else
      var url := if Truthy(image) then upload(PayloadOf(image)).url else "";
      var merged := docs[id].(id := id, name := name, slug := slug,
                              imageUrl := if url != "" then url else docs[id].imageUrl,
                              timestampUpdate := Some(now));
      Step(docs[id := merged], Updated)
  }

  /** `deleteCategory`: an empty id throws before anything happens; otherwise the key is removed. */
  function DeleteStep(docs: Collection, id: string): (s: Step<DeleteResult>)
    ensures s.result.DeleteThrew? <==> id == ""
    ensures id == "" ==> s.docs == docs && s.result.thrown == ErrorObject(IdRequiredMessage)
    ensures id != "" ==> s.docs.Keys == docs.Keys - {id}
    ensures OthersUnchanged(docs, s.docs, id)
  {
    if id == "" then Step(docs, DeleteThrew(ErrorObject(IdRequiredMessage)))
    else Step(docs - {id}, Deleted)
  }

  /** The `categories` collection, updated in place by the three write operations. */
  class CategoryStore {
    var docs: Collection

    constructor (initial: Collection)
      ensures docs == initial
    {
      docs := initial;
    }

    /** `getCategory`: the stored record, or none. */
    function Get(id: string): (r: Option<Category>)
      reads this
      ensures r.Some? <==> id in docs
      ensures r.Some? ==> r.value == docs[id]
    {
      if id in docs then Some(docs[id]) else None
    }

    method CreateCategory(name: string, slug: string, image: File,
                          upload: Uploader, newId: string, now: Instant) returns (r: CreateResult)
      modifies this
      ensures docs == CreateStep(old(docs), name, slug, image, upload, newId, now).docs
      ensures r == CreateStep(old(docs), name, slug, image, upload, newId, now).result
    {
      var outcome := upload(FileBlob(image));
      if outcome.UploadFailed? {
        return CreateFailed(Caught(outcome.thrown, CreateFallbackMessage));
      }
      docs := docs[newId := Category(newId, name, slug, outcome.url, Some(now), None)];
      r := Created(newId);
    }

    method UpdateCategory(id: string, name: string, slug: string, image: UpdateImage,
                          upload: Uploader, now: Instant) returns (r: UpdateResult)
      modifies this
      ensures docs == UpdateStep(old(docs), id, name, slug, image, upload, now).docs
      ensures r == UpdateStep(old(docs), id, name, slug, image, upload, now).result
    {
      var imageUrl := "";
      if Truthy(image) {
        var outcome := upload(PayloadOf(image));
        if outcome.UploadFailed? {
          return UpdateFailed(Caught(outcome.thrown, UpdateFallbackMessage));
        }
        imageUrl := outcome.url;
      }
      if id == "" {
        return UpdateFailed(InvalidReferenceMessage);
      }
      if id !in docs {
        return UpdateFailed(NoDocumentMessage);
      }
      var record := docs[id].(id := id, name := name, slug := slug, timestampUpdate := Some(now));
      if imageUrl != "" {
        record := record.(imageUrl := imageUrl);
      }
      docs := docs[id := record];
      r := Updated;
    }

    method DeleteCategory(id: string) returns (r: DeleteResult)
      modifies this
      ensures docs == DeleteStep(old(docs), id).docs
      ensures r == DeleteStep(old(docs), id).result
    {
      if id == "" {
        return DeleteThrew(ErrorObject(IdRequiredMessage));
      }
      docs := docs - {id};
      r := Deleted;
    }
  }

  /** A write request, as the admin screens issue them one after another. */
  datatype Op =
    | CreateOp(name: string, slug: string, image: File, newId: string, now: Instant)
    | UpdateOp(id: string, name: string, slug: string, newImage: UpdateImage, now: Instant)
    | DeleteOp(id: string)

  function Apply(docs: Collection, op: Op, upload: Uploader): Collection {
    match op
    case CreateOp(name, slug, image, newId, now) => CreateStep(docs, name, slug, image, upload, newId, now).docs
    case UpdateOp(id, name, slug, image, now) => UpdateStep(docs, id, name, slug, image, upload, now).docs
    case DeleteOp(id) => DeleteStep(docs, id).docs
  }

  /** The collection after a sequence of writes, applied in order. */
  function Run(docs: Collection, ops: seq<Op>, upload: Uploader): Collection
    decreases |ops|
  {
    if ops == [] then docs else Run(Apply(docs, ops[0], upload), ops[1..], upload)
  }

  /** The document key is the record's `id`, and the record has its creation time. */
  ghost predicate Keyed(docs: Collection) {
    forall k :: k in docs ==> docs[k].id == k && docs[k].timestampCreate.Some?
  }

  /** Every record's name and slug meet the schema's minimum length. */
  ghost predicate Named(docs: Collection) {
    forall k :: k in docs ==> |docs[k].name| >= CategorySchema.MinLength && |docs[k].slug| >= CategorySchema.MinLength
  }

  /** The names a write request carries meet the schema's minimum length. */
  predicate NamesValid(op: Op) {
    match op
    case CreateOp(name, slug, _, _, _) => |name| >= CategorySchema.MinLength && |slug| >= CategorySchema.MinLength
    case UpdateOp(_, name, slug, _, _) => |name| >= CategorySchema.MinLength && |slug| >= CategorySchema.MinLength
    case DeleteOp(_) => true
  }

  /** Every operation keeps keys equal to ids and creation times present. */
  lemma ApplyKeepsKeyed(docs: Collection, op: Op, upload: Uploader)
    requires Keyed(docs)
    ensures Keyed(Apply(docs, op, upload))
  {
  }

  /** However many writes run, every stored record is still keyed by its own id and has a creation time. */
  lemma {:induction false} RunKeepsKeyed(docs: Collection, ops: seq<Op>, upload: Uploader)
    requires Keyed(docs)
    ensures Keyed(Run(docs, ops, upload))
    decreases |ops|
  {
    if ops != [] {
      ApplyKeepsKeyed(docs, ops[0], upload);
      RunKeepsKeyed(Apply(docs, ops[0], upload), ops[1..], upload);
    }
  }

  /** When every write carries valid names, the collection never holds a short name or slug. */
  lemma {:induction false} RunKeepsNamed(docs: Collection, ops: seq<Op>, upload: Uploader)
    requires Named(docs)
    requires forall i :: 0 <= i < |ops| ==> NamesValid(ops[i])
    ensures Named(Run(docs, ops, upload))
    decreases |ops|
  {
    if ops != [] {
      assert NamesValid(ops[0]);
      RunKeepsNamed(Apply(docs, ops[0], upload), ops[1..], upload);
    }
  }

  /** Every record has a non-empty image URL. */
  ghost predicate Imaged(docs: Collection) {
    forall k :: k in docs ==> docs[k].imageUrl != ""
  }

  /** The host never answers a successful upload with an empty URL. */
  ghost predicate AnswersNonEmpty(upload: Uploader) {
    forall p :: upload(p).Uploaded? ==> upload(p).url != ""
  }

  /** An update never clears a non-empty stored image URL, whatever the host answers. */
  lemma UpdateNeverClearsUrl(docs: Collection, id: string, name: string, slug: string, image: UpdateImage,
                             upload: Uploader, now: Instant)
    requires Imaged(docs)
    ensures Imaged(UpdateStep(docs, id, name, slug, image, upload, now).docs)
  {
  }

  /** Only a create whose host answers an empty URL can store an empty image URL. */
  lemma CreateStoresEmptyUrlOnlyFromHost(docs: Collection, name: string, slug: string, image: File,
                                         upload: Uploader, newId: string, now: Instant)
    requires Imaged(docs)
    ensures !Imaged(CreateStep(docs, name, slug, image, upload, newId, now).docs) <==>
              upload(FileBlob(image)) == Uploaded("")
  {
    var s := CreateStep(docs, name, slug, image, upload, newId, now);
    if upload(FileBlob(image)) == Uploaded("") {
      assert newId in s.docs && s.docs[newId].imageUrl == "";
    }
  }

  /** With a host that never answers an empty URL, no sequence of writes ever stores a record without an image URL. */
  lemma {:induction false} RunKeepsImaged(docs: Collection, ops: seq<Op>, upload: Uploader)
    requires Imaged(docs)
    requires AnswersNonEmpty(upload)
    ensures Imaged(Run(docs, ops, upload))
    decreases |ops|
  {
    if ops != [] {
      match ops[0] {
        case CreateOp(name, slug, image, newId, now) =>
          assert upload(FileBlob(image)).Uploaded? ==> upload(FileBlob(image)).url != "";
        case UpdateOp(id, name, slug, newImage, now) =>
          UpdateNeverClearsUrl(docs, id, name, slug, newImage, upload, now);
        case DeleteOp(_) =>
      }
      RunKeepsImaged(Apply(docs, ops[0], upload), ops[1..], upload);
    }
  }

  /** Only creates add keys: after any writes, every key was there before or was some create's generated key. */
  lemma {:induction false} RunOnlyCreatesAddKeys(docs: Collection, ops: seq<Op>, upload: Uploader, k: string)
    requires k in Run(docs, ops, upload)
    ensures k in docs || exists i :: 0 <= i < |ops| && ops[i].CreateOp? && ops[i].newId == k
    decreases |ops|
  {
    if ops != [] {
      var next := Apply(docs, ops[0], upload);
      RunOnlyCreatesAddKeys(next, ops[1..], upload, k);
      if k !in next {
        var i :| 0 <= i < |ops[1..]| && ops[1..][i].CreateOp? && ops[1..][i].newId == k;
        assert ops[i + 1] == ops[1..][i];
      } else if k !in docs {
        assert ops[0].CreateOp? && ops[0].newId == k;
      }
    }
  }

  /** An update that is not given an image never changes the stored image URL, whatever the host would answer. */
  lemma UpdateWithoutImageKeepsUrl(docs: Collection, id: string, name: string, slug: string,
                                   upload: Uploader, now: Instant)
    requires id != "" && id in docs
    ensures UpdateStep(docs, id, name, slug, NoImage, upload, now).result == Updated
    ensures UpdateStep(docs, id, name, slug, NoImage, upload, now).docs[id].imageUrl == docs[id].imageUrl
    ensures UpdateStep(docs, id, name, slug, NoImage, upload, now).docs[id].name == name
  {
  }

  /** Deleting an existing record, then reading it back, finds nothing. */
  lemma DeleteThenReadFindsNothing(docs: Collection, id: string)
    requires id != ""
    ensures id !in DeleteStep(docs, id).docs
    ensures DeleteStep(docs, id).result == Deleted
  {
  }
}
