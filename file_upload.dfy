/** POST /api/files/upload: store an uploaded image or PDF under the caller's prefix and record it. */
module FileUpload {
  import opened Wrappers
  import opened Strings

  /** The `file` entry of the submitted form, as a blob: its size in bytes, media type and name. */
  datatype UploadedFile = UploadedFile(size: nat, contentType: string, name: string)

  /** The form: one that cannot be read, or its `file` entry, if any. */
  datatype FormData = UnreadableForm | Form(file: Option<UploadedFile>)

  /** The record the files router creates for a stored upload. */
  datatype FileRecord = FileRecord(name: string, url: string, contentType: string)

  datatype UploadResponse =
    | Unauthorized           // 401 "Unauthorized"
    | EmptyBody              // 400 "Request body is empty"
    | NoFile                 // 400 "No file uploaded"
    | Invalid(error: string) // 400, the failed checks' messages
    | Uploaded(file: FileRecord)  // 200
    | UploadFailed           // 500 "Upload failed"
    | ProcessingFailed       // 500 "Failed to process request"

  function Status(r: UploadResponse): int {
    match r
    case Unauthorized => 401
    case EmptyBody => 400
    case NoFile => 400
    case Invalid(_) => 400
    case Uploaded(_) => 200
    case UploadFailed => 500
    case ProcessingFailed => 500
  }

  const SizeMessage := "File size should be less than 5MB"
  const TypeMessage := "File type should be JPEG or PNG"
  const AcceptedTypes := ["image/jpeg", "image/png", "application/pdf"]

  /** The messages of the checks the file fails, size first. */
  function ValidationErrors(f: UploadedFile, maxSize: nat): (errors: seq<string>)
    ensures SizeMessage in errors <==> f.size > maxSize
    ensures TypeMessage in errors <==> f.contentType !in AcceptedTypes
    ensures errors == [] <==> f.size <= maxSize && f.contentType in AcceptedTypes
    ensures |errors| <= 2
  {
    (if f.size <= maxSize then [] else [SizeMessage]) + (if f.contentType in AcceptedTypes then [] else [TypeMessage])
  }

  /** The storage key of an upload: the caller's id, a slash, and a fresh random id. */
  function StorageKey(userId: string, uuid: string): (key: string)
    ensures StartsWith(key, userId + "/")
  {
    userId + "/" + uuid
  }

  /** The answer, and the key the file was stored under, if it was. */
  datatype Outcome = Outcome(response: UploadResponse, storedAt: Option<string>)

  /** The route, with the caller's id, whether the request has a body, the form, the size limit, a
      fresh id, the store's answer for a key (the public address, or None when it throws) and
      whether the files router creates the record as parameters. */
  function Upload(userId: Option<string>, hasBody: bool, form: FormData, maxSize: nat, uuid: string,
                  put: string -> Option<string>, createFile: FileRecord -> bool): (r: Outcome)
    ensures !Truthy(userId) ==> r == Outcome(Unauthorized, None)
    ensures Truthy(userId) && !hasBody ==> r == Outcome(EmptyBody, None)
    ensures Truthy(userId) && hasBody && form.UnreadableForm? ==> r == Outcome(ProcessingFailed, None)
    ensures Truthy(userId) && hasBody && form == Form(None) ==> r == Outcome(NoFile, None)
    ensures Truthy(userId) && hasBody && form.Form? && form.file.Some? ==>
      var errors := ValidationErrors(form.file.value, maxSize);
      errors != [] ==> r == Outcome(Invalid(Join(errors, ", ")), None)
    // only an accepted file is stored, and only under the caller's prefix
    ensures r.storedAt.Some? ==>
      && Truthy(userId) && hasBody && form.Form? && form.file.Some?
      && ValidationErrors(form.file.value, maxSize) == []
      && r.storedAt == Some(StorageKey(userId.value, uuid))
    ensures r.response.Uploaded? <==>
      && r.storedAt.Some? && put(r.storedAt.value).Some?
      && createFile(FileRecord(form.file.value.name, put(r.storedAt.value).value, form.file.value.contentType))
    ensures r.response.Uploaded? ==>
      r.response.file == FileRecord(form.file.value.name, put(r.storedAt.value).value, form.file.value.contentType)
    ensures r.response == UploadFailed <==> r.storedAt.Some? && !r.response.Uploaded?
  {
    if !Truthy(userId) then Outcome(Unauthorized, None)
    else if !hasBody then Outcome(EmptyBody, None)
    else match form
      case UnreadableForm => Outcome(ProcessingFailed, None)
      case Form(file) =>
        if file.None? then Outcome(NoFile, None)
        else
          var errors := ValidationErrors(file.value, maxSize);
          if errors != [] then Outcome(Invalid(Join(errors, ", ")), None)
          else
            var key := StorageKey(userId.value, uuid);
            match put(key)
            case None => Outcome(UploadFailed, Some(key))
            case Some(url) =>
              var record := FileRecord(file.value.name, url, file.value.contentType);
              if createFile(record) then Outcome(Uploaded(record), Some(key))
              else Outcome(UploadFailed, Some(key))
  }

  /** A file failing both checks is told both, size first, in one message. */
  lemma BothChecksReported(f: UploadedFile, maxSize: nat)
    requires f.size > maxSize && f.contentType !in AcceptedTypes
    ensures Join(ValidationErrors(f, maxSize), ", ") == SizeMessage + ", " + TypeMessage
  {
    assert ValidationErrors(f, maxSize)[1..] == [TypeMessage];
  }

  /** A file failing one check is told just that check's message. */
  lemma OneCheckReported(f: UploadedFile, maxSize: nat)
    requires f.size > maxSize <==> f.contentType in AcceptedTypes
    ensures Join(ValidationErrors(f, maxSize), ", ") == if f.size > maxSize then SizeMessage else TypeMessage
  {
  }
}
