/** The boundary between the controller and the backend REST surface: the
    records exchanged with it, the outcome of a round-trip, the requests the
    controller issues, and the transient notices (toasts) it raises. */
module Backend {

  datatype Option<T> = None | Some(value: T) {
    /** `x || default` for a field that may be absent. */
    function GetOr(default: T): T {
      match this
      case Some(v) => v
      case None => default
    }
  }

  /** How a network round-trip ended: with a response payload, or with an
      error that may carry the backend's `detail` string. */
  datatype Outcome<T> = Success(value: T) | Failure(detail: Option<string>)

  datatype Document = Document(id: string, filename: string, collection: string, fileSize: nat)

  /** A file chosen in the browser's file input; only its name matters here. */
  datatype File = File(name: string, size: nat)

  /** Body of a successful upload response: `{filename, chunks}`. */
  datatype UploadReceipt = UploadReceipt(filename: string, chunks: nat)

  /** Body of a successful chat response: `{answer, sources}`. */
  datatype ChatReply = ChatReply(answer: string, sources: Option<seq<string>>)

  /** JSON body of `POST /chat`; `None` stands for `null`. */
  datatype ChatBody = ChatBody(query: string, collection: Option<string>, sessionId: Option<string>)

  /** One call to the backend, in the order the controller issues them. */
  datatype Request =
    | GetDocuments
    | GetCollections
    | PostUpload(file: File, collection: string)
    | DeleteDocument(documentId: string)
    | PostChat(body: ChatBody)

  /** A transient notice shown to the user; it never feeds back into state. */
  datatype Notice = Silent | Succeeded(text: string) | Failed(text: string)

  /** `error.response?.data?.detail || fallback`: the backend's detail when it
      is present and non-empty, the generic message otherwise. */
  function ErrorText(detail: Option<string>, fallback: string): (r: string)
    ensures detail.Some? && detail.value != "" ==> r == detail.value
    ensures detail.None? || detail.value == "" ==> r == fallback
    ensures fallback != "" ==> r != ""
  {
    if detail.Some? && detail.value != "" then detail.value else fallback
  }
}
