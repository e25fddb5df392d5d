/** The `Home` component's controller: its state fields and event handlers.
    Each asynchronous handler is split at its `await` into a `Begin` step (the
    synchronous part, up to and including issuing the request) and a
    `Complete` step that takes the round-trip's outcome. The methods without
    a prefix run both steps back to back, which is how the handlers behave
    when one finishes before the next starts. Every backend call issued is
    appended to `requests`. */
module App {
  import opened Text
  import opened Backend
  import opened FileType
  import opened Session
  import opened Chat

  const DefaultCollection: string := "default"

  const FetchDocumentsFailedText: string := "Failed to fetch documents"
  const RejectedFileText: string := "Only PDF, DOCX, and TXT files are supported"
  const SelectFileText: string := "Please select a file"
  const UploadFailedText: string := "Failed to upload document"
  const DeletedText: string := "Document deleted successfully"
  const DeleteFailedText: string := "Failed to delete document"
  const ChatFailedText: string := "Failed to get response"
  const ChatClearedText: string := "Chat cleared"

  /** The upload success notice: it opens with the uploaded file's name and
      closes with the chunk count in decimal. */
  function UploadedText(receipt: UploadReceipt): (text: string)
    ensures |text| > |receipt.filename| && text[..|receipt.filename|] == receipt.filename
    ensures var tail := Decimal(receipt.chunks) + " chunks indexed)";
      |text| > |tail| && text[|text| - |tail|..] == tail
  {
    receipt.filename + " uploaded successfully! (" + Decimal(receipt.chunks) + " chunks indexed)"
  }

  /** A snapshot of every field of `Home`. */
  datatype HomeState = HomeState(
    documents: seq<Document>,
    collections: seq<string>,
    selectedFile: Option<File>,
    collection: string,
    uploading: bool,
    loading: bool,
    messages: seq<Message>,
    query: string,
    sessionId: Option<string>,
    chatLoading: bool,
    selectedCollection: string,
    requests: seq<Request>)

  class Home {
    var documents: seq<Document>
    var collections: seq<string>
    var selectedFile: Option<File>
    /** The text of the upload form's collection field. */
    var collection: string
    var uploading: bool
    var loading: bool
    var messages: seq<Message>
    var query: string
    var sessionId: Option<string>
    var chatLoading: bool
    /** The chat's collection filter; "all" means no filter. */
    var selectedCollection: string
    /** Every backend call issued so far, oldest first. */
    var requests: seq<Request>

    ghost function State(): HomeState
      reads this
    {
      HomeState(documents, collections, selectedFile, collection, uploading, loading,
                messages, query, sessionId, chatLoading, selectedCollection, requests)
    }

    /** The `useState` initial values, before the mount effect runs. */
    constructor ()
      ensures State() == HomeState([], [], None, DefaultCollection, false, false,
                                   [], "", None, false, AllCollections, [])
      ensures ConversationShape(messages, chatLoading)
    {
      documents, collections := [], [];
      selectedFile, collection := None, DefaultCollection;
      uploading, loading := false, false;
      messages, query, sessionId := [], "", None;
      chatLoading, selectedCollection := false, AllCollections;
      requests := [];
    }

    /** The mount effect: start both fetches and make the first session id
        from the clock reading `now`. */
    method Mount(now: nat)
      modifies this
      ensures State() == old(State()).(loading := true, sessionId := Some(SessionId(now)),
                                       requests := old(requests) + [GetDocuments, GetCollections])
    {
      BeginFetchDocuments();
      BeginFetchCollections();
      sessionId := Some(SessionId(now));
    }

    /** `fetchDocuments()` up to its `await`: raise `loading`, issue the GET. */
    method BeginFetchDocuments()
      modifies this
      ensures State() == old(State()).(loading := true, requests := old(requests) + [GetDocuments])
    {
      loading := true;
      requests := requests + [GetDocuments];
    }

    /** `fetchDocuments()` after its `await`: on success the cache becomes the
        response list (or `[]` when absent); on failure the cache is kept and
        an error is shown; `loading` drops in both cases. */
    method CompleteFetchDocuments(outcome: Outcome<Option<seq<Document>>>) returns (notice: Notice)
      modifies this
      ensures outcome.Success? ==>
        State() == old(State()).(documents := outcome.value.GetOr([]), loading := false) &&
        notice == Silent
      ensures outcome.Failure? ==>
        State() == old(State()).(loading := false) && notice == Failed(FetchDocumentsFailedText)
    {
      match outcome {
        case Success(listed) =>
          documents := listed.GetOr([]);
          notice := Silent;
        case Failure(_) =>
          notice := Failed(FetchDocumentsFailedText);
      }
      loading := false;
    }

    /** A whole `fetchDocuments()` round-trip. */
    method FetchDocuments(outcome: Outcome<Option<seq<Document>>>) returns (notice: Notice)
      modifies this
      ensures !loading
      ensures notice == if outcome.Success? then Silent else Failed(FetchDocumentsFailedText)
      ensures State() == old(State()).(
        documents := if outcome.Success? then outcome.value.GetOr([]) else old(documents),
        loading := false,
        requests := old(requests) + [GetDocuments])
    {
      BeginFetchDocuments();
      notice := CompleteFetchDocuments(outcome);
    }

    /** `fetchCollections()` up to its `await`: issue the GET. */
    method BeginFetchCollections()
      modifies this
      ensures State() == old(State()).(requests := old(requests) + [GetCollections])
    {
      requests := requests + [GetCollections];
    }

    /** `fetchCollections()` after its `await`: on success the cache becomes
        the response list (or `[]`); a failure is silent and keeps the cache. */
    method CompleteFetchCollections(outcome: Outcome<Option<seq<string>>>)
      modifies this
      ensures outcome.Success? ==> State() == old(State()).(collections := outcome.value.GetOr([]))
      ensures outcome.Failure? ==> State() == old(State())
    {
      if outcome.Success? {
        collections := outcome.value.GetOr([]);
      }
    }

    /** `handleFileChange` with the first chosen file, if any: an accepted
        file becomes the selection; a rejected or absent file changes nothing. */
    method ChooseFile(file: Option<File>) returns (notice: Notice)
      modifies this
      ensures file.Some? && IsAllowedFile(file.value.name) ==>
        State() == old(State()).(selectedFile := file) && notice == Silent
      ensures file.Some? && !IsAllowedFile(file.value.name) ==>
        State() == old(State()) && notice == Failed(RejectedFileText)
      ensures file.None? ==> State() == old(State()) && notice == Silent
    {
      notice := Silent;
      if file.Some? {
        if !IsAllowedFile(file.value.name) {
          notice := Failed(RejectedFileText);
          return;
        }
        selectedFile := file;
      }
    }

    /** Typing in the upload form's collection field. */
    method EditCollection(text: string)
      modifies this
      ensures State() == old(State()).(collection := text)
    {
      collection := text;
    }

    /** `handleUpload()` up to its `await`. Without a selected file it only
        shows an error; otherwise it raises `uploading` and posts the file
        with the collection field's text as it stands. */
    method BeginUpload() returns (begun: bool, notice: Notice)
      modifies this
      ensures begun <==> old(selectedFile).Some?
      ensures !begun ==> State() == old(State()) && notice == Failed(SelectFileText)
      ensures begun ==>
        State() == old(State()).(uploading := true,
          requests := old(requests) + [PostUpload(old(selectedFile).value, old(collection))]) &&
        notice == Silent
    {
      if selectedFile.None? {
        begun, notice := false, Failed(SelectFileText);
        return;
      }
      begun, notice := true, Silent;
      uploading := true;
      requests := requests + [PostUpload(selectedFile.value, collection)];
    }

    /** `handleUpload()` after its `await`. On success the form is reset and
        both caches are refetched, once each; on failure the form is kept.
        `uploading` drops in both cases. */
    method CompleteUpload(outcome: Outcome<UploadReceipt>) returns (notice: Notice)
      modifies this
      ensures outcome.Success? ==>
        State() == old(State()).(selectedFile := None, collection := DefaultCollection,
          uploading := false, loading := true,
          requests := old(requests) + [GetDocuments, GetCollections]) &&
        notice == Succeeded(UploadedText(outcome.value))
      ensures outcome.Failure? ==>
        State() == old(State()).(uploading := false) &&
        notice == Failed(ErrorText(outcome.detail, UploadFailedText))
    {
      match outcome {
        case Success(receipt) =>
          notice := Succeeded(UploadedText(receipt));
          selectedFile := None;
          collection := DefaultCollection;
          BeginFetchDocuments();
          BeginFetchCollections();
        case Failure(detail) =>
          notice := Failed(ErrorText(detail, UploadFailedText));
      }
      uploading := false;
    }

    /** A whole `handleUpload()`, started from an idle form. */
    method Upload(outcome: Outcome<UploadReceipt>) returns (notice: Notice)
      requires !uploading
      modifies this
      ensures !uploading
      ensures old(selectedFile).None? ==> State() == old(State()) && notice == Failed(SelectFileText)
      ensures old(selectedFile).Some? ==>
        notice == if outcome.Success? then Succeeded(UploadedText(outcome.value))
                  else Failed(ErrorText(outcome.detail, UploadFailedText))
      ensures old(selectedFile).Some? && outcome.Success? ==>
        State() == old(State()).(selectedFile := None, collection := DefaultCollection, loading := true,
          requests := old(requests) +
            [PostUpload(old(selectedFile).value, old(collection)), GetDocuments, GetCollections])
      ensures old(selectedFile).Some? && outcome.Failure? ==>
        State() == old(State()).(
          requests := old(requests) + [PostUpload(old(selectedFile).value, old(collection))])
    {
      var begun;
      begun, notice := BeginUpload();
      if begun {
        notice := CompleteUpload(outcome);
      }
    }

    /** `handleDeleteDocument(id)` up to its `await`: issue the DELETE. */
    method BeginDelete(id: string)
      modifies this
      ensures State() == old(State()).(requests := old(requests) + [DeleteDocument(id)])
    {
      requests := requests + [DeleteDocument(id)];
    }

    /** `handleDeleteDocument` after its `await`: on success both caches are
        refetched, once each; on failure nothing is removed locally and the
        backend's detail is not shown. */
    method CompleteDelete(outcome: Outcome<()>) returns (notice: Notice)
      modifies this
      ensures outcome.Success? ==>
        State() == old(State()).(loading := true,
          requests := old(requests) + [GetDocuments, GetCollections]) &&
        notice == Succeeded(DeletedText)
      ensures outcome.Failure? ==> State() == old(State()) && notice == Failed(DeleteFailedText)
    {
      if outcome.Success? {
        notice := Succeeded(DeletedText);
        BeginFetchDocuments();
        BeginFetchCollections();
      } else {
        notice := Failed(DeleteFailedText);
      }
    }

    /** A whole `handleDeleteDocument(id)`: the cached lists never change. */
    method Delete(id: string, outcome: Outcome<()>) returns (notice: Notice)
      modifies this
      ensures documents == old(documents) && collections == old(collections)
      ensures notice == if outcome.Success? then Succeeded(DeletedText) else Failed(DeleteFailedText)
      ensures outcome.Success? ==>
        State() == old(State()).(loading := true,
          requests := old(requests) + [DeleteDocument(id), GetDocuments, GetCollections])
      ensures outcome.Failure? ==>
        State() == old(State()).(requests := old(requests) + [DeleteDocument(id)])
    {
      BeginDelete(id);
      notice := CompleteDelete(outcome);
    }

    /** Typing in the chat input. */
    method EditQuery(text: string)
      modifies this
      ensures State() == old(State()).(query := text)
    {
      query := text;
    }

    /** Choosing an entry of the collection filter. */
    method SelectCollection(choice: string)
      modifies this
      ensures State() == old(State()).(selectedCollection := choice)
    {
      selectedCollection := choice;
    }

    /** `handleSendMessage()` up to its `await`. A blank query changes
        nothing. Otherwise the raw query is appended as a user message before
        any reply, the input is cleared, `chatLoading` is raised, and the
        request carries the query as it was before clearing, the collection
        filter and the current session id. */
    method BeginSend() returns (begun: bool)
      modifies this
      ensures begun <==> !AllSpace(old(query))
      ensures !begun ==> State() == old(State())
      ensures begun ==>
        State() == old(State()).(
          messages := old(messages) + [UserMessage(old(query))],
          query := "",
          chatLoading := true,
          requests := old(requests) +
            [PostChat(ChatBody(old(query), CollectionFilter(old(selectedCollection)), old(sessionId)))])
      ensures begun && !old(chatLoading) && ConversationShape(old(messages), false) ==>
        ConversationShape(messages, chatLoading)
    {
      begun := !IsBlank(query);
      if begun {
        Dispatch();
      }
    }

    /** The part of `handleSendMessage()` that runs once the query is known
        not to be blank. */
    method Dispatch()
      modifies this
      ensures State() == old(State()).(
          messages := old(messages) + [UserMessage(old(query))],
          query := "",
          chatLoading := true,
          requests := old(requests) +
            [PostChat(ChatBody(old(query), CollectionFilter(old(selectedCollection)), old(sessionId)))])
      ensures !old(chatLoading) && ConversationShape(old(messages), false) ==>
        ConversationShape(messages, chatLoading)
    {
      var sent := query;
      var body := ChatBody(sent, CollectionFilter(selectedCollection), sessionId);
      if !chatLoading && ConversationShape(messages, false) {
        SendKeepsShape(messages, sent);
      }
      messages, query, chatLoading, requests :=
        messages + [UserMessage(sent)], "", true, requests + [PostChat(body)];
    }

    /** `handleSendMessage()` after its `await`: the assistant message is
        appended on success; on failure the last message is dropped and the
        backend's detail (or a generic text) is shown. `chatLoading` drops in
        both cases. */
    method CompleteSend(outcome: Outcome<ChatReply>) returns (notice: Notice)
      modifies this
      ensures outcome.Success? ==>
        State() == old(State()).(messages := old(messages) + [AssistantMessage(outcome.value)],
                                 chatLoading := false) &&
        notice == Silent
      ensures outcome.Failure? ==>
        State() == old(State()).(messages := DropLast(old(messages)), chatLoading := false) &&
        notice == Failed(ErrorText(outcome.detail, ChatFailedText))
      ensures old(chatLoading) && ConversationShape(old(messages), true) ==>
        ConversationShape(messages, chatLoading)
    {
      var pending := chatLoading && ConversationShape(messages, chatLoading);
      match outcome {
        case Success(reply) =>
          if pending { ReplyKeepsShape(messages, reply); }
          messages := messages + [AssistantMessage(reply)];
          notice := Silent;
        case Failure(detail) =>
          if pending { RollbackKeepsShape(messages); }
          messages := DropLast(messages);
          notice := Failed(ErrorText(detail, ChatFailedText));
      }
      chatLoading := false;
    }

    /** A whole `handleSendMessage()`: on success the history grows by the
        user message and then the assistant message; on failure it is back to
        what it was. */
    method SendMessage(outcome: Outcome<ChatReply>) returns (begun: bool, notice: Notice)
      modifies this
      ensures begun <==> !AllSpace(old(query))
      ensures !begun ==> State() == old(State()) && notice == Silent
      ensures begun ==>
        notice == if outcome.Success? then Silent else Failed(ErrorText(outcome.detail, ChatFailedText))
      ensures begun ==> !chatLoading && query == ""
      ensures begun && outcome.Success? ==>
        messages == old(messages) + [UserMessage(old(query)), AssistantMessage(outcome.value)]
      ensures begun && outcome.Failure? ==> messages == old(messages)
      ensures begun ==>
        State() == old(State()).(messages := messages, query := "", chatLoading := false,
          requests := old(requests) +
            [PostChat(ChatBody(old(query), CollectionFilter(old(selectedCollection)), old(sessionId)))])
    {
      notice := Silent;
      begun := BeginSend();
      if begun {
        notice := CompleteSend(outcome);
        if outcome.Failure? {
          RollbackUndoesSend(old(messages), old(query));
        }
      }
    }

    /** `handleClearChat()` with the clock reading `now`: the history is
        emptied and a new session id is made, in one step. */
    method ClearChat(now: nat) returns (notice: Notice)
      modifies this
      ensures State() == old(State()).(messages := [], sessionId := Some(SessionId(now)))
      ensures notice == Succeeded(ChatClearedText)
      ensures !chatLoading ==> ConversationShape(messages, chatLoading)
    {
      messages := [];
      sessionId := Some(SessionId(now));
      notice := Succeeded(ChatClearedText);
    }
  }
}
