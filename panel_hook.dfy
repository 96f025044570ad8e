/** The chat session controller of the side panel (src/hooks/useMessage.tsx): normal
    submissions, and chat with the current web page (retrieval over an embedding of the page,
    cached per url), stop and clear.

    As for the full-page hook, each operation is a function from the session before to the
    session after, and a method of `PanelChat` that updates the fields step by step and is
    proved to end in the state the function gives. The lemmas at the end speak about the
    functions. */
module PanelHook {
  import opened Strings
  import opened Chat

  /** The session state the hook reads and writes through its store setters: `embeddings` is
      the component state keepTrackOfEmbedding, the vector stores built so far by page url. */
  datatype Session = Session(
    messages: seq<Message>, history: seq<Turn>, historyId: Option<string>,
    streaming: bool, isProcessing: bool, isEmbedding: bool,
    isLoading: bool, isFirstMessage: bool,
    currentURL: string, embeddings: map<string, StoreId>,
    controller: Option<ControllerId>, embeddingController: Option<ControllerId>,
    effects: seq<Effect>)

  /** What the outside world answers during one submission. */
  datatype World = World(
    freshId: MessageId,              // generateID()
    modelName: string,               // getModelInfo(model).name, the placeholder's name
    provider: string,                // getModelInfo(model).provider
    tab: Page,                       // getDataFromCurrentTab()
    newStore: Option<StoreId>,       // memoryEmbedding(...); None when it throws
    ragPrompt: string,               // promptForRag().ragPrompt
    questionPrompt: string,          // promptForRag().ragQuestionPrompt
    followUpAnswer: string,          // what the model answers to the question prompt
    docs: Option<seq<Doc>>,          // similaritySearch(query, 4); None when it or the follow-up throws
    context: string,                 // formatDocs(docs)
    nonRagPrompt: string,            // systemPromptForNonRag(); "" when unset
    reply: Reply,                    // the chat stream
    newController: ControllerId,     // new AbortController() for the chat
    newEmbeddingController: ControllerId) // new AbortController() for the embedding

  const ContextKey: string := "{context}"

  /** The number of passages retrieved for a question. */
  const RetrievedCount: nat := 4

  // ---- the parts of a submission that only compute values ----

  /** `x || fallback` for an optional string: a missing or empty value gives the fallback. */
  function OrElse(x: Option<string>, fallback: string): (r: string)
    ensures r != "" <==> (x.Some? && x.value != "") || fallback != ""
    ensures x.Some? && x.value != "" ==> r == x.value
    ensures x.None? || x.value == "" ==> r == fallback
  {
    if x.Some? && x.value != "" then x.value else fallback
  }

  function MetaSource(d: Doc): Option<string> {
    if d.metadata.Some? then d.metadata.value.source else None
  }

  function MetaKind(d: Doc): Option<string> {
    if d.metadata.Some? then d.metadata.value.kind else None
  }

  /** The source shown for a retrieved passage: named after its page, "untitled" when the
      metadata has none; typed by its metadata, "unknown" when it has none; in chat mode and
      without url. */
  function Annotated(docs: seq<Doc>): (r: seq<Source>)
    ensures |r| == |docs|
  {
    seq(|docs|, i requires 0 <= i < |docs| =>
      Passage(docs[i], OrElse(MetaSource(docs[i]), "untitled"), OrElse(MetaKind(docs[i]), "unknown"), "chat", ""))
  }

  /** The human message of website mode: the first `{context}` of the prompt replaced by the
      formatted passages, then the first `{question}` by the message as typed. */
  function RagPrompt(template: string, context: string, message: string): string {
    ReplaceFirst(ReplaceFirst(template, ContextKey, context), QuestionKey, message)
  }

  /** The input of a website-mode request: the history, then the prompt as a text part. */
  function RagInput(hist: seq<Turn>, prompt: string): seq<ModelMsg> {
    [PriorTurns(hist), HumanMsg(Parts([TextPart(prompt)]))]
  }

  /** A non-empty image as normal mode sends it: a png data URI for the google provider, a
      jpeg data URI for every other provider. */
  function PanelImage(provider: string, image: string): string {
    if |image| == 0 then image
    else if provider == "google" then DataUri("image/png", image)
    else DataUri("image/jpeg", image)
  }

  /** The image part: the bare url for the google provider, an object holding it otherwise. */
  function ImageFor(provider: string, img: string): ImageRef {
    if provider != "google" then UrlObject(img) else BareUrl(img)
  }

  /** The input of a normal-mode request: the system prompt if set, the history, and the
      message (with the image when there is one) as content parts. */
  function NormalInput(prompt: string, hist: seq<Turn>, message: string, provider: string,
                       img: string): seq<ModelMsg> {
    var human := if |img| > 0 then Parts([TextPart(message), ImagePart(ImageFor(provider, img))])
                 else Parts([TextPart(message)]);
    (if prompt != "" then [SystemMsg(Parts([TextPart(prompt)]))] else []) + [PriorTurns(hist), HumanMsg(human)]
  }

  // ---- the session, step by step ----

  /** The start of either mode: streaming is set and the list gains the user's message
      (unless regenerating) and the placeholder. */
  function Started(s: Session, newList: seq<Message>): Session {
    s.(streaming := true, messages := newList)
  }

  /** The catch block: saveMessageOnError is called with the text received so far and the
      flags are cleared (in website mode isEmbedding too); the finally block drops the chat
      controller, and in website mode the embedding controller. */
  function Failed(s: Session, fullText: string, message: string, image: string, hist: seq<Turn>,
                  isRegenerate: bool, website: bool): Session {
    var s1 := s.(effects := s.effects + [Db(SaveOnError(fullText, message, image, s.historyId, hist, isRegenerate))],
                 isProcessing := false, streaming := false, controller := None);
    if website then s1.(isEmbedding := false, embeddingController := None) else s1
  }

  /** The stream: the placeholder shows the text so far with its last character covered by
      the cursor, and isProcessing is set at the first chunk. */
  function AfterStream(s: Session, id: MessageId, deltas: seq<string>): Session {
    s.(messages := Streamed(s.messages, id, deltas, CursorOverLast), isProcessing := s.isProcessing || deltas != [])
  }

  /** The end of the try block after a completed stream: the placeholder gets its final text
      (and sources), the history gains the user turn and the whole answer, the exchange is
      handed to saveMessageOnSuccess, the flags are cleared and the finally block drops the
      controllers. */
  function Completed(s: Session, id: MessageId, model: string, message: string, image: string,
                     hist: seq<Turn>, final: Update, fullText: string, sources: seq<Source>,
                     isRegenerate: bool, website: bool): Session {
    var s1 := s.(messages := Patch(s.messages, id, final),
                 history := hist + [Turn(User, message, Some(image))] + [Turn(Assistant, fullText, None)],
                 effects := s.effects + [Db(SaveOnSuccess(s.historyId, isRegenerate, model, message, image, fullText, sources))],
                 isProcessing := false, streaming := false, controller := None);
    if website then s1.(embeddingController := None) else s1
  }

  /** The final text of the placeholder: the whole text with the sources in website mode
      (sources given), the text without its last character in normal mode. */
  function Final(fullText: string, sources: Option<seq<Source>>): Update {
    if sources.Some? then SetTextAndSources(fullText, sources.value) else SetText(DropLast(fullText))
  }

  /** After the request is sent, common to both modes. */
  function Answer(s: Session, model: string, message: string, image: string, hist: seq<Turn>,
                  sources: Option<seq<Source>>, isRegenerate: bool, w: World): Session
  {
    var s1 := AfterStream(s, w.freshId, w.reply.deltas);
    var fullText := Concat(w.reply.deltas);
    if !w.reply.completed then Failed(s1, fullText, message, image, hist, isRegenerate, sources.Some?)
    else Completed(s1, w.freshId, model, message, image, hist, Final(fullText, sources), fullText,
                   if sources.Some? then sources.value else [], isRegenerate, sources.Some?)
  }

  /** The store cached under the url the session holds. On the first message this is read
      before setCurrentURL takes effect, so it is the previous page's url. */
  function Cached(s: Session): Option<StoreId> {
    if s.currentURL in s.embeddings then Some(s.embeddings[s.currentURL]) else None
  }

  /** The url an index is built for: the fetched tab's on the first message, the held one after. */
  function EmbedUrl(s: Session, msgs: seq<Message>, w: World): string {
    if msgs == [] then w.tab.url else s.currentURL
  }

  /** The store the retrieval uses: the cached one, or the one just built. */
  function StoreUsed(s: Session, msgs: seq<Message>, w: World): Option<StoreId> {
    if Cached(s).Some? then Cached(s) else w.newStore
  }

  /** On the first message the tab is fetched and its url held. */
  function Located(s: Session, msgs: seq<Message>, w: World): Session {
    if msgs == [] then s.(effects := s.effects + [FetchTab], currentURL := w.tab.url) else s
  }

  /** The embedding step: without a cached store one is built for the url (from the fetched
      page on the first message) and, once built, kept under that url. */
  function Indexed(s: Session, msgs: seq<Message>, w: World): Session {
    var s1 := Located(s, msgs, w);
    if Cached(s).Some? then s1
    else
      var url := EmbedUrl(s, msgs, w);
      s1.(effects := s1.effects + [BuildIndex(url, if msgs == [] then Some(w.tab) else None)],
          embeddings := if w.newStore.None? then s1.embeddings else s1.embeddings[url := w.newStore.value])
  }

  /** The retrieval: the question is rewritten once the list holds a previous exchange, and
      four passages are asked of the store for the resulting query. */
  function Retrieved(s: Session, newList: seq<Message>, store: StoreId, message: string, w: World): Session {
    var rw := RewriteQuery(newList, message, w.questionPrompt, w.followUpAnswer);
    var asked := (if rw.prompt.Some? then [FollowUp(rw.prompt.value)] else []) + [Retrieve(store, rw.query, RetrievedCount)];
    s.(effects := s.effects + asked)
  }

  /** Once the passages are asked for: the prompt holding them and the message is sent and the
      answer streamed; a failed retrieval takes the catch path with no text. */
  function RagAnswer(s: Session, model: string, message: string, image: string, isRegenerate: bool,
                     hist: seq<Turn>, w: World): Session
  {
    if w.docs.None? then Failed(s, "", message, image, hist, isRegenerate, true)
    else
      var s1 := s.(effects := s.effects + [StreamRequest(RagInput(hist, RagPrompt(w.ragPrompt, w.context, message)))]);
      Answer(s1, model, message, image, hist, Some(Annotated(w.docs.value)), isRegenerate, w)
  }

  /** chatWithWebsiteMode. A failed embedding takes the catch path with no text. */
  function ChatWithWebsite(s: Session, model: string, message: string, image: string, isRegenerate: bool,
                           msgs: seq<Message>, hist: seq<Turn>, w: World): Session
  {
    var newList := WithPlaceholder(msgs, isRegenerate, UserMessage(message, []), Placeholder(w.modelName, w.freshId));
    var s1 := Indexed(Started(s, newList), msgs, w);
    var store := StoreUsed(s, msgs, w);
    if store.None? then Failed(s1, "", message, image, hist, isRegenerate, true)
    else RagAnswer(Retrieved(s1, newList, store.value, message, w), model, message, image, isRegenerate, hist, w)
  }

  /** normalChatMode: the image is converted for the provider, and the answer is streamed. */
  function NormalChat(s: Session, model: string, message: string, image: string, isRegenerate: bool,
                      msgs: seq<Message>, hist: seq<Turn>, w: World): Session
  {
    var img := PanelImage(w.provider, image);
    var newList := WithPlaceholder(msgs, isRegenerate, UserMessage(message, [img]), Placeholder(w.modelName, w.freshId));
    var s1 := Started(s, newList);
    var s2 := s1.(effects := s1.effects + [StreamRequest(NormalInput(w.nonRagPrompt, hist, message, w.provider, img))]);
    Answer(s2, model, message, img, hist, None, isRegenerate, w)
  }

  /** onSubmit: a new chat controller is installed; the "normal" chat mode answers directly,
      every other mode installs an embedding controller too and chats with the page. */
  function Submit(s: Session, chatMode: string, model: string, message: string, image: string, w: World): Session {
    var s1 := s.(controller := Some(w.newController));
    if chatMode == "normal" then NormalChat(s1, model, message, image, false, s.messages, s.history, w)
    else ChatWithWebsite(s1.(embeddingController := Some(w.newEmbeddingController)),
                         model, message, image, false, s.messages, s.history, w)
  }

  /** stopStreamingRequest: the embedding is aborted only while it runs, then the chat. */
  function Stop(s: Session): Session {
    var s1 := if s.isEmbedding && s.embeddingController.Some?
              then s.(effects := s.effects + [Abort(s.embeddingController.value)], embeddingController := None)
              else s;
    if s1.controller.Some? then s1.(effects := s1.effects + [Abort(s1.controller.value)], controller := None)
    else s1
  }

  /** clearChat: the streams are stopped first, then the session is reset. */
  function Clear(s: Session): Session {
    Stop(s).(messages := [], history := [], historyId := None, isFirstMessage := true,
             isLoading := false, isProcessing := false, streaming := false)
  }

  /** Sessions that agree on every part are equal. */
  lemma SessionExt(s: Session, t: Session)
    requires s.messages == t.messages && s.history == t.history && s.historyId == t.historyId
    requires s.streaming == t.streaming && s.isProcessing == t.isProcessing && s.isEmbedding == t.isEmbedding
    requires s.isLoading == t.isLoading && s.isFirstMessage == t.isFirstMessage
    requires s.currentURL == t.currentURL && s.embeddings == t.embeddings
    requires s.controller == t.controller && s.embeddingController == t.embeddingController
    requires s.effects == t.effects
    ensures s == t
  {
  }

  class PanelChat {
    var messages: seq<Message>
    var history: seq<Turn>
    var historyId: Option<string>
    var streaming: bool
    var isProcessing: bool
    var isEmbedding: bool
    var isLoading: bool
    var isFirstMessage: bool
    var currentURL: string
    var embeddings: map<string, StoreId>
    var controller: Option<ControllerId>
    var embeddingController: Option<ControllerId>
    var effects: seq<Effect>
    // settings the hook reads from its store
    var chatMode: string
    var selectedModel: string

    function State(): Session
      reads this
    {
      Session(messages, history, historyId, streaming, isProcessing, isEmbedding, isLoading,
              isFirstMessage, currentURL, embeddings, controller, embeddingController, effects)
    }

    function Settings(): (string, string)
      reads this
    {
      (chatMode, selectedModel)
    }

    constructor (chatMode: string, selectedModel: string)
      ensures State() == Session([], [], None, false, false, false, false, true, "", map[], None, None, [])
      ensures Settings() == (chatMode, selectedModel)
    {
      messages, history, historyId := [], [], None;
      streaming, isProcessing, isEmbedding, isLoading, isFirstMessage := false, false, false, false, true;
      currentURL, embeddings := "", map[];
      controller, embeddingController, effects := None, None, [];
      this.chatMode, this.selectedModel := chatMode, selectedModel;
    }

    method StopStreamingRequest()
      modifies this
      ensures State() == Stop(old(State())) && Settings() == old(Settings())
    {
      if isEmbedding {
        if embeddingController.Some? {
          effects := effects + [Abort(embeddingController.value)];
          embeddingController := None;
        }
      }
      if controller.Some? {
        effects := effects + [Abort(controller.value)];
        controller := None;
      }
    }

    method ClearChat()
      modifies this
      ensures State() == Clear(old(State())) && Settings() == old(Settings())
    {
      StopStreamingRequest();
      messages, history, historyId := [], [], None;
      isFirstMessage, isLoading, isProcessing, streaming := true, false, false, false;
    }

    method Start(newList: seq<Message>)
      modifies this
      ensures State() == Started(old(State()), newList) && Settings() == old(Settings())
    {
      streaming := true;
      messages := newList;
    }

    /** The `for await` loop over the chunks: fullText grows by each chunk, isProcessing is
        set at the first one, and the placeholder shows the text so far under the cursor. */
    method ReadChunks(id: MessageId, deltas: seq<string>) returns (fullText: string)
      modifies this`messages, this`isProcessing
      ensures fullText == Concat(deltas)
      ensures messages == Streamed(old(messages), id, deltas, CursorOverLast)
      ensures isProcessing == (old(isProcessing) || deltas != [])
    {
      fullText := "";
      var count := 0;
      while count < |deltas|
        invariant 0 <= count <= |deltas|
        invariant fullText == Concat(deltas[..count])
        invariant messages == Streamed(old(messages), id, deltas[..count], CursorOverLast)
        invariant isProcessing == (old(isProcessing) || count > 0)
        modifies this`messages, this`isProcessing
      {
        ConcatStep(deltas, count);
        fullText := fullText + deltas[count];
        assert fullText == Concat(deltas[..count + 1]);
        assert DropLast(fullText) + Cursor == Shown(CursorOverLast, fullText);
        if count == 0 {
          isProcessing := true;
        } else {
          PatchOverwrite(old(messages), id, Shown(CursorOverLast, Concat(deltas[..count])),
                         SetText(Shown(CursorOverLast, fullText)));
        }
        messages := Patch(messages, id, SetText(DropLast(fullText) + Cursor));
        count := count + 1;
      }
      assert deltas[..count] == deltas;
    }

    /** The stream, as a step of the session. */
    method ConsumeStream(id: MessageId, deltas: seq<string>) returns (fullText: string)
      modifies this
      ensures fullText == Concat(deltas)
      ensures State() == AfterStream(old(State()), id, deltas) && Settings() == old(Settings())
    {
      fullText := ReadChunks(id, deltas);
      SessionExt(State(), AfterStream(old(State()), id, deltas));
    }

    /** The catch block, and the finally block after it. */
    method CatchFailure(fullText: string, message: string, image: string, hist: seq<Turn>,
                        isRegenerate: bool, website: bool)
      modifies this`effects, this`isProcessing, this`streaming, this`isEmbedding, this`controller,
               this`embeddingController
      ensures effects == old(effects) + [Db(SaveOnError(fullText, message, image, historyId, hist, isRegenerate))]
      ensures !isProcessing && !streaming && controller.None?
      ensures isEmbedding == (!website && old(isEmbedding))
      ensures embeddingController == if website then None else old(embeddingController)
    {
      effects := effects + [Db(SaveOnError(fullText, message, image, historyId, hist, isRegenerate))];
      isProcessing, streaming, isEmbedding := false, false, if website then false else isEmbedding;
      // the finally block
      controller, embeddingController := None, if website then None else embeddingController;
    }

    method Fail(fullText: string, message: string, image: string, hist: seq<Turn>, isRegenerate: bool,
                website: bool)
      modifies this
      ensures State() == Failed(old(State()), fullText, message, image, hist, isRegenerate, website)
      ensures Settings() == old(Settings())
    {
      CatchFailure(fullText, message, image, hist, isRegenerate, website);
      SessionExt(State(), Failed(old(State()), fullText, message, image, hist, isRegenerate, website));
    }

    /** The end of the try block, and the finally block after it. */
    method RecordAnswer(id: MessageId, message: string, image: string, hist: seq<Turn>, final: Update,
                        fullText: string, sources: seq<Source>, isRegenerate: bool, website: bool)
      modifies this`messages, this`history, this`effects, this`isProcessing, this`streaming, this`controller,
               this`embeddingController
      ensures messages == Patch(old(messages), id, final)
      ensures history == hist + [Turn(User, message, Some(image))] + [Turn(Assistant, fullText, None)]
      ensures effects == old(effects) + [Db(SaveOnSuccess(historyId, isRegenerate, selectedModel, message, image,
                                                          fullText, sources))]
      ensures !isProcessing && !streaming && controller.None?
      ensures embeddingController == if website then None else old(embeddingController)
    {
      messages, history, effects, isProcessing, streaming :=
        Patch(messages, id, final),
        hist + [Turn(User, message, Some(image))] + [Turn(Assistant, fullText, None)],
        effects + [Db(SaveOnSuccess(historyId, isRegenerate, selectedModel, message, image, fullText, sources))],
        false, false;
      // the finally block
      controller, embeddingController := None, if website then None else embeddingController;
    }

    method Complete(id: MessageId, message: string, image: string, hist: seq<Turn>, final: Update,
                    fullText: string, sources: seq<Source>, isRegenerate: bool, website: bool)
      modifies this
      ensures State() == Completed(old(State()), id, selectedModel, message, image, hist, final, fullText,
                                   sources, isRegenerate, website)
      ensures Settings() == old(Settings())
    {
      RecordAnswer(id, message, image, hist, final, fullText, sources, isRegenerate, website);
      SessionExt(State(), Completed(old(State()), id, selectedModel, message, image, hist, final, fullText,
                                    sources, isRegenerate, website));
    }

    /** The stream and what follows it in the try, catch and finally blocks. */
    method StreamAnswer(message: string, image: string, hist: seq<Turn>, sources: Option<seq<Source>>,
                        isRegenerate: bool, w: World)
      modifies this
      ensures State() == Answer(old(State()), selectedModel, message, image, hist, sources, isRegenerate, w)
      ensures Settings() == old(Settings())
    {
      var fullText := ConsumeStream(w.freshId, w.reply.deltas);
      if !w.reply.completed {
        Fail(fullText, message, image, hist, isRegenerate, sources.Some?);
      } else if sources.Some? {
        Complete(w.freshId, message, image, hist, SetTextAndSources(fullText, sources.value), fullText,
                 sources.value, isRegenerate, true);
      } else {
        Complete(w.freshId, message, image, hist, SetText(DropLast(fullText)), fullText, [], isRegenerate, false);
      }
    }

    /** The tab lookup and the embedding: returns the store the retrieval will use. */
    method EnsureIndex(msgs: seq<Message>, w: World) returns (store: Option<StoreId>)
      modifies this
      ensures store == StoreUsed(old(State()), msgs, w)
      ensures State() == Indexed(old(State()), msgs, w) && Settings() == old(Settings())
    {
      var held := currentURL;
      var embedURL := currentURL;
      var page: Option<Page> := None;
      if msgs == [] {
        effects := effects + [FetchTab];
        embedURL := w.tab.url;
        page := Some(w.tab);
        currentURL := w.tab.url;
      }
      // the lookup reads the url held when the submission started
      var existing := if held in embeddings then Some(embeddings[held]) else None;
      if existing.Some? {
        store := existing;
        return;
      }
      effects := effects + [BuildIndex(embedURL, page)];
      store := w.newStore;
      if store.Some? {
        embeddings := embeddings[embedURL := store.value];
      }
    }

    method RetrieveDocs(newList: seq<Message>, store: StoreId, message: string, w: World)
      modifies this
      ensures State() == Retrieved(old(State()), newList, store, message, w) && Settings() == old(Settings())
    {
      var rw := RewriteQuery(newList, message, w.questionPrompt, w.followUpAnswer);
      var asked := [Retrieve(store, rw.query, RetrievedCount)];
      if rw.prompt.Some? {
        asked := [FollowUp(rw.prompt.value)] + asked;
      }
      effects := effects + asked;
    }

    /** The chat request, sent with its input. */
    method Send(input: seq<ModelMsg>)
      modifies this
      ensures State() == old(State()).(effects := old(effects) + [StreamRequest(input)])
      ensures Settings() == old(Settings())
    {
      effects := effects + [StreamRequest(input)];
    }

    method AnswerFromDocs(message: string, image: string, isRegenerate: bool, hist: seq<Turn>, w: World)
      modifies this
      ensures State() == RagAnswer(old(State()), selectedModel, message, image, isRegenerate, hist, w)
      ensures Settings() == old(Settings())
    {
      if w.docs.None? {
        Fail("", message, image, hist, isRegenerate, true);
        return;
      }
      var sources := Annotated(w.docs.value);
      var prompt := RagPrompt(w.ragPrompt, w.context, message);
      Send(RagInput(hist, prompt));
      StreamAnswer(message, image, hist, Some(sources), isRegenerate, w);
    }

    method ChatWithWebsiteMode(message: string, image: string, isRegenerate: bool,
                               msgs: seq<Message>, hist: seq<Turn>, w: World)
      modifies this
      ensures State() == ChatWithWebsite(old(State()), selectedModel, message, image, isRegenerate, msgs, hist, w)
      ensures Settings() == old(Settings())
    {
      var newList := WithPlaceholder(msgs, isRegenerate, UserMessage(message, []), Placeholder(w.modelName, w.freshId));
      Start(newList);
      var store := EnsureIndex(msgs, w);
      if store.None? {
        Fail("", message, image, hist, isRegenerate, true);
        return;
      }
      RetrieveDocs(newList, store.value, message, w);
      AnswerFromDocs(message, image, isRegenerate, hist, w);
    }

    method NormalChatMode(message: string, image: string, isRegenerate: bool,
                          msgs: seq<Message>, hist: seq<Turn>, w: World)
      modifies this
      ensures State() == NormalChat(old(State()), selectedModel, message, image, isRegenerate, msgs, hist, w)
      ensures Settings() == old(Settings())
    {
      var img := image;
      if |img| > 0 {
        if w.provider == "google" {
          img := DataUri("image/png", img);
        } else {
          img := DataUri("image/jpeg", img);
        }
      }
      Start(WithPlaceholder(msgs, isRegenerate, UserMessage(message, [img]), Placeholder(w.modelName, w.freshId)));
      var human := Parts([TextPart(message)]);
      if |img| > 0 {
        human := Parts([TextPart(message), ImagePart(ImageFor(w.provider, img))]);
      }
      var input := [PriorTurns(hist), HumanMsg(human)];
      if w.nonRagPrompt != "" {
        input := [SystemMsg(Parts([TextPart(w.nonRagPrompt)]))] + input;
      }
      assert input == NormalInput(w.nonRagPrompt, hist, message, w.provider, img);
      Send(input);
      StreamAnswer(message, img, hist, None, isRegenerate, w);
    }

    method OnSubmit(message: string, image: string, w: World)
      modifies this
      ensures State() == Submit(old(State()), chatMode, selectedModel, message, image, w)
      ensures Settings() == old(Settings())
    {
      var msgs, hist := messages, history;
      controller := Some(w.newController);
      if chatMode == "normal" {
        NormalChatMode(message, image, false, msgs, hist, w);
      } else {
        embeddingController := Some(w.newEmbeddingController);
        ChatWithWebsiteMode(message, image, false, msgs, hist, w);
      }
    }
  }

  // ---- properties of the specification ----

  /** The stream is over and its controller dropped. */
  predicate Idle(s: Session) {
    !s.streaming && !s.isProcessing && s.controller.None?
  }

  /** Every retrieved passage becomes a source of its own, in order: named after its page's
      source, or "untitled"; typed by its metadata, or "unknown"; in chat mode, without url. */
  lemma AnnotatedSources(docs: seq<Doc>)
    ensures forall i :: 0 <= i < |docs| ==>
      && Annotated(docs)[i].Passage? && Annotated(docs)[i].doc == docs[i]
      && Annotated(docs)[i].mode == "chat" && Annotated(docs)[i].url == ""
      && Annotated(docs)[i].name != "" && Annotated(docs)[i].kind != ""
      && (Annotated(docs)[i].name == "untitled" <== MetaSource(docs[i]).None? || MetaSource(docs[i]).value == "")
      && (Annotated(docs)[i].kind == "unknown" <== MetaKind(docs[i]).None? || MetaKind(docs[i]).value == "")
      && (MetaSource(docs[i]).Some? && MetaSource(docs[i]).value != "" ==>
            Annotated(docs)[i].name == MetaSource(docs[i]).value)
      && (MetaKind(docs[i]).Some? && MetaKind(docs[i]).value != "" ==>
            Annotated(docs)[i].kind == MetaKind(docs[i]).value)
  {
  }

  /** A placeholder starting with `{` preceded by text without `{` is filled at that place. */
  lemma FillSlot(pre: string, key: string, rest: string, rep: string)
    requires |key| > 0 && key[0] == '{' && '{' !in pre && '$' !in rep
    ensures ReplaceFirst(pre + key + rest, key, rep) == pre + rep + rest
  {
    var t := pre + key + rest;
    assert t[|pre|..|pre| + |key|] == key;
    forall j | 0 <= j < |pre| ensures !MatchAt(t, key, j) {
      if j + |key| <= |t| {
        assert t[j..j + |key|][0] == t[j] == pre[j];
      }
    }
    ReplaceFirstLiteral(t, key, rep, |pre|);
    assert t[..|pre|] == pre && t[|pre| + |key|..] == rest;
  }

  /** For a prompt with one `{context}` slot before one `{question}` slot, and passages and a
      message free of `$`, the prompt sent is the template with the passages and the message
      in the slots. */
  lemma RagPromptFills(pre: string, mid: string, post: string, context: string, message: string)
    requires '{' !in pre && '{' !in context && '{' !in mid
    requires '$' !in context && '$' !in message
    ensures RagPrompt(pre + ContextKey + mid + QuestionKey + post, context, message)
            == pre + context + mid + message + post
  {
    assert pre + ContextKey + mid + QuestionKey + post == pre + ContextKey + (mid + QuestionKey + post);
    FillSlot(pre, ContextKey, mid + QuestionKey + post, context);
    var before := pre + context + mid;
    assert '{' !in before by {
      forall j | 0 <= j < |before| ensures before[j] != '{' {
        if j < |pre| { assert before[j] == pre[j]; }
        else if j < |pre| + |context| { assert before[j] == context[j - |pre|]; }
        else { assert before[j] == mid[j - |pre| - |context|]; }
      }
    }
    assert pre + context + (mid + QuestionKey + post) == before + QuestionKey + post;
    FillSlot(before, QuestionKey, post, message);
  }

  /** Normal mode re-encodes an image as png for the google provider and as jpeg otherwise,
      keeping its base64 payload. */
  lemma PanelImagePayload(provider: string, header: string, payload: string)
    requires ',' !in header && ',' !in payload
    ensures PanelImage(provider, header + "," + payload) ==
            "data:" + (if provider == "google" then "image/png" else "image/jpeg") + ";base64," + payload
  {
    ReencodeKeepsPayload(header, payload, if provider == "google" then "image/png" else "image/jpeg");
  }

  /** The text on a normal-mode placeholder: while the chunks arrive, the text so far with
      its last character under the cursor; after a completed stream, the text without its
      last character; after a failed one, what was last shown. */
  function NormalShown(r: Reply): string {
    var full := Concat(r.deltas);
    if r.completed then DropLast(full) else if r.deltas == [] then Cursor else Shown(CursorOverLast, full)
  }

  /** A normal-mode exchange: the list gains the user's message (unless regenerating) with
      the converted image, and the placeholder, which ends showing NormalShown. */
  lemma NormalChatShown(s: Session, model: string, message: string, image: string, isRegenerate: bool,
                        msgs: seq<Message>, hist: seq<Turn>, w: World)
    requires IdFree(msgs, w.freshId)
    ensures NormalChat(s, model, message, image, isRegenerate, msgs, hist, w).messages ==
              WithPlaceholder(msgs, isRegenerate, UserMessage(message, [PanelImage(w.provider, image)]),
                              Placeholder(w.modelName, w.freshId).(text := NormalShown(w.reply)))
  {
    var img, id, deltas := PanelImage(w.provider, image), w.freshId, w.reply.deltas;
    var full := Concat(deltas);
    var user := UserMessage(message, [img]);
    var newList := WithPlaceholder(msgs, isRegenerate, user, Placeholder(w.modelName, id));
    var streamed := Streamed(newList, id, deltas, CursorOverLast);
    assert deltas[..|deltas|] == deltas;
    StreamedPlaceholder(msgs, isRegenerate, user, w.modelName, id, deltas, |deltas|, CursorOverLast);
    if w.reply.completed {
      assert NormalChat(s, model, message, image, isRegenerate, msgs, hist, w).messages ==
             Patch(streamed, id, SetText(DropLast(full)));
      if deltas != [] {
        PatchOverwrite(newList, id, Shown(CursorOverLast, full), SetText(DropLast(full)));
      }
      PatchPlaceholder(msgs, isRegenerate, user, w.modelName, id, SetText(DropLast(full)));
    } else {
      assert NormalChat(s, model, message, image, isRegenerate, msgs, hist, w).messages == streamed;
    }
  }

  /** A completed normal-mode exchange: the history gains the user turn with the converted
      image and the whole answer; the request and then the exchange are logged; the stream is
      over and the embedding controller untouched. */
  lemma NormalChatCompleted(s: Session, model: string, message: string, image: string, isRegenerate: bool,
                            msgs: seq<Message>, hist: seq<Turn>, w: World)
    requires w.reply.completed
    ensures var t := NormalChat(s, model, message, image, isRegenerate, msgs, hist, w);
            var img, full := PanelImage(w.provider, image), Concat(w.reply.deltas);
            && t.history == hist + [Turn(User, message, Some(img))] + [Turn(Assistant, full, None)]
            && t.effects == s.effects + [StreamRequest(NormalInput(w.nonRagPrompt, hist, message, w.provider, img)),
                                         Db(SaveOnSuccess(s.historyId, isRegenerate, model, message, img, full, []))]
            && Idle(t) && t.embeddingController == s.embeddingController
  {
  }

  /** In normal mode the answer shown once complete lacks the last character of the answer
      kept in the history. */
  lemma NormalAnswerLosesLastChar(s: Session, model: string, message: string, image: string,
                                  msgs: seq<Message>, hist: seq<Turn>, w: World)
    requires IdFree(msgs, w.freshId) && w.reply.completed && Concat(w.reply.deltas) != ""
    ensures var t := NormalChat(s, model, message, image, false, msgs, hist, w);
            var shown, kept := t.messages[|t.messages| - 1].text, t.history[|t.history| - 1].content;
            |shown| + 1 == |kept| && shown + [kept[|kept| - 1]] == kept
  {
    NormalChatShown(s, model, message, image, false, msgs, hist, w);
    NormalChatCompleted(s, model, message, image, false, msgs, hist, w);
  }

  /** A normal-mode stream that throws adds no turn to the history, logs the request and the
      partial answer for saveMessageOnError, and ends the stream. The history writes of
      saveMessageOnError are not modelled. */
  lemma NormalChatInterrupted(s: Session, model: string, message: string, image: string, isRegenerate: bool,
                              msgs: seq<Message>, hist: seq<Turn>, w: World)
    requires !w.reply.completed
    ensures var t := NormalChat(s, model, message, image, isRegenerate, msgs, hist, w);
            var img, full := PanelImage(w.provider, image), Concat(w.reply.deltas);
            && t.history == s.history
            && t.effects == s.effects + [StreamRequest(NormalInput(w.nonRagPrompt, hist, message, w.provider, img)),
                                         Db(SaveOnError(full, message, img, s.historyId, hist, isRegenerate))]
            && Idle(t) && t.embeddingController == s.embeddingController
  {
  }

  /** stopStreamingRequest aborts the embedding only while it runs, then the chat stream,
      and drops both controllers it aborts, so a second stop aborts nothing more. */
  lemma StopAborts(s: Session)
    ensures Stop(s).controller.None?
    ensures Stop(s).embeddingController == if s.isEmbedding then None else s.embeddingController
    ensures Stop(s).effects == s.effects
              + (if s.isEmbedding && s.embeddingController.Some? then [Abort(s.embeddingController.value)] else [])
              + (if s.controller.Some? then [Abort(s.controller.value)] else [])
    ensures Stop(Stop(s)) == Stop(s)
  {
    var s1 := if s.isEmbedding && s.embeddingController.Some?
              then s.(effects := s.effects + [Abort(s.embeddingController.value)], embeddingController := None)
              else s;
    assert s1.controller == s.controller;
    assert s1.embeddingController == if s.isEmbedding then None else s.embeddingController;
    assert s1.effects == s.effects
              + (if s.isEmbedding && s.embeddingController.Some? then [Abort(s.embeddingController.value)] else []);
  }

  /** clearChat stops the streams and empties the conversation, but keeps the vector stores
      and the url they are looked up by. */
  lemma ClearForgetsConversation(s: Session)
    ensures var t := Clear(s);
            && Idle(t) && t.effects == Stop(s).effects
            && t.messages == [] && t.history == [] && t.historyId.None? && t.isFirstMessage
            && t.embeddings == s.embeddings && t.currentURL == s.currentURL
  {
  }

  /** The steps of website mode after the embedding build no index, retrieve nothing, and
      leave the stores and the held url alone. */
  predicate KeepsIndexing(s: Session, t: Session) {
    && Builds(t.effects) == Builds(s.effects) && Retrievals(t.effects) == Retrievals(s.effects)
    && t.embeddings == s.embeddings && t.currentURL == s.currentURL
  }

  lemma AppendOther(effects: seq<Effect>, e: Effect)
    requires !e.BuildIndex? && !e.Retrieve?
    ensures Builds(effects + [e]) == Builds(effects) && Retrievals(effects + [e]) == Retrievals(effects)
  {
    BuildsAppend(effects, [e]);
    RetrievalsAppend(effects, [e]);
  }

  lemma AppendBuild(effects: seq<Effect>, url: string, page: Option<Page>)
    ensures Builds(effects + [BuildIndex(url, page)]) == Builds(effects) + [url]
    ensures Retrievals(effects + [BuildIndex(url, page)]) == Retrievals(effects)
  {
    BuildsAppend(effects, [BuildIndex(url, page)]);
    RetrievalsAppend(effects, [BuildIndex(url, page)]);
  }

  lemma AppendRetrieve(effects: seq<Effect>, store: StoreId, query: string, k: nat)
    ensures Builds(effects + [Retrieve(store, query, k)]) == Builds(effects)
    ensures Retrievals(effects + [Retrieve(store, query, k)]) == Retrievals(effects) + [Retrieve(store, query, k)]
  {
    BuildsAppend(effects, [Retrieve(store, query, k)]);
    RetrievalsAppend(effects, [Retrieve(store, query, k)]);
  }

  lemma RagAnswerKeepsIndexing(s: Session, model: string, message: string, image: string, isRegenerate: bool,
                               hist: seq<Turn>, w: World)
    ensures KeepsIndexing(s, RagAnswer(s, model, message, image, isRegenerate, hist, w))
  {
    if w.docs.None? {
      AppendOther(s.effects, Db(SaveOnError("", message, image, s.historyId, hist, isRegenerate)));
    } else {
      var request := StreamRequest(RagInput(hist, RagPrompt(w.ragPrompt, w.context, message)));
      var s1 := s.(effects := s.effects + [request]);
      AppendOther(s.effects, request);
      var s2 := AfterStream(s1, w.freshId, w.reply.deltas);
      var full := Concat(w.reply.deltas);
      if !w.reply.completed {
        AppendOther(s2.effects, Db(SaveOnError(full, message, image, s.historyId, hist, isRegenerate)));
      } else {
        AppendOther(s2.effects, Db(SaveOnSuccess(s.historyId, isRegenerate, model, message, image, full,
                                                 Annotated(w.docs.value))));
      }
    }
  }

  /** The fields other than the log, the url held and the stores are those of s. */
  predicate SameConversation(t: Session, s: Session) {
    && t.messages == s.messages && t.history == s.history && t.historyId == s.historyId
    && t.streaming == s.streaming && t.isProcessing == s.isProcessing && t.isEmbedding == s.isEmbedding
    && t.controller == s.controller && t.embeddingController == s.embeddingController
  }

  lemma LocatedKeeps(s: Session, msgs: seq<Message>, w: World)
    ensures SameConversation(Located(s, msgs, w), s)
  {
  }

  lemma BuiltKeeps(s: Session, msgs: seq<Message>, w: World)
    requires Cached(s).None?
    ensures SameConversation(Indexed(s, msgs, w), s)
  {
    LocatedKeeps(s, msgs, w);
  }

  /** The embedding step touches only the log, the url held and the stores. */
  lemma IndexedKeeps(s: Session, msgs: seq<Message>, w: World)
    ensures SameConversation(Indexed(s, msgs, w), s)
  {
    if Cached(s).Some? {
      LocatedKeeps(s, msgs, w);
    } else {
      BuiltKeeps(s, msgs, w);
    }
  }

  /** The start of website mode up to the embedding: the tab is fetched on the first message
      and its url held; without a store cached under the url held before, the one built is
      kept under EmbedUrl. */
  lemma IndexedState(s: Session, newList: seq<Message>, msgs: seq<Message>, w: World)
    ensures var s1 := Indexed(Started(s, newList), msgs, w);
            && s1.currentURL == EmbedUrl(s, msgs, w)
            && s1.embeddings == (if Cached(s).None? && w.newStore.Some?
                                then s.embeddings[EmbedUrl(s, msgs, w) := w.newStore.value] else s.embeddings)
  {
    var s0 := Started(s, newList);
    var located := Located(s0, msgs, w);
    assert located.currentURL == EmbedUrl(s, msgs, w) && located.embeddings == s.embeddings;
    assert Cached(s0) == Cached(s);
    if Cached(s).Some? {
      assert Indexed(s0, msgs, w) == located;
    } else {
      var url := EmbedUrl(s0, msgs, w);
      var built := located.(effects := located.effects + [BuildIndex(url, if msgs == [] then Some(w.tab) else None)]);
      if w.newStore.None? {
        assert Indexed(s0, msgs, w) == built;
      } else {
        assert Indexed(s0, msgs, w) == built.(embeddings := s.embeddings[url := w.newStore.value]);
      }
    }
  }

  /** The embedding step builds one index, for EmbedUrl, exactly when no store is cached under
      the url held before, and retrieves nothing. */
  lemma IndexedLog(s: Session, newList: seq<Message>, msgs: seq<Message>, w: World)
    ensures var s1 := Indexed(Started(s, newList), msgs, w);
            && Builds(s1.effects) == Builds(s.effects) + (if Cached(s).None? then [EmbedUrl(s, msgs, w)] else [])
            && Retrievals(s1.effects) == Retrievals(s.effects)
  {
    var located := Located(Started(s, newList), msgs, w).effects;
    if msgs != [] {
      assert located == s.effects;
    } else {
      assert located == s.effects + [FetchTab];
      AppendOther(s.effects, FetchTab);
    }
    var url, page := EmbedUrl(s, msgs, w), if msgs == [] then Some(w.tab) else None;
    if Cached(s).None? {
      assert Indexed(Started(s, newList), msgs, w).effects == located + [BuildIndex(url, page)];
      AppendBuild(located, url, page);
    } else {
      assert Indexed(Started(s, newList), msgs, w).effects == located;
    }
  }

  /** The retrieval step asks one retrieval and builds nothing. */
  lemma RetrievedLog(s: Session, newList: seq<Message>, store: StoreId, message: string, w: World)
    ensures var rw := RewriteQuery(newList, message, w.questionPrompt, w.followUpAnswer);
            var s2 := Retrieved(s, newList, store, message, w);
            && Builds(s2.effects) == Builds(s.effects)
            && Retrievals(s2.effects) == Retrievals(s.effects) + [Retrieve(store, rw.query, RetrievedCount)]
            && s2.embeddings == s.embeddings && s2.currentURL == s.currentURL
  {
    var rw := RewriteQuery(newList, message, w.questionPrompt, w.followUpAnswer);
    var before := s.effects + if rw.prompt.Some? then [FollowUp(rw.prompt.value)] else [];
    if rw.prompt.Some? {
      AppendOther(s.effects, FollowUp(rw.prompt.value));
    } else {
      assert before == s.effects;
    }
    assert Retrieved(s, newList, store, message, w).effects == before + [Retrieve(store, rw.query, RetrievedCount)];
    AppendRetrieve(before, store, rw.query, RetrievedCount);
  }

  /** Website mode, whatever the outcome: the url held is the one indexed; an index is built
      for it exactly when no store was cached under the url held before, and once built it is
      kept under that url. */
  lemma WebsiteIndexing(s: Session, model: string, message: string, image: string, isRegenerate: bool,
                        msgs: seq<Message>, hist: seq<Turn>, w: World)
    ensures var t := ChatWithWebsite(s, model, message, image, isRegenerate, msgs, hist, w);
            && t.currentURL == EmbedUrl(s, msgs, w)
            && t.embeddings == (if Cached(s).None? && w.newStore.Some?
                               then s.embeddings[EmbedUrl(s, msgs, w) := w.newStore.value] else s.embeddings)
            && Builds(t.effects) == Builds(s.effects) + (if Cached(s).None? then [EmbedUrl(s, msgs, w)] else [])
  {
    var newList := WithPlaceholder(msgs, isRegenerate, UserMessage(message, []), Placeholder(w.modelName, w.freshId));
    var s1 := Indexed(Started(s, newList), msgs, w);
    IndexedState(s, newList, msgs, w);
    IndexedLog(s, newList, msgs, w);
    var store := StoreUsed(s, msgs, w);
    var t := ChatWithWebsite(s, model, message, image, isRegenerate, msgs, hist, w);
    if store.None? {
      AppendOther(s1.effects, Db(SaveOnError("", message, image, s1.historyId, hist, isRegenerate)));
    } else {
      var rw := RewriteQuery(newList, message, w.questionPrompt, w.followUpAnswer);
      var s2 := Retrieved(s1, newList, store.value, message, w);
      RetrievedLog(s1, newList, store.value, message, w);
      RagAnswerKeepsIndexing(s2, model, message, image, isRegenerate, hist, w);
    }
  }

  /** Website mode asks one retrieval of the store in use, for RetrievedCount passages and
      the (possibly rewritten) query; none when there is no store. */
  lemma WebsiteRetrieval(s: Session, model: string, message: string, image: string, isRegenerate: bool,
                         msgs: seq<Message>, hist: seq<Turn>, w: World)
    ensures var t := ChatWithWebsite(s, model, message, image, isRegenerate, msgs, hist, w);
            var newList := WithPlaceholder(msgs, isRegenerate, UserMessage(message, []), Placeholder(w.modelName, w.freshId));
            var store := StoreUsed(s, msgs, w);
            Retrievals(t.effects) == Retrievals(s.effects) +
              if store.None? then []
              else [Retrieve(store.value, RewriteQuery(newList, message, w.questionPrompt, w.followUpAnswer).query, RetrievedCount)]
  {
    var newList := WithPlaceholder(msgs, isRegenerate, UserMessage(message, []), Placeholder(w.modelName, w.freshId));
    var s1 := Indexed(Started(s, newList), msgs, w);
    IndexedLog(s, newList, msgs, w);
    var store := StoreUsed(s, msgs, w);
    var t := ChatWithWebsite(s, model, message, image, isRegenerate, msgs, hist, w);
    if store.None? {
      AppendOther(s1.effects, Db(SaveOnError("", message, image, s1.historyId, hist, isRegenerate)));
    } else {
      var s2 := Retrieved(s1, newList, store.value, message, w);
      RetrievedLog(s1, newList, store.value, message, w);
      RagAnswerKeepsIndexing(s2, model, message, image, isRegenerate, hist, w);
    }
  }

  /** Website mode with a store and passages: after the embedding and the retrieval the list
      holds the user's message and the placeholder, the history is untouched, and the request
      with the filled prompt is sent before the answer streams. */
  lemma WebsiteAnswers(s: Session, model: string, message: string, image: string, isRegenerate: bool,
                       msgs: seq<Message>, hist: seq<Turn>, w: World)
    requires StoreUsed(s, msgs, w).Some? && w.docs.Some?
    ensures var newList := WithPlaceholder(msgs, isRegenerate, UserMessage(message, []), Placeholder(w.modelName, w.freshId));
            var s2 := Retrieved(Indexed(Started(s, newList), msgs, w), newList, StoreUsed(s, msgs, w).value, message, w);
            var request := StreamRequest(RagInput(hist, RagPrompt(w.ragPrompt, w.context, message)));
            && ChatWithWebsite(s, model, message, image, isRegenerate, msgs, hist, w) ==
                 Answer(s2.(effects := s2.effects + [request]), model, message, image, hist,
                        Some(Annotated(w.docs.value)), isRegenerate, w)
            && s2.messages == newList && s2.history == s.history && s2.historyId == s.historyId
  {
    var newList := WithPlaceholder(msgs, isRegenerate, UserMessage(message, []), Placeholder(w.modelName, w.freshId));
    var s1 := Indexed(Started(s, newList), msgs, w);
    IndexedKeeps(Started(s, newList), msgs, w);
    var s2 := Retrieved(s1, newList, StoreUsed(s, msgs, w).value, message, w);
    assert ChatWithWebsite(s, model, message, image, isRegenerate, msgs, hist, w) ==
           RagAnswer(s2, model, message, image, isRegenerate, hist, w);
  }

  /** A completed website-mode exchange shows the whole answer on the placeholder, with the
      retrieved passages as its sources; the user's message carries no image. */
  lemma WebsiteChatShown(s: Session, model: string, message: string, image: string, isRegenerate: bool,
                         msgs: seq<Message>, hist: seq<Turn>, w: World)
    requires IdFree(msgs, w.freshId) && StoreUsed(s, msgs, w).Some? && w.docs.Some? && w.reply.completed
    ensures ChatWithWebsite(s, model, message, image, isRegenerate, msgs, hist, w).messages ==
              WithPlaceholder(msgs, isRegenerate, UserMessage(message, []),
                              Placeholder(w.modelName, w.freshId).(text := Concat(w.reply.deltas),
                                                                   sources := Annotated(w.docs.value)))
  {
    var id, deltas, full := w.freshId, w.reply.deltas, Concat(w.reply.deltas);
    var user := UserMessage(message, []);
    var newList := WithPlaceholder(msgs, isRegenerate, user, Placeholder(w.modelName, id));
    var final := SetTextAndSources(full, Annotated(w.docs.value));
    WebsiteAnswers(s, model, message, image, isRegenerate, msgs, hist, w);
    assert ChatWithWebsite(s, model, message, image, isRegenerate, msgs, hist, w).messages ==
           Patch(Streamed(newList, id, deltas, CursorOverLast), id, final);
    if deltas != [] {
      PatchOverwrite(newList, id, Shown(CursorOverLast, full), final);
    }
    PatchPlaceholder(msgs, isRegenerate, user, w.modelName, id, final);
  }

  /** A completed website-mode exchange: the history gains the user turn and the whole answer;
      the request with the filled prompt and then the exchange with its sources are logged;
      the stream is over and both controllers dropped. */
  lemma WebsiteChatCompleted(s: Session, model: string, message: string, image: string, isRegenerate: bool,
                             msgs: seq<Message>, hist: seq<Turn>, w: World)
    requires StoreUsed(s, msgs, w).Some? && w.docs.Some? && w.reply.completed
    ensures var t := ChatWithWebsite(s, model, message, image, isRegenerate, msgs, hist, w);
            var full := Concat(w.reply.deltas);
            && t.history == hist + [Turn(User, message, Some(image))] + [Turn(Assistant, full, None)]
            && Idle(t) && t.embeddingController.None?
            && |t.effects| >= 2
            && t.effects[|t.effects| - 2] == StreamRequest(RagInput(hist, RagPrompt(w.ragPrompt, w.context, message)))
            && t.effects[|t.effects| - 1] ==
                 Db(SaveOnSuccess(s.historyId, isRegenerate, model, message, image, full, Annotated(w.docs.value)))
  {
    WebsiteAnswers(s, model, message, image, isRegenerate, msgs, hist, w);
  }

  /** Website mode without a store, without passages or with a stream that throws takes the
      catch path: no turn is added to the history, saveMessageOnError gets the text received
      (none before the stream), and the stream, the embedding and both controllers are ended.
      The history writes of saveMessageOnError are not modelled. */
  lemma WebsiteChatFailed(s: Session, model: string, message: string, image: string, isRegenerate: bool,
                          msgs: seq<Message>, hist: seq<Turn>, w: World)
    requires StoreUsed(s, msgs, w).None? || w.docs.None? || !w.reply.completed
    ensures var t := ChatWithWebsite(s, model, message, image, isRegenerate, msgs, hist, w);
            var text := if StoreUsed(s, msgs, w).None? || w.docs.None? then "" else Concat(w.reply.deltas);
            && t.history == s.history && Idle(t) && !t.isEmbedding && t.embeddingController.None?
            && t.effects != []
            && t.effects[|t.effects| - 1] == Db(SaveOnError(text, message, image, s.historyId, hist, isRegenerate))
  {
    var t := ChatWithWebsite(s, model, message, image, isRegenerate, msgs, hist, w);
    var newList := WithPlaceholder(msgs, isRegenerate, UserMessage(message, []), Placeholder(w.modelName, w.freshId));
    var s1 := Indexed(Started(s, newList), msgs, w);
    IndexedKeeps(Started(s, newList), msgs, w);
    var failedFrom: Session, text: string;
    if StoreUsed(s, msgs, w).None? {
      failedFrom, text := s1, "";
    } else if w.docs.None? {
      failedFrom, text := Retrieved(s1, newList, StoreUsed(s, msgs, w).value, message, w), "";
    } else {
      WebsiteAnswers(s, model, message, image, isRegenerate, msgs, hist, w);
      var s2 := Retrieved(s1, newList, StoreUsed(s, msgs, w).value, message, w);
      var request := StreamRequest(RagInput(hist, RagPrompt(w.ragPrompt, w.context, message)));
      failedFrom, text := AfterStream(s2.(effects := s2.effects + [request]), w.freshId, w.reply.deltas), Concat(w.reply.deltas);
    }
    assert failedFrom.history == s.history && failedFrom.historyId == s.historyId;
    assert t == Failed(failedFrom, text, message, image, hist, isRegenerate, true);
  }

  /** An index built on one submission is used by the next ones: a later submission finds it
      under the url held and builds nothing more. */
  lemma BuiltIndexReused(s: Session, model: string, message1: string, image1: string, msgs1: seq<Message>,
                         hist1: seq<Turn>, w1: World, message2: string, image2: string, msgs2: seq<Message>,
                         hist2: seq<Turn>, w2: World)
    requires Cached(s).None? && w1.newStore.Some? && msgs2 != []
    ensures var t1 := ChatWithWebsite(s, model, message1, image1, false, msgs1, hist1, w1);
            var t2 := ChatWithWebsite(t1, model, message2, image2, false, msgs2, hist2, w2);
            && StoreUsed(t1, msgs2, w2) == w1.newStore
            && Builds(t2.effects) == Builds(s.effects) + [EmbedUrl(s, msgs1, w1)]
  {
    var t1 := ChatWithWebsite(s, model, message1, image1, false, msgs1, hist1, w1);
    WebsiteIndexing(s, model, message1, image1, false, msgs1, hist1, w1);
    assert Cached(t1) == w1.newStore;
    WebsiteIndexing(t1, model, message2, image2, false, msgs2, hist2, w2);
  }

  /** On the first message the store is looked up under the url held before the tab is
      fetched: a store cached for the previous page is retrieved from, no index is built for
      the page now open, and the next submission finds no store under its url unless one was
      built for it before. */
  lemma StaleCacheOnFirstMessage(s: Session, model: string, message: string, image: string,
                                 hist: seq<Turn>, w: World)
    requires s.currentURL in s.embeddings
    ensures var t := ChatWithWebsite(s, model, message, image, false, [], hist, w);
            && t.currentURL == w.tab.url
            && Builds(t.effects) == Builds(s.effects)
            && Retrievals(t.effects) == Retrievals(s.effects) +
                 [Retrieve(s.embeddings[s.currentURL], message, RetrievedCount)]
            && (w.tab.url !in s.embeddings ==> Cached(t).None?)
  {
    WebsiteIndexing(s, model, message, image, false, [], hist, w);
    WebsiteRetrieval(s, model, message, image, false, [], hist, w);
  }

  /** A completed submission keeps the list and the history matched, in either mode. */
  lemma SubmitKeepsConsistent(s: Session, chatMode: string, model: string, message: string, image: string,
                              w: World)
    requires Consistent(s.messages, s.history) && IdFree(s.messages, w.freshId) && w.reply.completed
    requires chatMode != "normal" ==> StoreUsed(s, s.messages, w).Some? && w.docs.Some?
    ensures var t := Submit(s, chatMode, model, message, image, w);
            Consistent(t.messages, t.history)
  {
    var t := Submit(s, chatMode, model, message, image, w);
    var full := Concat(w.reply.deltas);
    var s1 := s.(controller := Some(w.newController));
    if chatMode == "normal" {
      var img := PanelImage(w.provider, image);
      NormalChatShown(s1, model, message, image, false, s.messages, s.history, w);
      NormalChatCompleted(s1, model, message, image, false, s.messages, s.history, w);
      ExchangeKeepsConsistent(s.messages, s.history, UserMessage(message, [img]),
                              Placeholder(w.modelName, w.freshId).(text := NormalShown(w.reply)),
                              Turn(User, message, Some(img)), Turn(Assistant, full, None));
    } else {
      var s2 := s1.(embeddingController := Some(w.newEmbeddingController));
      assert StoreUsed(s2, s.messages, w) == StoreUsed(s, s.messages, w);
      WebsiteChatShown(s2, model, message, image, false, s.messages, s.history, w);
      WebsiteChatCompleted(s2, model, message, image, false, s.messages, s.history, w);
      ExchangeKeepsConsistent(s.messages, s.history, UserMessage(message, []),
                              Placeholder(w.modelName, w.freshId).(text := full, sources := Annotated(w.docs.value)),
                              Turn(User, message, Some(image)), Turn(Assistant, full, None));
    }
  }

  /** A normal-mode request is the system prompt (when set), then the history, then the
      message with the converted image when there is one, in the provider's form. */
  lemma NormalInputOrdered(prompt: string, hist: seq<Turn>, message: string, provider: string, image: string)
    ensures var img := PanelImage(provider, image);
            Ordered(NormalInput(prompt, hist, message, provider, img),
                    if prompt != "" then Some(Parts([TextPart(prompt)])) else None, hist,
                    if |image| > 0
                    then Parts([TextPart(message), ImagePart(if provider == "google" then BareUrl(img) else UrlObject(img))])
                    else Parts([TextPart(message)]))
  {
  }

  /** A website-mode request has no system message: the history, then the filled prompt. */
  lemma RagInputOrdered(hist: seq<Turn>, prompt: string)
    ensures Ordered(RagInput(hist, prompt), None, hist, Parts([TextPart(prompt)]))
  {
  }
}
