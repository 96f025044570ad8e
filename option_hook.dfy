/** The chat session controller of the full-page options UI (src/hooks/useMessageOption.tsx):
    normal and web-search submissions, regenerate, edit, stop and clear.

    Each operation is given twice: as a function from the session before to the session
    after (the specification, about which the lemmas at the end speak), and as a method of
    `OptionChat` that updates the session's fields step by step as the hook does and is
    proved to end in the state the function gives. */
module OptionHook {
  import opened Strings
  import opened Chat

  /** The session state the hook reads and writes through its store setters, with the log
      of what it asked of the outside world. */
  datatype Session = Session(
    messages: seq<Message>, history: seq<Turn>, historyId: Option<string>,
    streaming: bool, isProcessing: bool, isSearchingInternet: bool,
    isLoading: bool, isFirstMessage: bool,
    controller: Option<ControllerId>, effects: seq<Effect>)

  /** What getSystemPromptForWeb returns: a prompt and the search results. */
  datatype Search = Search(prompt: string, sources: seq<Source>)

  /** What the outside world answers during one submission. */
  datatype World = World(
    freshId: MessageId,              // generateID()
    followUpTemplate: string,        // geWebSearchFollowUpPrompt()
    followUpAnswer: string,          // what the model answers to the follow-up prompt
    search: Option<Search>,          // getSystemPromptForWeb(query); None when it throws
    defaultPrompt: string,           // systemPromptForNonRagOption(); "" when unset
    selectedPrompt: Option<string>,  // content of getPromptById(selectedSystemPrompt), if found
    reply: Reply,                    // the chat stream
    newHistoryId: string,            // saveHistory(message).id
    newController: ControllerId)     // new AbortController()

  /** A historyId is used only when it is truthy: not null and not empty. */
  predicate HasHistory(historyId: Option<string>) {
    historyId.Some? && historyId.value != ""
  }

  /** validateBeforeSubmit: a model is selected unless its name is missing or blank. */
  function ModelSelected(model: string): bool {
    Trim(model) != []
  }

  lemma ModelSelectedNotBlank(model: string)
    ensures ModelSelected(model) <==> exists i :: 0 <= i < |model| && !IsJsSpace(model[i])
  {
    TrimBlank(model);
  }

  /** The image as the hook sends it: a non-empty image becomes a jpeg data URI. */
  function JpegImage(image: string): string {
    if |image| > 0 then DataUri("image/jpeg", image) else image
  }

  /** `message.trim().replaceAll("\n", " ")`: the text sent and stored is one trimmed line. */
  function CleanMessage(message: string): (r: string)
    ensures '\n' !in r
    ensures |r| <= |message|
  {
    ReplaceAllOneChar(Trim(message), '\n', ' ');
    ReplaceAll(Trim(message), "\n", " ")
  }

  /** The cleaned message is empty exactly when the message is blank. */
  lemma CleanMessageBlank(message: string)
    ensures CleanMessage(message) == [] <==> IsBlank(message)
  {
    ReplaceAllOneChar(Trim(message), '\n', ' ');
    TrimBlank(message);
  }

  /** The system messages prepended in normal mode: the default prompt is unshifted when no
      prompt is selected, then the selected prompt is unshifted. At most one results, and a
      selected prompt takes precedence over the default. */
  function SystemPrompts(defaultPrompt: string, selected: Option<string>): (r: seq<ModelMsg>)
    ensures |r| <= 1
    ensures selected.Some? ==> r == [SystemMsg(Text(selected.value))]
    ensures selected.None? ==> (r != [] <==> defaultPrompt != "")
    ensures selected.None? && r != [] ==> r[0] == SystemMsg(Text(defaultPrompt))
  {
    var withDefault := if defaultPrompt != "" && selected.None? then [SystemMsg(Text(defaultPrompt))] else [];
    (if selected.Some? then [SystemMsg(Text(selected.value))] else []) + withDefault
  }

  /** The storage calls that record a completed exchange, and the historyId afterwards. */
  datatype Saved = Saved(events: seq<Effect>, historyId: Option<string>)

  /** The id an exchange is saved under: the session's own, or the new session's. */
  function SessionId(historyId: Option<string>, newId: string): string {
    if HasHistory(historyId) then historyId.value else newId
  }

  /** The stream is over: the flags are down and no abort controller is kept. */
  predicate Idle(s: Session) {
    !s.streaming && !s.isProcessing && s.controller.None?
  }

  /** The turns a completed exchange saves: the user turn (unless left out) and the answer. */
  function ExchangeTurns(text: string, fullText: string, withUser: bool): seq<(Role, string)> {
    (if withUser then [(User, text)] else []) + [(Assistant, fullText)]
  }

  /** With a session id the user turn is saved unless regenerating, then the assistant turn;
      without one a session is created first, both turns are saved to it, and its id is kept. */
  function SaveExchange(historyId: Option<string>, model: string, text: string, image: string,
                        fullText: string, sources: Option<seq<Source>>, isRegenerate: bool,
                        newId: string): (r: Saved)
    ensures r.historyId == Some(SessionId(historyId, newId))
    ensures SavedTurns(r.events, SessionId(historyId, newId)) ==
              ExchangeTurns(text, fullText, !(isRegenerate && HasHistory(historyId)))
    ensures !HasHistory(historyId) ==> |r.events| > 0 && r.events[0] == Db(SaveHistory(text))
  {
    var h := SessionId(historyId, newId);
    var user := [Db(SaveMessage(h, model, User, text, [image], None))];
    var bot := [Db(SaveMessage(h, model, Assistant, fullText, [], sources))];
    assert SavedTurns(user, h) == [(User, text)] by { assert user[1..] == []; }
    assert SavedTurns(bot, h) == [(Assistant, fullText)] by { assert bot[1..] == []; }
    SavedTurnsAppend(user, bot, h);
    if HasHistory(historyId) then
      if isRegenerate then Saved(bot, historyId) else Saved(user + bot, historyId)
    else
      var first := [Db(SaveHistory(text))];
      assert SavedTurns(first, h) == [] by { assert first[1..] == []; }
      SavedTurnsAppend(first, user + bot, h);
      Saved(first + user + bot, Some(newId))
  }

  /** The catch block: saveMessageOnError is called with the partial answer, the flags are
      cleared, and the finally block drops the abort controller. */
  function Failed(s: Session, botMessage: string, userMessage: string, image: string,
                  hist: seq<Turn>, isRegenerate: bool): Session {
    s.(effects := s.effects + [Db(SaveOnError(botMessage, userMessage, image, s.historyId, hist, isRegenerate))],
       isProcessing := false, streaming := false, controller := None)
  }

  /** The stream: the placeholder shows the text so far after each chunk, and isProcessing is
      set at the first chunk. */
  function AfterStream(s: Session, id: MessageId, deltas: seq<string>): Session {
    s.(messages := Streamed(s.messages, id, deltas, AsIs), isProcessing := s.isProcessing || deltas != [])
  }

  /** The exchange recorded in storage. */
  function Recorded(s: Session, model: string, text: string, img: string, fullText: string,
                    sources: Option<seq<Source>>, isRegenerate: bool, newId: string): Session {
    var saved := SaveExchange(s.historyId, model, text, img, fullText, sources, isRegenerate, newId);
    s.(effects := s.effects + saved.events, historyId := saved.historyId)
  }

  /** The end of the try block after a completed stream: the sources (search mode) are put on
      the placeholder, the user turn (when given) and the answer are appended to the history,
      the exchange is saved, the flags are cleared, and the finally block drops the controller. */
  function Completed(s: Session, id: MessageId, model: string, text: string, img: string,
                     hist: seq<Turn>, userTurn: seq<Turn>, sources: Option<seq<Source>>,
                     fullText: string, isRegenerate: bool, newId: string): Session {
    var shown := if sources.Some? then Patch(s.messages, id, SetTextAndSources(fullText, sources.value)) else s.messages;
    var s1 := s.(messages := shown, history := hist + userTurn + [Turn(Assistant, fullText, None)]);
    Recorded(s1, model, text, img, fullText, sources, isRegenerate, newId)
      .(isProcessing := false, streaming := false, controller := None)
  }

  /** After the request is sent, common to both modes: the stream fills the placeholder; a
      stream that throws takes the catch path with the text received so far. */
  function Answer(s: Session, model: string, text: string, img: string, hist: seq<Turn>,
                  userTurn: seq<Turn>, sources: Option<seq<Source>>, isRegenerate: bool, w: World): Session
  {
    var s1 := AfterStream(s, w.freshId, w.reply.deltas);
    var fullText := Concat(w.reply.deltas);
    if !w.reply.completed then Failed(s1, fullText, text, img, hist, isRegenerate)
    else Completed(s1, w.freshId, model, text, img, hist, userTurn, sources, fullText, isRegenerate, w.newHistoryId)
  }

  /** The start of searchChatMode: the list gains the user message and the placeholder, the
      search flag is raised, the query is rewritten (through the follow-up prompt once the
      list holds a previous exchange) and the web is searched. */
  function AskWeb(s: Session, model: string, message: string, img: string, isRegenerate: bool,
                  msgs: seq<Message>, w: World): Session
  {
    var newList := WithPlaceholder(msgs, isRegenerate, UserMessage(message, [img]), Placeholder(model, w.freshId));
    var rw := RewriteQuery(newList, message, w.followUpTemplate, w.followUpAnswer);
    var asked := (if rw.prompt.Some? then [FollowUp(rw.prompt.value)] else []) + [WebSearch(rw.query)];
    s.(messages := newList, isSearchingInternet := true, effects := s.effects + asked)
  }

  /** The input of a search-mode request: the search prompt as system message when non-empty,
      the history, and the user's message with the image as a bare url. */
  function SearchInput(prompt: string, hist: seq<Turn>, text: string, img: string): seq<ModelMsg> {
    var human := if |img| > 0 then Parts([TextPart(text), ImagePart(BareUrl(img))]) else Text(text);
    (if prompt != "" then [SystemMsg(Text(prompt))] else []) + [PriorTurns(hist), HumanMsg(human)]
  }

  /** The input of a normal-mode request: the system prompt if any, the history, and the
      user's message with the image as an object holding its url. */
  function NormalInput(defaultPrompt: string, selected: Option<string>, hist: seq<Turn>,
                       text: string, img: string): seq<ModelMsg> {
    var human := if |img| > 0 then Parts([TextPart(text), ImagePart(UrlObject(img))]) else Text(text);
    SystemPrompts(defaultPrompt, selected) + [PriorTurns(hist), HumanMsg(human)]
  }

  /** The request of search mode, once the search succeeded: the search flag is lowered and
      the search prompt, the history and the user's message are sent. */
  function SearchRequest(s: Session, prompt: string, hist: seq<Turn>, text: string, img: string): Session {
    s.(isSearchingInternet := false, effects := s.effects + [StreamRequest(SearchInput(prompt, hist, text, img))])
  }

  /** searchChatMode: a failed search (or follow-up rewrite) takes the catch path with an
      empty answer and the raw message; otherwise the answer is streamed and its sources
      attached. The user turn is not added to the history when regenerating. */
  function SearchChat(s: Session, model: string, message: string, image: string, isRegenerate: bool,
                      msgs: seq<Message>, hist: seq<Turn>, w: World): Session
  {
    var img := JpegImage(image);
    var s1 := AskWeb(s, model, message, img, isRegenerate, msgs, w);
    if w.search.None? then Failed(s1, "", message, img, hist, isRegenerate)
    else
      var text := CleanMessage(message);
      var userTurn := if isRegenerate then [] else [Turn(User, text, Some(img))];
      Answer(SearchRequest(s1, w.search.value.prompt, hist, text, img),
             model, text, img, hist, userTurn, Some(w.search.value.sources), isRegenerate, w)
  }

  /** The start of normalChatMode: the list gains the user message and the placeholder, and
      the request is sent. */
  function NormalRequest(s: Session, model: string, message: string, text: string, img: string,
                         isRegenerate: bool, msgs: seq<Message>, hist: seq<Turn>, w: World): Session
  {
    var newList := WithPlaceholder(msgs, isRegenerate, UserMessage(message, [img]), Placeholder(model, w.freshId));
    var input := NormalInput(w.defaultPrompt, w.selectedPrompt, hist, text, img);
    s.(messages := newList, effects := s.effects + [StreamRequest(input)])
  }

  /** normalChatMode: the answer is streamed; the user turn is added to the history even when
      regenerating. */
  function NormalChat(s: Session, model: string, message: string, image: string, isRegenerate: bool,
                      msgs: seq<Message>, hist: seq<Turn>, w: World): Session
  {
    var img := JpegImage(image);
    var text := CleanMessage(message);
    Answer(NormalRequest(s, model, message, text, img, isRegenerate, msgs, hist, w),
           model, text, img, hist, [Turn(User, text, Some(img))], None, isRegenerate, w)
  }

  /** The start of onSubmit: streaming is set and the given controller, or a new one, installed. */
  function Begun(s: Session, controller: Option<ControllerId>, w: World): Session {
    s.(streaming := true, controller := Some(if controller.Some? then controller.value else w.newController))
  }

  /** onSubmit: the given messages and memory replace the session's own when present, and
      webSearch picks the mode. */
  function Submit(s: Session, model: string, webSearch: bool, message: string, image: string,
                  isRegenerate: bool, msgs: Option<seq<Message>>, memory: Option<seq<Turn>>,
                  controller: Option<ControllerId>, w: World): Session
  {
    var m := if msgs.Some? then msgs.value else s.messages;
    var h := if memory.Some? then memory.value else s.history;
    var s1 := Begun(s, controller, w);
    if webSearch then SearchChat(s1, model, message, image, isRegenerate, m, h, w)
    else NormalChat(s1, model, message, image, isRegenerate, m, h, w)
  }

  /** `x || ""` for an optional string. */
  function OrEmpty(x: Option<string>): string {
    if x.Some? then x.value else ""
  }

  /** The list after `messages.pop()`: the last message removed, an empty list left as it is. */
  function Popped(msgs: seq<Message>): (r: seq<Message>)
    ensures msgs != [] ==> r + [msgs[|msgs| - 1]] == msgs
    ensures msgs == [] ==> r == []
  {
    if msgs == [] then [] else msgs[..|msgs| - 1]
  }

  /** The first step of regenerateLastMessage: the last two turns leave the history, the last
      message leaves the list, and the stored messages of the session are removed. */
  function LastExchangeDropped(s: Session): Session {
    var n := |s.history|;
    s.(history := if n >= 2 then s.history[..n - 2] else [],
       messages := Popped(s.messages),
       effects := s.effects + [Db(RemoveMessages(s.historyId))])
  }

  /** regenerateLastMessage: the user turn before the last answer is submitted again. With a
      single turn `history[length - 2]` is undefined and reading its role throws after the
      removal. */
  function Regenerate(s: Session, model: string, webSearch: bool, w: World): Session {
    if !ModelSelected(model) || s.history == [] then s
    else
      var n := |s.history|;
      var s1 := LastExchangeDropped(s);
      if n >= 2 && s.history[n - 2].role == User then
        Submit(s1, model, webSearch, s.history[n - 2].content, OrEmpty(s.history[n - 2].image), true,
               None, Some(s1.history), Some(w.newController), w)
      else s1
  }

  function Min(a: int, b: int): int { if a <= b then a else b }

  /** `images[0] || ""` */
  function FirstImage(images: seq<string>): string {
    if images == [] then "" else images[0]
  }

  /** The first step of editing a human message: the list keeps the messages up to and
      including the edited one, the history the turns before it, and the stored message is
      updated and the later ones deleted. */
  function Rewound(s: Session, index: nat, message: string): Session {
    s.(messages := s.messages[..Min(index + 1, |s.messages|)],
       history := s.history[..Min(index, |s.history|)],
       effects := s.effects + [Db(UpdateMessage(s.historyId, index, message)),
                               Db(DeleteForEdit(s.historyId, index))])
  }

  /** Editing a bot message in place: its text in the list, then its turn in the history and
      in storage. A missing history entry throws after the list was patched. */
  function BotEdited(s: Session, index: nat, message: string): Session
    requires index < |s.messages|
  {
    var m := s.messages[index := s.messages[index].(text := message)];
    if index >= |s.history| then s.(messages := m)
    else s.(messages := m, history := s.history[index := s.history[index].(content := message)],
            effects := s.effects + [Db(UpdateMessage(s.historyId, index, message))])
  }

  /** editMessage: an edited human message is submitted again as a regeneration from the
      rewound list; reading `images[0]` of a missing message, or of one without images,
      throws after the rewind. A missing bot message throws before any change. */
  function Edit(s: Session, index: nat, message: string, isHuman: bool, model: string,
                webSearch: bool, w: World): Session {
    if isHuman then
      if !ModelSelected(model) then s
      else
        var s1 := Rewound(s, index, message);
        if index >= |s.messages| || s.messages[index].images.None? then s1
        else Submit(s1, model, webSearch, message, FirstImage(s.messages[index].images.value), true,
                    Some(s1.messages), Some(s1.history), Some(w.newController), w)
    else if index >= |s.messages| then s
    else BotEdited(s, index, message)
  }

  /** stopStreamingRequest */
  function Stop(s: Session): Session {
    if s.controller.Some? then s.(effects := s.effects + [Abort(s.controller.value)], controller := None)
    else s
  }

  /** clearChat: it resets the session but leaves a running stream alone. */
  function Clear(s: Session): Session {
    s.(messages := [], history := [], historyId := None, isFirstMessage := true,
       isLoading := false, isProcessing := false, streaming := false)
  }

  class OptionChat {
    var messages: seq<Message>
    var history: seq<Turn>
    var historyId: Option<string>
    var streaming: bool
    var isProcessing: bool
    var isSearchingInternet: bool
    var isLoading: bool
    var isFirstMessage: bool
    var controller: Option<ControllerId>
    var effects: seq<Effect>
    // settings the hook reads from its store
    var webSearch: bool
    var selectedModel: string

    function State(): Session
      reads this
    {
      Session(messages, history, historyId, streaming, isProcessing, isSearchingInternet,
              isLoading, isFirstMessage, controller, effects)
    }

    function Settings(): (bool, string)
      reads this
    {
      (webSearch, selectedModel)
    }

    constructor (webSearch: bool, selectedModel: string)
      ensures State() == Session([], [], None, false, false, false, false, true, None, [])
      ensures Settings() == (webSearch, selectedModel)
    {
      messages, history, historyId := [], [], None;
      streaming, isProcessing, isSearchingInternet, isLoading, isFirstMessage := false, false, false, false, true;
      controller, effects := None, [];
      this.webSearch, this.selectedModel := webSearch, selectedModel;
    }

    method ClearChat()
      modifies this
      ensures State() == Clear(old(State())) && Settings() == old(Settings())
    {
      messages := [];
      history := [];
      historyId := None;
      isFirstMessage := true;
      isLoading := false;
      isProcessing := false;
      streaming := false;
    }

    method StopStreamingRequest()
      modifies this
      ensures State() == Stop(old(State())) && Settings() == old(Settings())
    {
      if controller.Some? {
        effects := effects + [Abort(controller.value)];
        controller := None;
      }
    }

    /** The `for await` loop over the chunks: fullText grows by each chunk, isProcessing is
        set at the first one, and the placeholder is patched with the text so far. */
    method ConsumeStream(id: MessageId, deltas: seq<string>) returns (fullText: string)
      modifies this
      ensures fullText == Concat(deltas)
      ensures State() == AfterStream(old(State()), id, deltas) && Settings() == old(Settings())
    {
      fullText := "";
      var count := 0;
      while count < |deltas|
        invariant 0 <= count <= |deltas|
        invariant fullText == Concat(deltas[..count])
        invariant messages == Streamed(old(messages), id, deltas[..count], AsIs)
        invariant isProcessing == (old(isProcessing) || count > 0)
        invariant State() == old(State()).(messages := messages, isProcessing := isProcessing)
        invariant Settings() == old(Settings())
      {
        ConcatStep(deltas, count);
        fullText := fullText + deltas[count];
        if count == 0 {
          isProcessing := true;
        } else {
          PatchOverwrite(old(messages), id, Concat(deltas[..count]), SetText(fullText));
        }
        messages := Patch(messages, id, SetText(fullText));
        count := count + 1;
      }
      assert deltas[..count] == deltas;
    }

    method Fail(botMessage: string, userMessage: string, image: string, hist: seq<Turn>, isRegenerate: bool)
      modifies this
      ensures State() == Failed(old(State()), botMessage, userMessage, image, hist, isRegenerate)
      ensures Settings() == old(Settings())
    {
      effects := effects + [Db(SaveOnError(botMessage, userMessage, image, historyId, hist, isRegenerate))];
      isProcessing := false;
      streaming := false;
      controller := None;
    }

    /** The saveMessage / saveHistory calls after a completed stream. */
    method SaveMessages(text: string, image: string, fullText: string, sources: Option<seq<Source>>,
                        isRegenerate: bool, newId: string)
      modifies this
      ensures State() == Recorded(old(State()), selectedModel, text, image, fullText, sources, isRegenerate, newId)
      ensures Settings() == old(Settings())
    {
      if HasHistory(historyId) {
        if !isRegenerate {
          effects := effects + [Db(SaveMessage(historyId.value, selectedModel, User, text, [image], None))];
        }
        effects := effects + [Db(SaveMessage(historyId.value, selectedModel, Assistant, fullText, [], sources))];
      } else {
        effects := effects + [Db(SaveHistory(text))];
        effects := effects + [Db(SaveMessage(newId, selectedModel, User, text, [image], None))];
        effects := effects + [Db(SaveMessage(newId, selectedModel, Assistant, fullText, [], sources))];
        historyId := Some(newId);
      }
    }

    /** The placeholder gets the final text (and sources in search mode) and the history the
        exchange. */
    method ShowAnswer(id: MessageId, hist: seq<Turn>, userTurn: seq<Turn>, sources: Option<seq<Source>>,
                      fullText: string)
      modifies this
      ensures State() == old(State()).(
                messages := if sources.Some? then Patch(old(messages), id, SetTextAndSources(fullText, sources.value))
                            else old(messages),
                history := hist + userTurn + [Turn(Assistant, fullText, None)])
      ensures Settings() == old(Settings())
    {
      if sources.Some? {
        messages := Patch(messages, id, SetTextAndSources(fullText, sources.value));
      }
      history := hist + userTurn + [Turn(Assistant, fullText, None)];
    }

    /** The flags cleared and the controller dropped at the end of the stream. */
    method EndStream()
      modifies this
      ensures State() == old(State()).(isProcessing := false, streaming := false, controller := None)
      ensures Settings() == old(Settings())
    {
      isProcessing := false;
      streaming := false;
      controller := None;
    }

    method Complete(id: MessageId, text: string, img: string, hist: seq<Turn>, userTurn: seq<Turn>,
                    sources: Option<seq<Source>>, fullText: string, isRegenerate: bool, newId: string)
      modifies this
      ensures State() == Completed(old(State()), id, selectedModel, text, img, hist, userTurn, sources,
                                   fullText, isRegenerate, newId)
      ensures Settings() == old(Settings())
    {
      ShowAnswer(id, hist, userTurn, sources, fullText);
      SaveMessages(text, img, fullText, sources, isRegenerate, newId);
      EndStream();
    }

    /** The stream and what follows it in the try, catch and finally blocks. */
    method StreamAnswer(text: string, img: string, hist: seq<Turn>, userTurn: seq<Turn>,
                        sources: Option<seq<Source>>, isRegenerate: bool, w: World)
      modifies this
      ensures State() == Answer(old(State()), selectedModel, text, img, hist, userTurn, sources, isRegenerate, w)
      ensures Settings() == old(Settings())
    {
      var fullText := ConsumeStream(w.freshId, w.reply.deltas);
      if !w.reply.completed {
        Fail(fullText, text, img, hist, isRegenerate);
      } else {
        Complete(w.freshId, text, img, hist, userTurn, sources, fullText, isRegenerate, w.newHistoryId);
      }
    }

    /** The start of searchChatMode, up to the web search. */
    method SearchWeb(message: string, img: string, isRegenerate: bool, msgs: seq<Message>, w: World)
      modifies this
      ensures State() == AskWeb(old(State()), selectedModel, message, img, isRegenerate, msgs, w)
      ensures Settings() == old(Settings())
    {
      var newList := WithPlaceholder(msgs, isRegenerate, UserMessage(message, [img]), Placeholder(selectedModel, w.freshId));
      messages := newList;
      isSearchingInternet := true;
      var rw := RewriteQuery(newList, message, w.followUpTemplate, w.followUpAnswer);
      var asked := [WebSearch(rw.query)];
      if rw.prompt.Some? {
        asked := [FollowUp(rw.prompt.value)] + asked;
      }
      effects := effects + asked;
    }

    method SendSearchRequest(prompt: string, hist: seq<Turn>, text: string, img: string)
      modifies this
      ensures State() == SearchRequest(old(State()), prompt, hist, text, img)
      ensures Settings() == old(Settings())
    {
      isSearchingInternet := false;
      var human := Text(text);
      if |img| > 0 {
        human := Parts([TextPart(text), ImagePart(BareUrl(img))]);
      }
      var input := [PriorTurns(hist), HumanMsg(human)];
      if prompt != "" {
        input := [SystemMsg(Text(prompt))] + input;
      }
      assert input == SearchInput(prompt, hist, text, img);
      effects := effects + [StreamRequest(input)];
    }

    method SearchChatMode(message: string, image: string, isRegenerate: bool,
                          msgs: seq<Message>, hist: seq<Turn>, w: World)
      modifies this
      ensures State() == SearchChat(old(State()), selectedModel, message, image, isRegenerate, msgs, hist, w)
      ensures Settings() == old(Settings())
    {
      var img := image;
      if |img| > 0 {
        img := DataUri("image/jpeg", img);
      }
      SearchWeb(message, img, isRegenerate, msgs, w);
      if w.search.None? {
        Fail("", message, img, hist, isRegenerate);
        return;
      }
      var found := w.search.value;
      var text := CleanMessage(message);
      SendSearchRequest(found.prompt, hist, text, img);
      var userTurn := if isRegenerate then [] else [Turn(User, text, Some(img))];
      StreamAnswer(text, img, hist, userTurn, Some(found.sources), isRegenerate, w);
    }

    method SendNormalRequest(message: string, text: string, img: string, isRegenerate: bool,
                             msgs: seq<Message>, hist: seq<Turn>, w: World)
      modifies this
      ensures State() == NormalRequest(old(State()), selectedModel, message, text, img, isRegenerate, msgs, hist, w)
      ensures Settings() == old(Settings())
    {
      messages := WithPlaceholder(msgs, isRegenerate, UserMessage(message, [img]), Placeholder(selectedModel, w.freshId));
      var human := Text(text);
      if |img| > 0 {
        human := Parts([TextPart(text), ImagePart(UrlObject(img))]);
      }
      var input := [PriorTurns(hist), HumanMsg(human)];
      if w.defaultPrompt != "" && w.selectedPrompt.None? {
        input := [SystemMsg(Text(w.defaultPrompt))] + input;
      }
      if w.selectedPrompt.Some? {
        input := [SystemMsg(Text(w.selectedPrompt.value))] + input;
      }
      assert input == NormalInput(w.defaultPrompt, w.selectedPrompt, hist, text, img);
      effects := effects + [StreamRequest(input)];
    }

    method NormalChatMode(message: string, image: string, isRegenerate: bool,
                          msgs: seq<Message>, hist: seq<Turn>, w: World)
      modifies this
      ensures State() == NormalChat(old(State()), selectedModel, message, image, isRegenerate, msgs, hist, w)
      ensures Settings() == old(Settings())
    {
      var img := image;
      if |img| > 0 {
        img := DataUri("image/jpeg", img);
      }
      var text := CleanMessage(message);
      SendNormalRequest(message, text, img, isRegenerate, msgs, hist, w);
      StreamAnswer(text, img, hist, [Turn(User, text, Some(img))], None, isRegenerate, w);
    }

    method BeginSubmit(given: Option<ControllerId>, w: World)
      modifies this
      ensures State() == Begun(old(State()), given, w) && Settings() == old(Settings())
    {
      streaming := true;
      if given.None? {
        controller := Some(w.newController);
      } else {
        controller := given;
      }
    }

    method OnSubmit(message: string, image: string, isRegenerate: bool, msgs: Option<seq<Message>>,
                    memory: Option<seq<Turn>>, given: Option<ControllerId>, w: World)
      modifies this
      ensures State() == Submit(old(State()), selectedModel, webSearch, message, image, isRegenerate, msgs, memory, given, w)
      ensures Settings() == old(Settings())
    {
      var m := if msgs.Some? then msgs.value else messages;
      var h := if memory.Some? then memory.value else history;
      BeginSubmit(given, w);
      if webSearch {
        SearchChatMode(message, image, isRegenerate, m, h, w);
      } else {
        NormalChatMode(message, image, isRegenerate, m, h, w);
      }
    }

    method RemoveLastExchange()
      modifies this
      ensures State() == LastExchangeDropped(old(State())) && Settings() == old(Settings())
    {
      var n := |history|;
      var newHistory := if n >= 2 then history[..n - 2] else [];
      if |messages| > 0 {
        messages := messages[..|messages| - 1];
      }
      history := newHistory;
      effects := effects + [Db(RemoveMessages(historyId))];
    }

    method RegenerateLastMessage(w: World)
      modifies this
      ensures State() == Regenerate(old(State()), selectedModel, webSearch, w)
      ensures Settings() == old(Settings())
    {
      if !ModelSelected(selectedModel) {
        return;
      }
      if |history| > 0 {
        var n := |history|;
        var lastMessage := if n >= 2 then Some(history[n - 2]) else None;
        RemoveLastExchange();
        if lastMessage.Some? && lastMessage.value.role == User {
          OnSubmit(lastMessage.value.content, OrEmpty(lastMessage.value.image), true,
                   None, Some(history), Some(w.newController), w);
        }
      }
    }

    method RewindForEdit(index: nat, message: string)
      modifies this
      ensures State() == Rewound(old(State()), index, message) && Settings() == old(Settings())
    {
      messages := messages[..Min(index + 1, |messages|)];
      history := history[..Min(index, |history|)];
      effects := effects + [Db(UpdateMessage(historyId, index, message))];
      effects := effects + [Db(DeleteForEdit(historyId, index))];
    }

    method EditBotMessage(index: nat, message: string)
      requires index < |messages|
      modifies this
      ensures State() == BotEdited(old(State()), index, message) && Settings() == old(Settings())
    {
      messages := messages[index := messages[index].(text := message)];
      if index >= |history| {
        return;
      }
      history := history[index := history[index].(content := message)];
      effects := effects + [Db(UpdateMessage(historyId, index, message))];
    }

    method EditMessage(index: nat, message: string, isHuman: bool, w: World)
      modifies this
      ensures State() == Edit(old(State()), index, message, isHuman, selectedModel, webSearch, w)
      ensures Settings() == old(Settings())
    {
      if isHuman {
        if !ModelSelected(selectedModel) {
          return;
        }
        var current := if index < |messages| then Some(messages[index]) else None;
        RewindForEdit(index, message);
        if current.None? || current.value.images.None? {
          return;
        }
        OnSubmit(message, FirstImage(current.value.images.value), true,
                 Some(messages), Some(history), Some(w.newController), w);
      } else {
        if index >= |messages| {
          return;
        }
        EditBotMessage(index, message);
      }
    }
  }

  // ---- properties of the specification ----

  /** validateBeforeSubmit: regenerate and a human edit change nothing while no model is
      selected. */
  lemma NoModelNoChange(s: Session, model: string, webSearch: bool, index: nat, message: string, w: World)
    requires !ModelSelected(model)
    ensures Regenerate(s, model, webSearch, w) == s
    ensures Edit(s, index, message, true, model, webSearch, w) == s
  {
  }

  /** The end of a completed stream: the history gains the user turn (when given) and the
      answer, storage gains the exchange's turns under the session id or a new session's id,
      and the stream is over. */
  lemma CompletedState(s: Session, id: MessageId, model: string, text: string, img: string,
                       hist: seq<Turn>, userTurn: seq<Turn>, sources: Option<seq<Source>>,
                       full: string, isRegenerate: bool, newId: string)
    ensures var t := Completed(s, id, model, text, img, hist, userTurn, sources, full, isRegenerate, newId);
            && t.history == hist + userTurn + [Turn(Assistant, full, None)]
            && t.historyId == Some(SessionId(s.historyId, newId))
            && SavedTurns(t.effects, SessionId(s.historyId, newId)) ==
                 SavedTurns(s.effects, SessionId(s.historyId, newId)) +
                 ExchangeTurns(text, full, !(isRegenerate && HasHistory(s.historyId)))
            && Idle(t)
            && t.isSearchingInternet == s.isSearchingInternet
  {
    var saved := SaveExchange(s.historyId, model, text, img, full, sources, isRegenerate, newId);
    SavedTurnsAppend(s.effects, saved.events, SessionId(s.historyId, newId));
  }

  /** A normal-mode exchange whose stream delivered its chunks: the list gains the user's
      message (unless regenerating) and the placeholder, which shows the whole text received
      (or the cursor when nothing came), whether the stream then completed or threw. */
  lemma NormalChatShown(s: Session, model: string, message: string, image: string, isRegenerate: bool,
                        msgs: seq<Message>, hist: seq<Turn>, w: World)
    requires IdFree(msgs, w.freshId)
    ensures var img, full := JpegImage(image), Concat(w.reply.deltas);
            NormalChat(s, model, message, image, isRegenerate, msgs, hist, w).messages ==
              WithPlaceholder(msgs, isRegenerate, UserMessage(message, [img]),
                              Placeholder(model, w.freshId).(text := if w.reply.deltas == [] then Cursor else full))
  {
    var text, img := CleanMessage(message), JpegImage(image);
    var s1 := NormalRequest(s, model, message, text, img, isRegenerate, msgs, hist, w);
    assert NormalChat(s, model, message, image, isRegenerate, msgs, hist, w).messages
        == Streamed(s1.messages, w.freshId, w.reply.deltas, AsIs);
    StreamedPlaceholder(msgs, isRegenerate, UserMessage(message, [img]), model, w.freshId,
                        w.reply.deltas, |w.reply.deltas|, AsIs);
    assert w.reply.deltas[..|w.reply.deltas|] == w.reply.deltas;
  }

  /** A completed normal-mode exchange: the history gains the cleaned user turn and the
      answer, and storage gains the same turns under the session id (or a new session's id),
      except the user turn of a regeneration within a stored session. The stream is over and
      its controller dropped. */
  lemma NormalChatCompleted(s: Session, model: string, message: string, image: string, isRegenerate: bool,
                            msgs: seq<Message>, hist: seq<Turn>, w: World)
    requires w.reply.completed
    ensures var t := NormalChat(s, model, message, image, isRegenerate, msgs, hist, w);
            var text, img, full := CleanMessage(message), JpegImage(image), Concat(w.reply.deltas);
            && t.history == hist + [Turn(User, text, Some(img))] + [Turn(Assistant, full, None)]
            && t.historyId == Some(SessionId(s.historyId, w.newHistoryId))
            && SavedTurns(t.effects, SessionId(s.historyId, w.newHistoryId)) ==
                 SavedTurns(s.effects, SessionId(s.historyId, w.newHistoryId)) +
                 ExchangeTurns(text, full, !(isRegenerate && HasHistory(s.historyId)))
            && Idle(t)
  {
    var text, img, full := CleanMessage(message), JpegImage(image), Concat(w.reply.deltas);
    var h := SessionId(s.historyId, w.newHistoryId);
    var request := StreamRequest(NormalInput(w.defaultPrompt, w.selectedPrompt, hist, text, img));
    var s2 := AfterStream(NormalRequest(s, model, message, text, img, isRegenerate, msgs, hist, w), w.freshId, w.reply.deltas);
    assert NormalChat(s, model, message, image, isRegenerate, msgs, hist, w) ==
           Completed(s2, w.freshId, model, text, img, hist, [Turn(User, text, Some(img))], None,
                     full, isRegenerate, w.newHistoryId);
    CompletedState(s2, w.freshId, model, text, img, hist, [Turn(User, text, Some(img))], None,
                   full, isRegenerate, w.newHistoryId);
    assert SavedTurns(s2.effects, h) == SavedTurns(s.effects, h) by {
      SavedTurnsAppend(s.effects, [request], h);
      SavedTurnsNone([request], h);
    }
  }

  /** A completed search-mode exchange shows the whole answer on the placeholder, with the
      search results as its sources; the list gains the user's message unless regenerating. */
  lemma SearchChatShown(s: Session, model: string, message: string, image: string, isRegenerate: bool,
                        msgs: seq<Message>, hist: seq<Turn>, w: World)
    requires w.reply.completed && w.search.Some? && IdFree(msgs, w.freshId)
    ensures var img, full := JpegImage(image), Concat(w.reply.deltas);
            SearchChat(s, model, message, image, isRegenerate, msgs, hist, w).messages ==
              WithPlaceholder(msgs, isRegenerate, UserMessage(message, [img]),
                              Placeholder(model, w.freshId).(text := full, sources := w.search.value.sources))
  {
    var text, img, full := CleanMessage(message), JpegImage(image), Concat(w.reply.deltas);
    var user, id, found := UserMessage(message, [img]), w.freshId, w.search.value;
    var newList := WithPlaceholder(msgs, isRegenerate, user, Placeholder(model, id));
    assert SearchChat(s, model, message, image, isRegenerate, msgs, hist, w).messages ==
           Patch(Streamed(newList, id, w.reply.deltas, AsIs), id, SetTextAndSources(full, found.sources));
    if w.reply.deltas != [] {
      PatchOverwrite(newList, id, full, SetTextAndSources(full, found.sources));
    }
    PatchPlaceholder(msgs, isRegenerate, user, model, id, SetTextAndSources(full, found.sources));
  }

  /** A completed search-mode exchange: the history gains the user turn only when not
      regenerating, and storage gains the exchange's turns, the user turn again only when not
      regenerating within a stored session. The search flag is down and the stream over. */
  lemma SearchChatCompleted(s: Session, model: string, message: string, image: string, isRegenerate: bool,
                            msgs: seq<Message>, hist: seq<Turn>, w: World)
    requires w.reply.completed && w.search.Some?
    ensures var t := SearchChat(s, model, message, image, isRegenerate, msgs, hist, w);
            var text, img, full := CleanMessage(message), JpegImage(image), Concat(w.reply.deltas);
            && t.history == hist + (if isRegenerate then [] else [Turn(User, text, Some(img))]) + [Turn(Assistant, full, None)]
            && t.historyId == Some(SessionId(s.historyId, w.newHistoryId))
            && SavedTurns(t.effects, SessionId(s.historyId, w.newHistoryId)) ==
                 SavedTurns(s.effects, SessionId(s.historyId, w.newHistoryId)) +
                 ExchangeTurns(text, full, !(isRegenerate && HasHistory(s.historyId)))
            && Idle(t) && !t.isSearchingInternet
  {
    var text, img, full := CleanMessage(message), JpegImage(image), Concat(w.reply.deltas);
    var id, found := w.freshId, w.search.value;
    var h := SessionId(s.historyId, w.newHistoryId);
    var s1 := AskWeb(s, model, message, img, isRegenerate, msgs, w);
    var s2 := AfterStream(SearchRequest(s1, found.prompt, hist, text, img), id, w.reply.deltas);
    var userTurn := if isRegenerate then [] else [Turn(User, text, Some(img))];
    assert SearchChat(s, model, message, image, isRegenerate, msgs, hist, w) ==
           Completed(s2, id, model, text, img, hist, userTurn, Some(found.sources), full, isRegenerate, w.newHistoryId);
    CompletedState(s2, id, model, text, img, hist, userTurn, Some(found.sources), full, isRegenerate, w.newHistoryId);
    SearchStartSavesNoTurn(s, model, message, img, isRegenerate, msgs, found.prompt, hist, text, id, w, h);
  }

  /** Asking the web and sending the search request store no turn: the follow-up rewrite,
      the search and the request leave the saved conversation as it was. */
  lemma SearchStartSavesNoTurn(s: Session, model: string, message: string, img: string, isRegenerate: bool,
                               msgs: seq<Message>, prompt: string, hist: seq<Turn>, text: string,
                               id: MessageId, w: World, h: string)
    ensures SavedTurns(AfterStream(SearchRequest(AskWeb(s, model, message, img, isRegenerate, msgs, w),
                                                 prompt, hist, text, img), id, w.reply.deltas).effects, h)
            == SavedTurns(s.effects, h)
  {
    var s1 := AskWeb(s, model, message, img, isRegenerate, msgs, w);
    var rw := RewriteQuery(s1.messages, message, w.followUpTemplate, w.followUpAnswer);
    var asked := (if rw.prompt.Some? then [FollowUp(rw.prompt.value)] else []) + [WebSearch(rw.query)];
    var added := asked + [StreamRequest(SearchInput(prompt, hist, text, img))];
    assert s1.effects + [StreamRequest(SearchInput(prompt, hist, text, img))] == s.effects + added;
    SavedTurnsAppend(s.effects, added, h);
    SavedTurnsNone(added, h);
  }

  /** A stream that throws (cancelled through its controller, or failed at the provider)
      adds no turn to the history and none to storage, reports the partial answer to
      saveMessageOnError, and ends the stream; the placeholder keeps the text received so far
      (NormalChatShown). The history writes of saveMessageOnError are not modelled. */
  lemma NormalChatInterrupted(s: Session, model: string, message: string, image: string, isRegenerate: bool,
                              msgs: seq<Message>, hist: seq<Turn>, w: World, hid: string)
    requires !w.reply.completed
    ensures var t := NormalChat(s, model, message, image, isRegenerate, msgs, hist, w);
            var text, img, full := CleanMessage(message), JpegImage(image), Concat(w.reply.deltas);
            && t.history == s.history && t.historyId == s.historyId
            && SavedTurns(t.effects, hid) == SavedTurns(s.effects, hid)
            && t.effects[|t.effects| - 1] == Db(SaveOnError(full, text, img, s.historyId, hist, isRegenerate))
            && Idle(t)
  {
    var text, img, full := CleanMessage(message), JpegImage(image), Concat(w.reply.deltas);
    var request := StreamRequest(NormalInput(w.defaultPrompt, w.selectedPrompt, hist, text, img));
    var failure := Db(SaveOnError(full, text, img, s.historyId, hist, isRegenerate));
    var t := NormalChat(s, model, message, image, isRegenerate, msgs, hist, w);
    assert t.effects == s.effects + [request, failure];
    assert SavedTurns(t.effects, hid) == SavedTurns(s.effects, hid) by {
      SavedTurnsAppend(s.effects, [request, failure], hid);
      SavedTurnsNone([request, failure], hid);
    }
  }

  /** A failed search (or follow-up rewrite) reports an empty answer and the raw message to
      saveMessageOnError, adds no turn, and leaves the search flag raised, since only the
      search's success lowers it. */
  lemma SearchFailed(s: Session, model: string, message: string, image: string, isRegenerate: bool,
                     msgs: seq<Message>, hist: seq<Turn>, w: World, hid: string)
    requires w.search.None?
    ensures var t := SearchChat(s, model, message, image, isRegenerate, msgs, hist, w);
            var img := JpegImage(image);
            && t.history == s.history && t.historyId == s.historyId
            && SavedTurns(t.effects, hid) == SavedTurns(s.effects, hid)
            && t.effects[|t.effects| - 1] == Db(SaveOnError("", message, img, s.historyId, hist, isRegenerate))
            && t.isSearchingInternet && Idle(t)
  {
    var img := JpegImage(image);
    var s1 := AskWeb(s, model, message, img, isRegenerate, msgs, w);
    var rw := RewriteQuery(s1.messages, message, w.followUpTemplate, w.followUpAnswer);
    var asked := (if rw.prompt.Some? then [FollowUp(rw.prompt.value)] else []) + [WebSearch(rw.query)];
    var added := asked + [Db(SaveOnError("", message, img, s.historyId, hist, isRegenerate))];
    assert SearchChat(s, model, message, image, isRegenerate, msgs, hist, w).effects == s.effects + added;
    SavedTurnsNone(added, hid);
    SavedTurnsAppend(s.effects, added, hid);
  }

  /** A search-mode stream that throws after the search reports the partial answer and the
      cleaned message to saveMessageOnError, adds no turn, and ends with the search flag
      down. */
  lemma SearchStreamFailed(s: Session, model: string, message: string, image: string, isRegenerate: bool,
                           msgs: seq<Message>, hist: seq<Turn>, w: World, hid: string)
    requires w.search.Some? && !w.reply.completed
    ensures var t := SearchChat(s, model, message, image, isRegenerate, msgs, hist, w);
            var img := JpegImage(image);
            && t.history == s.history && t.historyId == s.historyId
            && SavedTurns(t.effects, hid) == SavedTurns(s.effects, hid)
            && t.effects[|t.effects| - 1] ==
                 Db(SaveOnError(Concat(w.reply.deltas), CleanMessage(message), img, s.historyId, hist, isRegenerate))
            && !t.isSearchingInternet && Idle(t)
  {
    var text, img := CleanMessage(message), JpegImage(image);
    var s1 := AskWeb(s, model, message, img, isRegenerate, msgs, w);
    var rw := RewriteQuery(s1.messages, message, w.followUpTemplate, w.followUpAnswer);
    var asked := (if rw.prompt.Some? then [FollowUp(rw.prompt.value)] else []) + [WebSearch(rw.query)];
    var added := asked + [StreamRequest(SearchInput(w.search.value.prompt, hist, text, img)),
                          Db(SaveOnError(Concat(w.reply.deltas), text, img, s.historyId, hist, isRegenerate))];
    assert SearchChat(s, model, message, image, isRegenerate, msgs, hist, w).effects == s.effects + added;
    SavedTurnsNone(added, hid);
    SavedTurnsAppend(s.effects, added, hid);
  }

  /** The catch path of search mode: a failed search, or a stream that throws after it,
      adds no turn to the history or to storage and ends the stream; the search flag stays
      raised exactly when the search itself failed. The history writes of
      saveMessageOnError are not modelled. */
  lemma SearchChatInterrupted(s: Session, model: string, message: string, image: string, isRegenerate: bool,
                              msgs: seq<Message>, hist: seq<Turn>, w: World, hid: string)
    requires w.search.None? || !w.reply.completed
    ensures var t := SearchChat(s, model, message, image, isRegenerate, msgs, hist, w);
            && t.history == s.history && t.historyId == s.historyId
            && SavedTurns(t.effects, hid) == SavedTurns(s.effects, hid)
            && (t.isSearchingInternet <==> w.search.None?)
            && Idle(t)
  {
    if w.search.None? {
      SearchFailed(s, model, message, image, isRegenerate, msgs, hist, w, hid);
    } else {
      SearchStreamFailed(s, model, message, image, isRegenerate, msgs, hist, w, hid);
    }
  }


  /** A completed submission of a new message keeps the list and the history matched, in
      either mode. */
  lemma SubmitKeepsConsistent(s: Session, model: string, webSearch: bool, message: string, image: string, w: World)
    requires Consistent(s.messages, s.history) && IdFree(s.messages, w.freshId)
    requires w.reply.completed && (webSearch ==> w.search.Some?)
    ensures var t := Submit(s, model, webSearch, message, image, false, None, None, None, w);
            Consistent(t.messages, t.history)
  {
    var t := Submit(s, model, webSearch, message, image, false, None, None, None, w);
    var s1 := Begun(s, None, w);
    var text, img, full := CleanMessage(message), JpegImage(image), Concat(w.reply.deltas);
    var user := UserMessage(message, [img]);
    var bot := if webSearch then Placeholder(model, w.freshId).(text := full, sources := w.search.value.sources)
               else Placeholder(model, w.freshId).(text := if w.reply.deltas == [] then Cursor else full);
    assert t.messages == s.messages + [user, bot] &&
           t.history == s.history + [Turn(User, text, Some(img))] + [Turn(Assistant, full, None)] by {
      if webSearch {
        assert t == SearchChat(s1, model, message, image, false, s.messages, s.history, w);
        SearchChatShown(s1, model, message, image, false, s.messages, s.history, w);
        SearchChatCompleted(s1, model, message, image, false, s.messages, s.history, w);
      } else {
        assert t == NormalChat(s1, model, message, image, false, s.messages, s.history, w);
        NormalChatShown(s1, model, message, image, false, s.messages, s.history, w);
        NormalChatCompleted(s1, model, message, image, false, s.messages, s.history, w);
      }
    }
    ExchangeKeepsConsistent(s.messages, s.history, user, bot, Turn(User, text, Some(img)), Turn(Assistant, full, None));
  }

  /** regenerateLastMessage with a user turn before the last answer: the last exchange is
      removed from storage, the last message from the list and the last two turns from the
      history, and that user turn is resubmitted as a regeneration on the reduced list. The
      list and the history need not be matched: after an interrupted stream or a search-mode
      regeneration they are not. */
  lemma RegenerateResubmits(s: Session, model: string, webSearch: bool, w: World)
    requires ModelSelected(model) && |s.history| >= 2
    requires s.history[|s.history| - 2].role == User
    ensures var n, last := |s.history|, s.history[|s.history| - 2];
            var s2 := Begun(LastExchangeDropped(s), Some(w.newController), w);
            var popped, kept := Popped(s.messages), s.history[..n - 2];
            && s2.messages == popped && s2.history == kept
            && s2.effects == s.effects + [Db(RemoveMessages(s.historyId))]
            && Regenerate(s, model, webSearch, w) ==
              if webSearch then SearchChat(s2, model, last.content, OrEmpty(last.image), true, popped, kept, w)
              else NormalChat(s2, model, last.content, OrEmpty(last.image), true, popped, kept, w)
  {
  }

  /** Regenerating in normal mode submits the last user turn again: the list loses the last
      message and gains the filled placeholder, the history loses the last two turns and gains
      the cleaned user turn and the answer. */
  lemma RegenerateNormal(s: Session, model: string, w: World)
    requires ModelSelected(model) && |s.history| >= 2
    requires s.history[|s.history| - 2].role == User
    requires w.reply.completed && IdFree(s.messages, w.freshId)
    ensures var t := Regenerate(s, model, false, w);
            var n, last := |s.history|, s.history[|s.history| - 2];
            var full := Concat(w.reply.deltas);
            && t.messages == Popped(s.messages) +
                 [Placeholder(model, w.freshId).(text := if w.reply.deltas == [] then Cursor else full)]
            && t.history == s.history[..n - 2] +
                 [Turn(User, CleanMessage(last.content), Some(JpegImage(OrEmpty(last.image))))] +
                 [Turn(Assistant, full, None)]
  {
    var n := |s.history|;
    var last := s.history[n - 2];
    var popped, kept := Popped(s.messages), s.history[..n - 2];
    var s2 := Begun(LastExchangeDropped(s), Some(w.newController), w);
    RegenerateResubmits(s, model, false, w);
    assert IdFree(popped, w.freshId);
    NormalChatShown(s2, model, last.content, OrEmpty(last.image), true, popped, kept, w);
    NormalChatCompleted(s2, model, last.content, OrEmpty(last.image), true, popped, kept, w);
  }

  /** Regenerating in normal mode keeps the list and the history matched: one message and two
      turns are dropped, then one placeholder and two turns are added. */
  lemma RegenerateNormalKeepsConsistent(s: Session, model: string, w: World)
    requires ModelSelected(model) && Consistent(s.messages, s.history)
    requires |s.history| >= 2 && s.history[|s.history| - 2].role == User
    requires w.reply.completed && IdFree(s.messages, w.freshId)
    ensures var t := Regenerate(s, model, false, w);
            Consistent(t.messages, t.history)
  {
    var last := s.history[|s.history| - 2];
    var full := Concat(w.reply.deltas);
    RegenerateNormal(s, model, w);
    ResubmitKeepsConsistent(s.messages, s.history,
                            Placeholder(model, w.freshId).(text := if w.reply.deltas == [] then Cursor else full),
                            Turn(User, CleanMessage(last.content), Some(JpegImage(OrEmpty(last.image)))),
                            Turn(Assistant, full, None));
  }

  /** Regenerating in search mode drops two turns but adds back only the answer, while the
      list loses one message and gains the placeholder: a matched list and history stop being
      matched. */
  lemma RegenerateSearchLosesUserTurn(s: Session, model: string, w: World)
    requires ModelSelected(model) && Consistent(s.messages, s.history)
    requires |s.history| >= 2 && s.history[|s.history| - 2].role == User
    requires w.reply.completed && w.search.Some? && IdFree(s.messages, w.freshId)
    ensures var t := Regenerate(s, model, true, w);
            |t.history| == |s.history| - 1 && |t.messages| == |s.messages| &&
            !Consistent(t.messages, t.history)
  {
    var n := |s.history|;
    var last := s.history[n - 2];
    var popped, kept := Popped(s.messages), s.history[..n - 2];
    var full := Concat(w.reply.deltas);
    var s2 := Begun(LastExchangeDropped(s), Some(w.newController), w);
    RegenerateResubmits(s, model, true, w);
    assert IdFree(popped, w.freshId);
    SearchChatShown(s2, model, last.content, OrEmpty(last.image), true, popped, kept, w);
    SearchChatCompleted(s2, model, last.content, OrEmpty(last.image), true, popped, kept, w);
  }

  /** With a single turn in the history, regenerate removes it and pops the last message, and
      then throws reading the role of `history[-1]`: nothing is submitted. */
  lemma RegenerateSingleTurn(s: Session, model: string, webSearch: bool, w: World)
    requires ModelSelected(model) && |s.history| == 1
    ensures var t := Regenerate(s, model, webSearch, w);
            && t.history == [] && t.messages == Popped(s.messages)
            && t.streaming == s.streaming && t.controller == s.controller
            && t.effects == s.effects + [Db(RemoveMessages(s.historyId))]
  {
  }

  /** When the turn before the last answer is not a user turn, regenerate removes the last
      exchange and submits nothing. */
  lemma RegenerateAfterNonUserTurn(s: Session, model: string, webSearch: bool, w: World)
    requires ModelSelected(model) && |s.history| >= 2
    requires s.history[|s.history| - 2].role != User
    ensures var t := Regenerate(s, model, webSearch, w);
            && t == LastExchangeDropped(s)
            && t.history == s.history[..|s.history| - 2] && t.messages == Popped(s.messages)
            && t.streaming == s.streaming && t.controller == s.controller
            && t.effects == s.effects + [Db(RemoveMessages(s.historyId))]
  {
  }

  /** Editing a human message, in either mode: the list is cut after the edited message and
      the history before its turn, storage updates that message and deletes the later ones,
      and the new text is submitted as a regeneration from the cut list and history with the
      edited message's first image. */
  lemma EditHumanSubmits(s: Session, index: nat, message: string, model: string, webSearch: bool, w: World)
    requires ModelSelected(model) && index < |s.messages| && s.messages[index].images.Some?
    ensures var s1 := Rewound(s, index, message);
            && s1.messages == s.messages[..index + 1]
            && s1.history == s.history[..Min(index, |s.history|)]
            && s1.effects == s.effects + [Db(UpdateMessage(s.historyId, index, message)),
                                          Db(DeleteForEdit(s.historyId, index))]
            && Edit(s, index, message, true, model, webSearch, w) ==
                 Submit(s1, model, webSearch, message, FirstImage(s.messages[index].images.value), true,
                        Some(s1.messages), Some(s1.history), Some(w.newController), w)
  {
  }

  /** Editing a human message whose entry is missing, or has no images, throws reading
      `images[0]` after the rewind: the list and the history stay cut, storage is updated,
      and nothing is submitted. */
  lemma EditHumanThrows(s: Session, index: nat, message: string, model: string, webSearch: bool, w: World)
    requires ModelSelected(model)
    requires index >= |s.messages| || s.messages[index].images.None?
    ensures var t := Edit(s, index, message, true, model, webSearch, w);
            && t == Rewound(s, index, message)
            && t.messages == s.messages[..Min(index + 1, |s.messages|)]
            && t.history == s.history[..Min(index, |s.history|)]
            && t.effects == s.effects + [Db(UpdateMessage(s.historyId, index, message)),
                                         Db(DeleteForEdit(s.historyId, index))]
            && t.streaming == s.streaming && t.controller == s.controller
  {
  }

  /** Editing a human message in normal mode rewinds to it and submits the new text: the list
      keeps the messages up to the edited one, with its old text, and gains the answer's
      placeholder; the history is cut before the edited turn and gains the new exchange. */
  lemma EditHumanResubmits(s: Session, index: nat, message: string, model: string, w: World)
    requires ModelSelected(model) && index < |s.messages| && s.messages[index].images.Some?
    requires w.reply.completed && IdFree(s.messages, w.freshId)
    ensures var t := Edit(s, index, message, true, model, false, w);
            var img, full := JpegImage(FirstImage(s.messages[index].images.value)), Concat(w.reply.deltas);
            && |t.messages| == index + 2
            && t.messages[..index + 1] == s.messages[..index + 1]
            && t.messages[index + 1] == Placeholder(model, w.freshId).(text := if w.reply.deltas == [] then Cursor else full)
            && t.history == s.history[..Min(index, |s.history|)] +
                 [Turn(User, CleanMessage(message), Some(img))] + [Turn(Assistant, full, None)]
  {
    var s1 := Rewound(s, index, message);
    var image := FirstImage(s.messages[index].images.value);
    var s2 := Begun(s1, Some(w.newController), w);
    assert s1.messages == s.messages[..index + 1];
    assert Edit(s, index, message, true, model, false, w) ==
           NormalChat(s2, model, message, image, true, s1.messages, s1.history, w);
    assert IdFree(s1.messages, w.freshId);
    NormalChatShown(s2, model, message, image, true, s1.messages, s1.history, w);
    NormalChatCompleted(s2, model, message, image, true, s1.messages, s1.history, w);
  }

  /** Editing a human message in search mode, like regenerating there, adds only the answer to
      the history: the edited turn is cut away and not added back. The list keeps the messages
      up to the edited one and gains the answer with the search results as its sources. */
  lemma EditHumanSearchLosesTurn(s: Session, index: nat, message: string, model: string, w: World)
    requires ModelSelected(model) && index < |s.messages| && s.messages[index].images.Some?
    requires w.reply.completed && w.search.Some? && IdFree(s.messages, w.freshId)
    ensures var t := Edit(s, index, message, true, model, true, w);
            var full := Concat(w.reply.deltas);
            && |t.messages| == index + 2
            && t.messages[..index + 1] == s.messages[..index + 1]
            && t.messages[index + 1] == Placeholder(model, w.freshId).(text := full, sources := w.search.value.sources)
            && t.history == s.history[..Min(index, |s.history|)] + [Turn(Assistant, full, None)]
  {
    var s1 := Rewound(s, index, message);
    var image := FirstImage(s.messages[index].images.value);
    var s2 := Begun(s1, Some(w.newController), w);
    EditHumanSubmits(s, index, message, model, true, w);
    assert Edit(s, index, message, true, model, true, w) ==
           SearchChat(s2, model, message, image, true, s1.messages, s1.history, w);
    assert IdFree(s1.messages, w.freshId);
    SearchChatShown(s2, model, message, image, true, s1.messages, s1.history, w);
    SearchChatCompleted(s2, model, message, image, true, s1.messages, s1.history, w);
  }

  /** Editing a bot message: a missing message throws before any change. Otherwise its text
      is set in the list; when its turn is in the history, the turn's content is set and the
      stored message updated, and when it is not (the placeholder of an interrupted stream),
      the throw leaves the history and storage alone. Only the edited entries change, so a
      matched list and history stay matched. */
  lemma EditBotInPlace(s: Session, index: nat, message: string, model: string, webSearch: bool, w: World)
    ensures index >= |s.messages| ==> Edit(s, index, message, false, model, webSearch, w) == s
    ensures index < |s.messages| ==>
            var t := Edit(s, index, message, false, model, webSearch, w);
            && |t.messages| == |s.messages| && t.messages[index].text == message
            && (forall j :: 0 <= j < |s.messages| && j != index ==> t.messages[j] == s.messages[j])
            && t == s.(messages := t.messages, history := t.history, effects := t.effects)
            && (index < |s.history| ==>
                  && |t.history| == |s.history| && t.history[index].content == message
                  && (forall j :: 0 <= j < |s.history| && j != index ==> t.history[j] == s.history[j])
                  && t.effects == s.effects + [Db(UpdateMessage(s.historyId, index, message))])
            && (index >= |s.history| ==> t.history == s.history && t.effects == s.effects)
            && (Consistent(s.messages, s.history) ==> Consistent(t.messages, t.history))
  {
  }

  /** clearChat leaves a running stream and its controller alone; stopping afterwards still
      aborts it. */
  lemma ClearKeepsStream(s: Session)
    ensures Clear(s).controller == s.controller && Clear(s).effects == s.effects
    ensures s.controller.Some? ==> Stop(Clear(s)).effects == s.effects + [Abort(s.controller.value)]
  {
  }

  /** stopStreamingRequest aborts the running stream through its controller and drops it,
      and changes nothing else; without a controller it does nothing, so a second stop aborts
      nothing more. */
  lemma StopAborts(s: Session)
    ensures Stop(s).controller.None?
    ensures Stop(s).effects == s.effects + (if s.controller.Some? then [Abort(s.controller.value)] else [])
    ensures Stop(s) == s.(controller := None, effects := Stop(s).effects)
    ensures Stop(Stop(s)) == Stop(s)
  {
  }

  /** A search-mode request is the search prompt (when non-empty), then the history, then the
      user's message, which carries the image as a bare url when there is one. */
  lemma SearchInputOrdered(prompt: string, hist: seq<Turn>, text: string, img: string)
    ensures Ordered(SearchInput(prompt, hist, text, img), if prompt != "" then Some(Text(prompt)) else None, hist,
                    if |img| > 0 then Parts([TextPart(text), ImagePart(BareUrl(img))]) else Text(text))
  {
  }

  /** A normal-mode request is one system message (the selected prompt, else the default one
      when non-empty), then the history, then the user's message, which carries the image as
      an object holding its url when there is one. */
  lemma NormalInputOrdered(defaultPrompt: string, selected: Option<string>, hist: seq<Turn>, text: string, img: string)
    ensures var system := if selected.Some? then Some(Text(selected.value))
                          else if defaultPrompt != "" then Some(Text(defaultPrompt)) else None;
            Ordered(NormalInput(defaultPrompt, selected, hist, text, img), system, hist,
                    if |img| > 0 then Parts([TextPart(text), ImagePart(UrlObject(img))]) else Text(text))
  {
  }
}
