/** What both chat hooks share: the UI message list and the compact turn history, the
    placeholder that a stream fills in, the follow-up question rewrite, the messages sent
    to the chat model and the log of everything the hooks ask of the outside world. */
module Chat {
  import opened Strings

  type MessageId = string
  type ControllerId = nat
  type StoreId = nat

  datatype Role = User | Assistant

  /** The metadata of a retrieved page passage; `kind` is the field the source calls `type`.
      Either field may be missing. */
  datatype Metadata = Metadata(source: Option<string>, kind: Option<string>)
  datatype Doc = Doc(pageContent: string, metadata: Option<Metadata>)

  /** A source shown under an answer: a web search result as the search service returns it,
      or a page passage annotated by the side panel. */
  datatype Source =
    | WebResult(url: string, title: string)
    | Passage(doc: Doc, name: string, kind: string, mode: string, url: string)

  /** A UI message. `images` is None where the source leaves the field undefined (bot
      messages); `id` is set only on the bot placeholder so that stream chunks can find it. */
  datatype Message = Message(isBot: bool, name: string, text: string, sources: seq<Source>,
                             images: Option<seq<string>>, id: Option<MessageId>)

  /** A compact history entry; `image` is None (undefined) on assistant turns. */
  datatype Turn = Turn(role: Role, content: string, image: Option<string>)

  /** The cursor glyph U+258B shown in the placeholder. */
  const Cursor: string := "\U{258B}"

  function UserMessage(text: string, images: seq<string>): Message {
    Message(false, "You", text, [], Some(images), None)
  }

  function Placeholder(name: string, id: MessageId): Message {
    Message(true, name, Cursor, [], None, Some(id))
  }

  /** The list set as soon as a submission starts: the given messages, the user's message
      unless this is a regeneration, and the bot placeholder. */
  function WithPlaceholder(msgs: seq<Message>, isRegenerate: bool, user: Message, placeholder: Message): seq<Message> {
    if isRegenerate then msgs + [placeholder] else msgs + [user, placeholder]
  }

  /** The given messages stay an unchanged prefix; the user's message follows unless
      regenerating; the list ends with the bot placeholder showing the cursor, without
      sources, under the fresh id. */
  lemma PlaceholderAppended(msgs: seq<Message>, isRegenerate: bool, user: Message, name: string, id: MessageId)
    ensures var l := WithPlaceholder(msgs, isRegenerate, user, Placeholder(name, id));
            && |l| == |msgs| + (if isRegenerate then 1 else 2)
            && l[..|msgs|] == msgs
            && (!isRegenerate ==> l[|msgs|] == user)
            && l[|l| - 1].isBot && l[|l| - 1].name == name && l[|l| - 1].text == Cursor
            && l[|l| - 1].sources == [] && l[|l| - 1].id == Some(id)
  {
  }

  datatype Update = SetText(text: string) | SetTextAndSources(text: string, sources: seq<Source>)

  function Apply(m: Message, u: Update): Message {
    match u
    case SetText(t) => m.(text := t)
    case SetTextAndSources(t, src) => m.(text := t, sources := src)
  }

  /** `prev.map(m => m.id === id ? {...m, ...update} : m)`: the messages carrying the id are
      updated, every other message is kept as it is. */
  function Patch(msgs: seq<Message>, id: MessageId, u: Update): seq<Message> {
    seq(|msgs|, i requires 0 <= i < |msgs| => if msgs[i].id == Some(id) then Apply(msgs[i], u) else msgs[i])
  }

  /** A later text update of the same id overrides an earlier one. */
  lemma PatchOverwrite(msgs: seq<Message>, id: MessageId, t: string, u: Update)
    ensures Patch(Patch(msgs, id, SetText(t)), id, u) == Patch(msgs, id, u)
  {
  }

  predicate IdFree(msgs: seq<Message>, id: MessageId) {
    forall i :: 0 <= i < |msgs| ==> msgs[i].id != Some(id)
  }

  /** A fresh id patches only the placeholder at the end of the new list. */
  lemma PatchPlaceholder(msgs: seq<Message>, isRegenerate: bool, user: Message, name: string,
                         id: MessageId, u: Update)
    requires IdFree(msgs, id) && user.id == None
    ensures Patch(WithPlaceholder(msgs, isRegenerate, user, Placeholder(name, id)), id, u)
         == WithPlaceholder(msgs, isRegenerate, user, Apply(Placeholder(name, id), u))
  {
  }

  /** The chunks a chat stream delivered, and whether it then ended normally (`completed`) or
      threw: cancelled through its abort signal or failed at the provider. A stream cancelled
      after k chunks is `Reply(chunks[..k], false)`. */
  datatype Reply = Reply(deltas: seq<string>, completed: bool)

  /** The text accumulated from the stream: `fullText += chunk.content` for every chunk. */
  function Concat(deltas: seq<string>): string {
    if deltas == [] then "" else deltas[0] + Concat(deltas[1..])
  }

  lemma {:induction false} ConcatAppend(a: seq<string>, b: seq<string>)
    ensures Concat(a + b) == Concat(a) + Concat(b)
  {
    if a == [] {
      assert a + b == b;
    } else {
      assert (a + b)[0] == a[0] && (a + b)[1..] == a[1..] + b;
      ConcatAppend(a[1..], b);
    }
  }

  /** The text after k + 1 chunks is the text after k chunks followed by chunk k. */
  lemma ConcatStep(deltas: seq<string>, k: nat)
    requires k < |deltas|
    ensures Concat(deltas[..k + 1]) == Concat(deltas[..k]) + deltas[k]
  {
    assert deltas[..k + 1] == deltas[..k] + [deltas[k]];
    ConcatAppend(deltas[..k], [deltas[k]]);
  }

  /** How the placeholder shows the text while it streams: as it is (full-page hook), or
      with its last character covered by the cursor, `fullText.slice(0, -1) + "▋"` (side panel). */
  datatype CursorStyle = AsIs | CursorOverLast

  function Shown(style: CursorStyle, fullText: string): (r: string)
    ensures style.AsIs? ==> r == fullText
    ensures style.CursorOverLast? ==> |r| == if fullText == [] then 1 else |fullText|
    ensures style.CursorOverLast? ==> r[|r| - 1] == Cursor[0]
    ensures style.CursorOverLast? && fullText != [] ==> r[..|r| - 1] == fullText[..|fullText| - 1]
  {
    match style
    case AsIs => fullText
    case CursorOverLast => DropLast(fullText) + Cursor
  }

  /** The message list once the stream has delivered `deltas`, one patch per delta. */
  function Streamed(msgs: seq<Message>, id: MessageId, deltas: seq<string>, style: CursorStyle): seq<Message> {
    if deltas == [] then msgs else Patch(msgs, id, SetText(Shown(style, Concat(deltas))))
  }

  /** While k chunks have arrived, the placeholder shows the concatenation of exactly those k
      chunks and every other message, the earlier ones and the user's, is untouched. */
  lemma StreamedPlaceholder(msgs: seq<Message>, isRegenerate: bool, user: Message, name: string,
                            id: MessageId, deltas: seq<string>, k: nat, style: CursorStyle)
    requires IdFree(msgs, id) && user.id == None && k <= |deltas|
    ensures Streamed(WithPlaceholder(msgs, isRegenerate, user, Placeholder(name, id)), id, deltas[..k], style)
         == WithPlaceholder(msgs, isRegenerate, user,
              Placeholder(name, id).(text := if k == 0 then Cursor else Shown(style, Concat(deltas[..k]))))
  {
    if k > 0 {
      PatchPlaceholder(msgs, isRegenerate, user, name, id, SetText(Shown(style, Concat(deltas[..k]))));
    }
  }

  // ---- follow-up question rewrite ----

  function Speaker(m: Message): string {
    if m.isBot then "Assistant: " else "Human: "
  }

  function Lines(msgs: seq<Message>): seq<string> {
    seq(|msgs|, i requires 0 <= i < |msgs| => Speaker(msgs[i]) + msgs[i].text)
  }

  function LastN<T>(xs: seq<T>, n: nat): seq<T> {
    if |xs| <= n then xs else xs[|xs| - n..]
  }

  /** `newMessage.slice(-10)` and then `pop()`: the last ten entries without the last one. */
  function Window(newList: seq<Message>): seq<Message> {
    var last := LastN(newList, 10);
    if last == [] then [] else last[..|last| - 1]
  }

  /** The transcript substituted for `{chat_history}`. */
  function Transcript(newList: seq<Message>): string {
    Join(Lines(Window(newList)), "\n")
  }

  const ChatHistoryKey: string := "{chat_history}"
  const QuestionKey: string := "{question}"

  function FollowUpPrompt(template: string, newList: seq<Message>, question: string): string {
    ReplaceAll(ReplaceAll(template, ChatHistoryKey, Transcript(newList)), QuestionKey, question)
  }

  /** Text without `{` around a `{question}` slot holds no `{chat_history}` slot. */
  lemma NoHistorySlotAfter(t1: string, t2: string)
    requires '{' !in t1 && '{' !in t2
    ensures !Occurs(t1 + QuestionKey + t2, ChatHistoryKey)
  {
    var rest := t1 + QuestionKey + t2;
    forall j | 0 <= j <= |rest| ensures !MatchAt(rest, ChatHistoryKey, j) {
      if j + |ChatHistoryKey| <= |rest| {
        var m := rest[j..j + |ChatHistoryKey|];
        assert m[0] == rest[j] && m[1] == rest[j + 1];
        if j < |t1| {
          assert rest[j] == t1[j];
        } else if j == |t1| {
          assert rest[j + 1] == QuestionKey[1];
        } else if j < |t1| + |QuestionKey| {
          assert '{' !in QuestionKey[1..];
          assert rest[j] == QuestionKey[1..][j - |t1| - 1];
        } else {
          assert rest[j] == t2[j - |t1| - |QuestionKey|];
        }
      }
    }
  }

  /** A template with a `{chat_history}` slot followed by a `{question}` slot, and no other
      `{`, is filled with the transcript and the question in their places, when the
      transcript holds no `{` and neither inserted text holds `$`. */
  lemma FollowUpPromptFilled(t0: string, t1: string, t2: string, newList: seq<Message>, question: string)
    requires '{' !in t0 && '{' !in t1 && '{' !in t2 && '{' !in Transcript(newList)
    requires '$' !in Transcript(newList) && '$' !in question
    ensures FollowUpPrompt(t0 + ChatHistoryKey + t1 + QuestionKey + t2, newList, question)
            == t0 + Transcript(newList) + t1 + question + t2
  {
    var tr := Transcript(newList);
    var rest := t1 + QuestionKey + t2;
    assert t0 + ChatHistoryKey + t1 + QuestionKey + t2 == t0 + ChatHistoryKey + rest;
    NoHistorySlotAfter(t1, t2);
    ReplaceAllSplice(t0, ChatHistoryKey, rest, tr);
    assert t0 + tr + rest == (t0 + tr + t1) + QuestionKey + t2;
    AbsentFirstChar(t2, QuestionKey);
    ReplaceAllSplice(t0 + tr + t1, QuestionKey, t2, question);
  }

  /** The prompt the chat model is asked for a standalone question, if any, and the query
      used for search or retrieval. */
  datatype Rewrite = Rewrite(prompt: Option<string>, query: string)

  function RewriteQuery(newList: seq<Message>, message: string, template: string, answer: string): Rewrite {
    if |newList| > 2 then Rewrite(Some(FollowUpPrompt(template, newList, message)), answer)
    else Rewrite(None, message)
  }

  /** The window is the last nine entries before the placeholder. */
  lemma WindowBeforeLast(newList: seq<Message>)
    requires newList != []
    ensures Window(newList) == LastN(newList[..|newList| - 1], 9)
  {
    var n := |newList|;
    if n <= 10 {
      assert LastN(newList[..n - 1], 9) == newList[..n - 1];
    } else {
      assert LastN(newList, 10) == newList[n - 10..];
      assert LastN(newList[..n - 1], 9) == newList[..n - 1][n - 10..];
      assert newList[..n - 1][n - 10..] == newList[n - 10..n - 1] == newList[n - 10..][..9];
    }
  }

  /** The model is asked to rewrite the question exactly when the list already held an
      exchange before this submission (two entries before a regenerated placeholder, one
      before the user's new message otherwise); its transcript renders the last entries
      before the placeholder, at most nine, as "Human: " / "Assistant: " lines; without a
      rewrite the query is the message itself. */
  lemma RewriteRule(msgs: seq<Message>, isRegenerate: bool, user: Message, placeholder: Message,
                    message: string, template: string, answer: string)
    ensures var newList := WithPlaceholder(msgs, isRegenerate, user, placeholder);
            var rw := RewriteQuery(newList, message, template, answer);
            && (rw.prompt.Some? <==> |msgs| >= if isRegenerate then 2 else 1)
            && (rw.prompt.None? ==> rw.query == message)
            && (rw.prompt.Some? ==>
                  && rw.query == answer
                  && rw.prompt.value == ReplaceAll(ReplaceAll(template, ChatHistoryKey,
                       Join(Lines(LastN(if isRegenerate then msgs else msgs + [user], 9)), "\n")),
                       QuestionKey, message))
  {
    var newList := WithPlaceholder(msgs, isRegenerate, user, placeholder);
    WindowBeforeLast(newList);
    assert newList[..|newList| - 1] == if isRegenerate then msgs else msgs + [user];
  }

  // ---- what is sent to the chat model ----

  datatype ImageRef = BareUrl(uri: string) | UrlObject(url: string)
  datatype Part = TextPart(text: string) | ImagePart(image: ImageRef)
  datatype Content = Text(text: string) | Parts(parts: seq<Part>)

  /** `PriorTurns(h)` stands for `generateHistory(h)`, whose rendering is not part of this model. */
  datatype ModelMsg = SystemMsg(content: Content) | PriorTurns(turns: seq<Turn>) | HumanMsg(content: Content)

  /** The model input is in order: system prompt (if any), then prior turns, then the new
      human message. */
  predicate Ordered(input: seq<ModelMsg>, system: Option<Content>, hist: seq<Turn>, human: Content) {
    && |input| == (if system.Some? then 3 else 2)
    && (system.Some? ==> input[0] == SystemMsg(system.value))
    && input[|input| - 2] == PriorTurns(hist)
    && input[|input| - 1] == HumanMsg(human)
  }

  // ---- the outside world ----

  datatype PdfPage = PdfPage(content: string, page: int)
  datatype Page = Page(content: string, url: string, kind: string, pdf: seq<PdfPage>)

  /** Calls into the storage layer, by the name of the function called. */
  datatype DbEvent =
    | SaveHistory(title: string)
    | SaveMessage(historyId: string, model: string, role: Role, content: string,
                  images: seq<string>, sources: Option<seq<Source>>)
    | RemoveMessages(removeFrom: Option<string>)
    | UpdateMessage(updateIn: Option<string>, index: int, newContent: string)
    | DeleteForEdit(deleteIn: Option<string>, deleteIndex: int)
    | SaveOnError(botMessage: string, userMessage: string, errorImage: string,
                  errorHistoryId: Option<string>, errorHistory: seq<Turn>, isRegenerating: bool)
    | SaveOnSuccess(savedHistoryId: Option<string>, isRegenerate: bool, modelId: string,
                    message: string, savedImage: string, fullText: string, savedSources: seq<Source>)

  /** Everything a hook asks of the outside world, in order. */
  datatype Effect =
    | Db(event: DbEvent)
    | FetchTab
    | BuildIndex(indexUrl: string, page: Option<Page>)
    | FollowUp(prompt: string)
    | WebSearch(query: string)
    | Retrieve(store: StoreId, retrievalQuery: string, k: nat)
    | StreamRequest(input: seq<ModelMsg>)
    | Abort(controller: ControllerId)

  /** The turn an effect saves under session hid, if any. */
  function TurnSaved(e: Effect, hid: string): seq<(Role, string)> {
    if e.Db? && e.event.SaveMessage? && e.event.historyId == hid then [(e.event.role, e.event.content)] else []
  }

  /** The turns written to session `hid` by saveMessage calls, in order. */
  function SavedTurns(effects: seq<Effect>, hid: string): seq<(Role, string)> {
    if effects == [] then [] else TurnSaved(effects[0], hid) + SavedTurns(effects[1..], hid)
  }

  lemma {:induction false} SavedTurnsAppend(a: seq<Effect>, b: seq<Effect>, hid: string)
    ensures SavedTurns(a + b, hid) == SavedTurns(a, hid) + SavedTurns(b, hid)
  {
    if a == [] {
      assert a + b == b;
    } else {
      assert (a + b)[0] == a[0] && (a + b)[1..] == a[1..] + b;
      SavedTurnsAppend(a[1..], b, hid);
    }
  }

  /** An effect that records no turn of any session. */
  predicate SavesNoTurn(e: Effect) {
    !(e.Db? && e.event.SaveMessage?)
  }

  lemma {:induction false} SavedTurnsNone(a: seq<Effect>, hid: string)
    requires forall i :: 0 <= i < |a| ==> SavesNoTurn(a[i])
    ensures SavedTurns(a, hid) == []
  {
    if a != [] {
      SavedTurnsNone(a[1..], hid);
    }
  }

  /** The urls of the vector stores built, in order. */
  function Builds(effects: seq<Effect>): seq<string> {
    if effects == [] then []
    else (if effects[0].BuildIndex? then [effects[0].indexUrl] else []) + Builds(effects[1..])
  }

  lemma {:induction false} BuildsAppend(a: seq<Effect>, b: seq<Effect>)
    ensures Builds(a + b) == Builds(a) + Builds(b)
  {
    if a == [] {
      assert a + b == b;
    } else {
      assert (a + b)[0] == a[0] && (a + b)[1..] == a[1..] + b;
      BuildsAppend(a[1..], b);
    }
  }

  lemma {:induction false} BuildsNone(a: seq<Effect>)
    requires forall i :: 0 <= i < |a| ==> !a[i].BuildIndex?
    ensures Builds(a) == []
  {
    if a != [] {
      BuildsNone(a[1..]);
    }
  }

  /** The retrievals asked of vector stores, in order. */
  function Retrievals(effects: seq<Effect>): seq<Effect> {
    if effects == [] then []
    else (if effects[0].Retrieve? then [effects[0]] else []) + Retrievals(effects[1..])
  }

  lemma {:induction false} RetrievalsAppend(a: seq<Effect>, b: seq<Effect>)
    ensures Retrievals(a + b) == Retrievals(a) + Retrievals(b)
  {
    if a == [] {
      assert a + b == b;
    } else {
      assert (a + b)[0] == a[0] && (a + b)[1..] == a[1..] + b;
      RetrievalsAppend(a[1..], b);
    }
  }

  lemma {:induction false} RetrievalsNone(a: seq<Effect>)
    requires forall i :: 0 <= i < |a| ==> !a[i].Retrieve?
    ensures Retrievals(a) == []
  {
    if a != [] {
      RetrievalsNone(a[1..]);
    }
  }

  /** At rest the UI list and the compact history match entry for entry: bot messages
      against assistant turns, the user's messages against user turns. */
  predicate Consistent(msgs: seq<Message>, hist: seq<Turn>) {
    |msgs| == |hist| && forall i :: 0 <= i < |msgs| ==> (msgs[i].isBot <==> hist[i].role == Assistant)
  }

  /** A completed exchange keeps the list and the history matched: the user's message and the
      filled placeholder on one side, a user and an assistant turn on the other. */
  lemma ExchangeKeepsConsistent(msgs: seq<Message>, hist: seq<Turn>, user: Message, bot: Message,
                                 t1: Turn, t2: Turn)
    requires Consistent(msgs, hist) && !user.isBot && bot.isBot
    requires t1.role == User && t2.role == Assistant
    ensures Consistent(msgs + [user, bot], hist + [t1] + [t2])
  {
  }

  /** A regeneration keeps the list and the history matched: the last message and the last
      two turns (a user turn, then the answer) are dropped, and the new placeholder and a user
      and an assistant turn are added. */
  lemma ResubmitKeepsConsistent(msgs: seq<Message>, hist: seq<Turn>, bot: Message, t1: Turn, t2: Turn)
    requires Consistent(msgs, hist) && |hist| >= 2 && hist[|hist| - 2].role == User
    requires bot.isBot && t1.role == User && t2.role == Assistant
    ensures Consistent(msgs[..|msgs| - 1] + [bot], hist[..|hist| - 2] + [t1] + [t2])
  {
    var n := |hist|;
    assert !msgs[n - 2].isBot;
  }
}
