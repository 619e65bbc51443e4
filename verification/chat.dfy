/**
 * One browser session of the assistant: the state it keeps between
 * interactions, the handling of one chat input (main.py:406-526) and the
 * sidebar actions that start, switch, load and delete chats
 * (main.py:264-364). Everything the source obtains from outside (the
 * completion and search services, the `/convert` regular expression and
 * number formatting, the clock) arrives in a `World` value; each call of
 * a service function is returned as a `Call`.
 */
module Chat {

  import opened Common
  import opened Text
  import History
  import Commands
  import Tools
  import Persona

  /** The session keys the source keeps (main.py:118-136), once a user has logged in. */
  datatype ChatState = ChatState(
    user: string,
    sessionId: History.SessionId,
    title: string,
    messages: seq<Message>,
    tasks: seq<string>,
    subscriber: bool,
    bots: seq<Bot>,
    botName: string,
    botPrompt: Option<string>)

  /**
   * The session keys as the first login of a browser session leaves them
   * (main.py:118-136, 240-241): an empty chat titled "New Chat" under the
   * persona named "AmritAI", with the user's saved bots loaded.
   */
  function LoggedIn(user: string, sessionId: History.SessionId, store: History.Store): (s: ChatState)
    ensures s.user == user && s.sessionId == sessionId && s.title == "New Chat" && s.botName == "AmritAI"
    ensures s.messages == [] && s.tasks == [] && !s.subscriber && s.botPrompt == None
    ensures s.bots == History.LoadUserBots(store, user)
  {
    ChatState(user, sessionId, "New Chat", [], [], false, History.LoadUserBots(store, user), "AmritAI", None)
  }

  /** The bot selector's options (main.py:257): the default entry, then the bots' names. */
  function BotOptions(bots: seq<Bot>): seq<string> {
    [DefaultBotOption] + Persona.BotNames(bots)
  }

  /**
   * The option the selector shows on its first render (main.py:259-264):
   * the active bot's name when it is an option, the default entry
   * otherwise. Afterwards the widget keeps the user's choice.
   */
  function ShownOption(bots: seq<Bot>, active: string): (shown: string)
    ensures shown == active <==> active in BotOptions(bots)
    ensures shown != active ==> shown == DefaultBotOption
  {
    if active in BotOptions(bots) then active else DefaultBotOption
  }

  /**
   * The first chat screen after the first login of a browser session (a
   * later login keeps the keys that logout does not reset). Unless the
   * user has a bot named "AmritAI", the selector shows "AmritAI
   * (Default)", which differs from the active name, so the switch of
   * main.py:266-279 runs before the chat input is drawn: the chat starts
   * over under the default entry's name, with the new id `switchId` taken
   * from the clock.
   */
  function Start(user: string, sessionId: History.SessionId, switchId: History.SessionId,
                 store: History.Store): (s: ChatState)
    ensures s.user == user && s.messages == [] && s.tasks == [] && !s.subscriber && s.botPrompt == None
    ensures s.bots == History.LoadUserBots(store, user)
    ensures "AmritAI" in Persona.BotNames(s.bots) ==>
              s.botName == "AmritAI" && s.title == "New Chat" && s.sessionId == sessionId
    ensures "AmritAI" !in Persona.BotNames(s.bots) ==>
              s.botName == DefaultBotOption && s.title == "New Chat with " + DefaultBotOption && s.sessionId == switchId
  {
    var s0 := LoggedIn(user, sessionId, store);
    assert "AmritAI" in BotOptions(s0.bots) <==> "AmritAI" in Persona.BotNames(s0.bots);
    Step(s0, store, SelectBot(ShownOption(s0.bots, s0.botName), switchId)).state
  }

  const SecretCode := "chiku03"
  const SecretAccepted := "🔥 Subscriber Mode ON!"
  const SecretRejected := "❌ Wrong Code."
  const EmptyQueryReply := "❌ Bhai, /web ke baad search query bhi toh do!"
  const NoResultsReply := "⚠️ Web search successful, but no relevant results found. Try a different query."
  const DefaultBotOption := "AmritAI (Default)"
  const TitlerInstruction := "You are a Chat Titler. Summarize the content of these messages into a short, catchy title (max 5 words) in English. Return ONLY the title text."

  /** What the outside world contributes to one chat input. */
  datatype World = World(
    convert: Tools.ConvertMatch,      // the `/convert` pattern match and `float()`
    figure: string,                   // the converted amount, formatted `.2f`
    searchContext: string,            // what `search_web` returned
    completion: string,               // the streamed completion text
    titleReply: Persona.TitleReply,   // the outcome of the title request
    clock: string,                    // the local time as `HH:MM:SS`
    now: History.Timestamp)           // the save time

  /**
   * A request to an outside service. A completion request that answers
   * from search results is kept as its parts; `Sent` gives the messages it
   * carries.
   */
  datatype Call =
    | SearchCall(query: string)
    | CompletionCall(history: seq<Message>)
    | GroundedCall(context: string, query: string, history: seq<Message>)
    | TitleCall(history: seq<Message>)

  /**
   * The outcome of one interaction. `raised` marks an exception that ends
   * the script run: the state keeps what was done before it and nothing
   * is written.
   */
  datatype TurnResult = TurnResult(state: ChatState, store: History.Store, calls: seq<Call>, raised: bool)

  /** `get_system_prompt` for the session. */
  function SessionPrompt(s: ChatState): Message {
    Persona.SystemPrompt(s.user, s.botPrompt, s.subscriber)
  }

  // ---------------------------------------------------------------------
  // `/web`

  const Indent := "                    "

  /**
   * The lines of the system instruction built for answering from search
   * results (main.py:483-493): the triple-quoted text starts with a line
   * break, and every line of it carries the source's 20-space indentation.
   */
  function ToolPromptLines(context: string, query: string): seq<string> {
    PreambleLines
    + [ Indent + ContextStart,
        Indent + context,
        Indent + ContextEnd,
        "",
        Indent + QueryLabel + query,
        Indent ]
  }

  /** The instruction's lines before the opening marker of the search context. */
  const PreambleLines := ["", Indent + SearchDone, Indent + AnswerOnly, Indent + SayInsufficient, ""]

  const SearchDone :=
    "You have performed a web "
    + "search. The results are "
    + "provided below in the "
    + "'tool_output'."
  const AnswerOnly :=
    "Based ONLY on the provided "
    + "search results, generate a "
    + "concise and helpful answer in "
    + "Hinglish."
  const SayInsufficient :=
    "If the search results are "
    + "insufficient, state that "
    + "clearly."
  const ContextStart := "--- SEARCH CONTEXT ---"
  const ContextEnd := "--- END CONTEXT ---"
  const QueryLabel := "User's Original Query: "

  /** The fixed lines hold no line break (one lemma each keeps the proofs small). */
  lemma ShortLinesHaveNoBreak()
    ensures '\n' !in Indent && '\n' !in ContextStart && '\n' !in ContextEnd && '\n' !in QueryLabel
  {
  }

  lemma SearchDoneHasNoBreak()
    ensures '\n' !in SearchDone
  {
  }

  lemma AnswerOnlyHasNoBreak()
    ensures '\n' !in AnswerOnly
  {
  }

  lemma SayInsufficientHasNoBreak()
    ensures '\n' !in SayInsufficient
  {
  }

  /** Joining two texts without a line break makes none. */
  lemma NoBreakAppend(a: string, b: string)
    requires '\n' !in a && '\n' !in b
    ensures '\n' !in a + b
  {
  }

  /** The instruction as one text. */
  function ToolPrompt(context: string, query: string): string {
    Join(ToolPromptLines(context, query), "\n")
  }

  /**
   * The instruction for any context and query, line breaks in them
   * included: the fixed preamble, the opening marker, the context between
   * the markers, and the query on the last labelled line, each line
   * indented.
   */
  lemma ToolPromptText(context: string, query: string)
    ensures ToolPrompt(context, query)
         == Join(PreambleLines, "\n")
            + "\n" + (Indent + ContextStart)
            + "\n" + (Indent + context)
            + "\n" + (Indent + ContextEnd)
            + "\n" + ""
            + "\n" + (Indent + QueryLabel + query)
            + "\n" + Indent
  {
    JoinAfter(PreambleLines, Indent + ContextStart, Indent + context, Indent + ContextEnd, "",
              Indent + QueryLabel + query, Indent, "\n");
  }

  /**
   * The search context sits on its own line between the two markers, and
   * the instruction ends with the labelled query and the indentation of
   * the closing line, whatever the context and the query contain.
   */
  lemma ToolPromptCarriesSearch(context: string, query: string)
    ensures Contains(ToolPrompt(context, query),
                     Indent + ContextStart + "\n" + (Indent + context) + "\n" + (Indent + ContextEnd))
    ensures EndsWith(ToolPrompt(context, query), Indent + QueryLabel + query + "\n" + Indent)
  {
    ToolPromptText(context, query);
    SixPartsPlaced(Join(PreambleLines, "\n"), Indent + ContextStart, Indent + context, Indent + ContextEnd, "",
                   Indent + QueryLabel + query, Indent, "\n");
  }

  /**
   * The instruction's lines for any context and query: the preamble's
   * lines, the opening marker, the lines of the indented context, the
   * closing marker, an empty line, the lines of the labelled query and the
   * closing indentation. A context or query without a line break is
   * therefore a line of its own.
   */
  lemma ToolPromptCarriesContext(context: string, query: string)
    ensures Split(ToolPrompt(context, query), '\n')
         == PreambleLines + [Indent + ContextStart] + Split(Indent + context, '\n')
            + [Indent + ContextEnd] + [""] + Split(Indent + QueryLabel + query, '\n') + [Indent]
  {
    ToolPromptText(context, query);
    PreambleSplits();
    FixedLinesSplit();
    SplitSevenLines(Join(PreambleLines, "\n"), Indent + ContextStart, Indent + context, Indent + ContextEnd, "",
                    Indent + QueryLabel + query, Indent, "\n", '\n', PreambleLines);
  }

  /** The preamble's lines split back out of their joined text. */
  lemma PreambleSplits()
    ensures Split(Join(PreambleLines, "\n"), '\n') == PreambleLines
  {
    ShortLinesHaveNoBreak();
    SearchDoneHasNoBreak();
    AnswerOnlyHasNoBreak();
    SayInsufficientHasNoBreak();
    NoBreakAppend(Indent, SearchDone);
    NoBreakAppend(Indent, AnswerOnly);
    NoBreakAppend(Indent, SayInsufficient);
    assert "\n" == ['\n'];
    SplitJoin(PreambleLines, '\n');
  }

  /** The marker, empty and closing lines each split into themselves. */
  lemma FixedLinesSplit()
    ensures Split(Indent + ContextStart, '\n') == [Indent + ContextStart]
    ensures Split(Indent + ContextEnd, '\n') == [Indent + ContextEnd]
    ensures Split("", '\n') == [""]
    ensures Split(Indent, '\n') == [Indent]
  {
    ShortLinesHaveNoBreak();
    NoBreakAppend(Indent, ContextStart);
    NoBreakAppend(Indent, ContextEnd);
    SplitNoSeparator(Indent + ContextStart, '\n');
    SplitNoSeparator(Indent + ContextEnd, '\n');
    SplitNoSeparator(Indent, '\n');
  }

  /** The search text reports a missing key or a failed call. */
  predicate SearchFailed(context: string) {
    Contains(context, "⚠️ Tavily Key Missing") || Contains(context, "Error: Tavily API call failed")
  }

  /** A reply together with the requests made to produce it. */
  datatype Reply = Reply(text: string, calls: seq<Call>)

  /**
   * `/web` with a non-empty query, after the search: an error text is shown
   * as it is, a "No results found" text gives the fixed notice, and
   * anything else goes to the completion service under the search
   * instruction, whose answer is the reply. The search is always the first
   * request.
   */
  function WebReply(history: seq<Message>, query: string, context: string, completion: string): (r: Reply)
    ensures 1 <= |r.calls| <= 2 && r.calls[0] == SearchCall(query)
    ensures |r.calls| == 1 <==> SearchFailed(context) || Contains(context, "No results found")
    ensures SearchFailed(context) ==> r.text == context
    ensures !SearchFailed(context) && Contains(context, "No results found") ==> r.text == NoResultsReply
    ensures |r.calls| == 2 ==> r.text == completion && r.calls[1] == GroundedCall(context, query, history)
  {
    if SearchFailed(context) then Reply(context, [SearchCall(query)])
    else if Contains(context, "No results found") then Reply(NoResultsReply, [SearchCall(query)])
    else Reply(completion, [SearchCall(query), GroundedCall(context, query, history)])
  }

  /** The messages a completion or title request sends; a search sends none. */
  function Sent(c: Call): seq<Message> {
    match c
    case SearchCall(_) => []
    case CompletionCall(history) => history
    case GroundedCall(context, query, history) => [Message(System, ToolPrompt(context, query))] + history
    case TitleCall(history) => history
  }

  /**
   * The grounded request puts the search instruction in front of the whole
   * conversation: its first message is a system message holding the search
   * context between the markers and ending with the labelled query.
   */
  lemma GroundedCallSends(context: string, query: string, history: seq<Message>)
    ensures var m := Sent(GroundedCall(context, query, history));
            && |m| == |history| + 1 && m[1..] == history && m[0].role == System
            && Contains(m[0].content, Indent + ContextStart + "\n" + (Indent + context) + "\n" + (Indent + ContextEnd))
            && EndsWith(m[0].content, Indent + QueryLabel + query + "\n" + Indent)
  {
    ToolPromptCarriesSearch(context, query);
  }

  // ---------------------------------------------------------------------
  // One chat input

  /**
   * After a reply (main.py:514-526): a chat still titled "New Chat…" with
   * more than one message gets a generated title; either way the chat is
   * saved.
   */
  function AfterReply(s: ChatState, store: History.Store, calls: seq<Call>, w: World): (r: TurnResult)
    ensures !r.raised && r.state == s.(title := r.state.title)
    ensures r.state.title != s.title ==> StartsWith(s.title, "New Chat") && |s.messages| > 1
    ensures r.store == History.SaveCurrentChat(store, s.user, s.sessionId, r.state.title, s.messages, w.now)
    ensures calls <= r.calls && |r.calls| <= |calls| + 1
    ensures StartsWith(s.title, "New Chat") && |s.messages| > 1 ==>
              && r.state.title == Persona.GenerateChatTitle(s.messages, w.titleReply, w.clock)
              && r.calls == calls + (if w.titleReply.NoKey? then []
                                     else [TitleCall([Message(System, TitlerInstruction)] + Take(s.messages, 4))])
  {
    if StartsWith(s.title, "New Chat") && |s.messages| > 1 then
      var title := Persona.GenerateChatTitle(s.messages, w.titleReply, w.clock);
      var asked := if w.titleReply.NoKey? then [] else [TitleCall([Message(System, TitlerInstruction)] + Take(s.messages, 4))];
      TurnResult(s.(title := title),
                 History.SaveCurrentChat(store, s.user, s.sessionId, title, s.messages, w.now),
                 calls + asked, false)
    else
      TurnResult(s, History.SaveCurrentChat(store, s.user, s.sessionId, s.title, s.messages, w.now), calls, false)
  }

  /** Python's `xs[:n]`: the first `n` elements, or all of them when there are fewer. */
  function Take<T>(xs: seq<T>, n: nat): (r: seq<T>)
    ensures |r| == if |xs| < n then |xs| else n
    ensures r == xs[..|r|]
  {
    if |xs| < n then xs else xs[..n]
  }

  /** What a command's branch decides, before the common post-response step. */
  datatype Outcome =
    | Cleared                                                  // `/clear`, which reruns at once
    | Raised                                                   // an exception ends the run
    | Answered(reply: string, tasks: seq<string>, calls: seq<Call>)

  /**
   * The branch of main.py:414-512 selected by the command `c`; `history`
   * is the conversation with the new input already appended. Only `/todo`
   * touches the task list, and only a number `float()` rejects raises.
   */
  function Respond(s: ChatState, history: seq<Message>, c: Commands.Command, w: World): (o: Outcome)
    ensures o.Cleared? <==> c.Clear?
    ensures o.Raised? <==> c.Convert? && w.convert.BadNumber?
    ensures o.Answered? && !c.Todo? ==> o.tasks == s.tasks
  {
    match c
    case Clear => Cleared
    case Secret(code) =>
      Answered(if code == SecretCode then SecretAccepted else SecretRejected, s.tasks, [])
    case Convert =>
      if w.convert.BadNumber? then Raised
      else Answered(Tools.ConvertReply(w.convert, w.figure), s.tasks, [])
    case List =>
      Answered(Tools.ListTasks(s.tasks), s.tasks, [])
    case Todo(task) =>
      var t := Tools.AddTask(s.tasks, task);
      Answered(t.reply, t.tasks, [])
    case Web(query) =>
      if query == "" then Answered(EmptyQueryReply, s.tasks, [])
      else
        var r := WebReply(history, query, w.searchContext, w.completion);
        Answered(r.text, s.tasks, r.calls)
    case Chat =>
      Answered(w.completion, s.tasks, [CompletionCall([SessionPrompt(s)] + history)])
  }

  /**
   * A chat input handled as command `c`: the input is appended as a user
   * message, the command's branch runs, and unless the branch cleared the
   * chat or raised, its reply is appended and the post-response step
   * follows.
   */
  function Dispatch(s: ChatState, store: History.Store, prompt: string, c: Commands.Command, w: World): (r: TurnResult)
    ensures r.state.user == s.user && r.state.subscriber == s.subscriber
    ensures r.state.bots == s.bots && r.state.botName == s.botName && r.state.botPrompt == s.botPrompt
    ensures r.state.sessionId == s.sessionId
  {
    var s1 := s.(messages := s.messages + [Message(User, prompt)]);
    match Respond(s, s1.messages, c, w)
    case Cleared =>
      // The guard of main.py:415 always holds: the input was just appended.
      var saved := if |s1.messages| > 0
                   then History.SaveCurrentChat(store, s.user, s.sessionId, s.title, s1.messages, w.now)
                   else store;
      TurnResult(s1.(messages := [], title := "New Chat with " + s.botName), saved, [], false)
    case Raised =>
      TurnResult(s1, store, [], true)
    case Answered(reply, tasks, calls) =>
      AfterReply(s1.(messages := s1.messages + [Message(Assistant, reply)], tasks := tasks), store, calls, w)
  }

  /**
   * One chat input (main.py:406-526). The empty text is falsy, so the
   * guard of main.py:406 skips it: nothing is appended, asked or saved.
   * Any other input is appended as a user message, classified, and
   * answered. No input changes who is logged in, the subscriber flag, the
   * bots or the session id.
   */
  function Turn(s: ChatState, store: History.Store, prompt: string, w: World): (r: TurnResult)
    ensures r.state.user == s.user && r.state.subscriber == s.subscriber
    ensures r.state.bots == s.bots && r.state.botName == s.botName && r.state.botPrompt == s.botPrompt
    ensures r.state.sessionId == s.sessionId
    ensures prompt == "" ==> r.state == s && r.store == store && r.calls == [] && !r.raised
    ensures prompt != "" ==> |r.state.messages| > 0 || r.state.title == "New Chat with " + s.botName
  {
    if prompt == "" then TurnResult(s, store, [], false)
    else Dispatch(s, store, prompt, Commands.Classify(prompt), w)
  }

  /** The content of the last message, or "" for none. */
  function LastContent(s: ChatState): string {
    if |s.messages| == 0 then "" else s.messages[|s.messages| - 1].content
  }

  /**
   * Every input whose branch answers adds exactly two messages, the input
   * as a user message and then the branch's reply, leaves the earlier
   * conversation as it was, keeps the requests the branch made (the title
   * request may follow them), and saves the resulting conversation.
   */
  lemma DispatchAnswered(s: ChatState, store: History.Store, prompt: string, c: Commands.Command, w: World)
    requires Respond(s, s.messages + [Message(User, prompt)], c, w).Answered?
    ensures var o := Respond(s, s.messages + [Message(User, prompt)], c, w);
            var r := Dispatch(s, store, prompt, c, w);
            && !r.raised
            && r.state.messages == s.messages + [Message(User, prompt), Message(Assistant, o.reply)]
            && r.state.tasks == o.tasks
            && o.calls <= r.calls && |r.calls| <= |o.calls| + 1
            && r.store == History.SaveCurrentChat(store, s.user, s.sessionId, r.state.title, r.state.messages, w.now)
  {
    var h := s.messages + [Message(User, prompt)];
    var o := Respond(s, h, c, w);
    var s1 := s.(messages := h);
    assert Dispatch(s, store, prompt, c, w)
        == AfterReply(s1.(messages := h + [Message(Assistant, o.reply)], tasks := o.tasks), store, o.calls, w);
    assert h + [Message(Assistant, o.reply)] == s.messages + [Message(User, prompt), Message(Assistant, o.reply)];
  }

  /**
   * An answered input in a chat still titled "New Chat…" retitles it with
   * the title generated from the whole conversation, which now holds at
   * least two messages. Without an API key that title is the error text,
   * which does not start with "New Chat", so the chat is not retitled
   * again.
   */
  lemma AnsweredRetitles(s: ChatState, store: History.Store, prompt: string, c: Commands.Command, w: World)
    requires Respond(s, s.messages + [Message(User, prompt)], c, w).Answered?
    requires StartsWith(s.title, "New Chat")
    ensures var r := Dispatch(s, store, prompt, c, w);
            && r.state.title == Persona.GenerateChatTitle(r.state.messages, w.titleReply, w.clock)
            && (w.titleReply.NoKey? ==>
                  r.state.title == Persona.MissingKeyTitle && !StartsWith(r.state.title, "New Chat"))
  {
    DispatchAnswered(s, store, prompt, c, w);
    assert Persona.MissingKeyTitle[0] != "New Chat"[0];
  }

  /**
   * After every non-empty input other than `/clear` that does not raise,
   * the conversation has grown by the input and one assistant reply, and
   * the store holds it under the session's id with the session's
   * (possibly new) title and the save time, while no other user's record
   * changes. The empty input changes nothing.
   */
  lemma TurnSavesExchange(s: ChatState, store: History.Store, prompt: string, w: World)
    requires !Commands.Classify(prompt).Clear?
    requires !Turn(s, store, prompt, w).raised
    ensures prompt == "" ==> Turn(s, store, prompt, w).state == s && Turn(s, store, prompt, w).store == store
    ensures var r := Turn(s, store, prompt, w);
            prompt != "" ==>
            && |r.state.messages| == |s.messages| + 2
            && r.state.messages[..|s.messages|] == s.messages
            && r.state.messages[|s.messages|] == Message(User, prompt)
            && r.state.messages[|s.messages| + 1].role == Assistant
            && s.user in r.store && s.sessionId in r.store[s.user].sessions
            && r.store[s.user].sessions[s.sessionId] == History.ChatRecord(r.state.title, w.now, r.state.messages)
            && (forall u :: u in store && u != s.user ==> u in r.store && r.store[u] == store[u])
  {
    if prompt != "" {
      DispatchAnswered(s, store, prompt, Commands.Classify(prompt), w);
    }
  }

  /**
   * `/secret`: the reply is the acceptance text exactly when the stripped
   * text after the command word is the code, and the wrong-code text
   * otherwise; the tasks and the subscriber flag stay as they were.
   */
  lemma SecretTurn(s: ChatState, store: History.Store, prompt: string, w: World)
    requires StartsWith(Lower(prompt), "/secret")
    ensures var r := Turn(s, store, prompt, w);
            && !r.raised
            && r.state.messages == s.messages + [Message(User, prompt), Message(Assistant, LastContent(r.state))]
            && (LastContent(r.state) == SecretAccepted <==> Strip(prompt[7..]) == SecretCode)
            && (LastContent(r.state) == SecretAccepted || LastContent(r.state) == SecretRejected)
            && r.state.tasks == s.tasks
            && r.state.subscriber == s.subscriber
  {
    Commands.ClassifyRules(prompt);
    var c := Commands.Classify(prompt);
    assert c == Commands.Secret(Strip(prompt[7..]));
    SecretReply(s, store, prompt, c.code, w);
  }

  lemma SecretReply(s: ChatState, store: History.Store, prompt: string, code: string, w: World)
    ensures var r := Dispatch(s, store, prompt, Commands.Secret(code), w);
            && !r.raised
            && r.state.messages == s.messages + [Message(User, prompt), Message(Assistant, LastContent(r.state))]
            && (LastContent(r.state) == SecretAccepted <==> code == SecretCode)
            && (LastContent(r.state) == SecretAccepted || LastContent(r.state) == SecretRejected)
            && r.state.tasks == s.tasks
  {
    var reply := if code == SecretCode then SecretAccepted else SecretRejected;
    assert Respond(s, s.messages + [Message(User, prompt)], Commands.Secret(code), w) == Answered(reply, s.tasks, []);
    DispatchAnswered(s, store, prompt, Commands.Secret(code), w);
    assert SecretAccepted != SecretRejected by { assert SecretAccepted[0] != SecretRejected[0]; }
  }

  /**
   * `/todo`: a non-empty task (the stripped text after the command word)
   * is appended at the end of the list, an empty one leaves the list as it
   * was and is refused; one assistant message is added either way.
   */
  lemma TodoTurn(s: ChatState, store: History.Store, prompt: string, w: World)
    requires StartsWith(Lower(prompt), "/todo")
    ensures var r := Turn(s, store, prompt, w);
            var task := Strip(prompt[5..]);
            && !r.raised
            && r.state.messages == s.messages + [Message(User, prompt), Message(Assistant, LastContent(r.state))]
            && (task != "" ==> r.state.tasks == s.tasks + [task]
                               && LastContent(r.state) == "✅ Task added: **" + task + "**")
            && (task == "" ==> r.state.tasks == s.tasks && LastContent(r.state) == "❌ Please provide a task.")
  {
    Commands.ClassifyRules(prompt);
    var c := Commands.Classify(prompt);
    assert c == Commands.Todo(Strip(prompt[5..]));
    TodoReply(s, store, prompt, c.task, w);
  }

  lemma TodoReply(s: ChatState, store: History.Store, prompt: string, task: string, w: World)
    ensures var r := Dispatch(s, store, prompt, Commands.Todo(task), w);
            && !r.raised
            && r.state.messages == s.messages + [Message(User, prompt), Message(Assistant, LastContent(r.state))]
            && (task != "" ==> r.state.tasks == s.tasks + [task]
                               && LastContent(r.state) == "✅ Task added: **" + task + "**")
            && (task == "" ==> r.state.tasks == s.tasks && LastContent(r.state) == "❌ Please provide a task.")
  {
    var t := Tools.AddTask(s.tasks, task);
    assert Respond(s, s.messages + [Message(User, prompt)], Commands.Todo(task), w) == Answered(t.reply, t.tasks, []);
    DispatchAnswered(s, store, prompt, Commands.Todo(task), w);
  }

  /**
   * `/clear`: the conversation, including the `/clear` input itself, is
   * saved under the session's old title; the messages are emptied and the
   * title reset, while the tasks and the session id are kept.
   */
  lemma ClearTurn(s: ChatState, store: History.Store, prompt: string, w: World)
    requires Lower(prompt) == "/clear"
    ensures var r := Turn(s, store, prompt, w);
            && !r.raised && r.calls == []
            && r.state.messages == [] && r.state.tasks == s.tasks
            && r.state.title == "New Chat with " + s.botName
            && s.user in r.store && s.sessionId in r.store[s.user].sessions
            && r.store[s.user].sessions[s.sessionId]
               == History.ChatRecord(s.title, w.now, s.messages + [Message(User, prompt)])
  {
    Commands.ClassifyRules(prompt);
    ClearReply(s, store, prompt, w);
  }

  /**
   * `/clear` saves the chat but keeps the session id (main.py:414-419), so
   * the next answered input saves the new conversation under that same id
   * (main.py:521, 526), overwriting the chat `/clear` had just saved.
   */
  lemma ClearedChatOverwritten(s: ChatState, store: History.Store, clear: string, w1: World,
                               prompt: string, w2: World)
    requires Lower(clear) == "/clear"
    requires prompt != "" && !Commands.Classify(prompt).Clear?
    requires !Turn(Turn(s, store, clear, w1).state, Turn(s, store, clear, w1).store, prompt, w2).raised
    ensures var r1 := Turn(s, store, clear, w1);
            var r2 := Turn(r1.state, r1.store, prompt, w2);
            && s.user in r1.store && s.sessionId in r1.store[s.user].sessions
            && r1.store[s.user].sessions[s.sessionId].messages == s.messages + [Message(User, clear)]
            && r2.state.sessionId == s.sessionId
            && s.user in r2.store && s.sessionId in r2.store[s.user].sessions
            && r2.store[s.user].sessions[s.sessionId].messages == r2.state.messages
            && |r2.state.messages| == 2
            && r2.store[s.user].sessions[s.sessionId].messages != s.messages + [Message(User, clear)]
  {
    ClearTurn(s, store, clear, w1);
    var r1 := Turn(s, store, clear, w1);
    TurnSavesExchange(r1.state, r1.store, prompt, w2);
    var r2 := Turn(r1.state, r1.store, prompt, w2);
    var saved := r2.store[s.user].sessions[s.sessionId].messages;
    assert saved[|saved| - 1].role == Assistant;
    assert (s.messages + [Message(User, clear)])[|s.messages|].role == User;
  }

  lemma ClearReply(s: ChatState, store: History.Store, prompt: string, w: World)
    ensures var r := Dispatch(s, store, prompt, Commands.Clear, w);
            && !r.raised && r.calls == []
            && r.state.messages == [] && r.state.tasks == s.tasks
            && r.state.title == "New Chat with " + s.botName
            && s.user in r.store && s.sessionId in r.store[s.user].sessions
            && r.store[s.user].sessions[s.sessionId]
               == History.ChatRecord(s.title, w.now, s.messages + [Message(User, prompt)])
  {
  }

  /**
   * `/web` with nothing to search for answers locally: it asks neither the
   * search nor the completion service, and at most the title request is
   * made.
   */
  lemma EmptyWebQueryIsLocal(s: ChatState, store: History.Store, prompt: string, w: World)
    ensures var r := Dispatch(s, store, prompt, Commands.Web(""), w);
            && LastContent(r.state) == EmptyQueryReply
            && |r.calls| <= 1 && forall i :: 0 <= i < |r.calls| ==> r.calls[i].TitleCall?
  {
    assert Respond(s, s.messages + [Message(User, prompt)], Commands.Web(""), w) == Answered(EmptyQueryReply, s.tasks, []);
    DispatchAnswered(s, store, prompt, Commands.Web(""), w);
    var r := Dispatch(s, store, prompt, Commands.Web(""), w);
    if |r.calls| == 1 {
      assert r.state.title != s.title || r.calls[0].TitleCall?;
    }
  }

  /**
   * `/web` with a query searches first; when the search neither failed nor
   * came back empty, the completion is asked with the search results in
   * front of the whole conversation, the new input included, and its
   * answer is the reply.
   */
  lemma WebSearchesFirst(s: ChatState, store: History.Store, prompt: string, query: string, w: World)
    requires query != ""
    ensures var r := Dispatch(s, store, prompt, Commands.Web(query), w);
            && |r.calls| >= 1 && r.calls[0] == SearchCall(query)
            && (!SearchFailed(w.searchContext) && !Contains(w.searchContext, "No results found") ==>
                  |r.calls| >= 2
                  && r.calls[1] == GroundedCall(w.searchContext, query, s.messages + [Message(User, prompt)])
                  && LastContent(r.state) == w.completion)
  {
    var h := s.messages + [Message(User, prompt)];
    var web := WebReply(h, query, w.searchContext, w.completion);
    assert Respond(s, h, Commands.Web(query), w) == Answered(web.text, s.tasks, web.calls);
    DispatchAnswered(s, store, prompt, Commands.Web(query), w);
  }

  /**
   * Plain chat sends the whole conversation, the new input included, to
   * the completion service behind the session's system prompt, and the
   * completion becomes the reply.
   */
  lemma ChatTurnAsksCompletion(s: ChatState, store: History.Store, prompt: string, w: World)
    ensures var r := Dispatch(s, store, prompt, Commands.Chat, w);
            && |r.calls| >= 1
            && r.calls[0] == CompletionCall([SessionPrompt(s)] + (s.messages + [Message(User, prompt)]))
            && LastContent(r.state) == w.completion
  {
    var h := s.messages + [Message(User, prompt)];
    RespondChat(s, h, w);
    DispatchAnswered(s, store, prompt, Commands.Chat, w);
    var r := Dispatch(s, store, prompt, Commands.Chat, w);
    assert r.state.messages[|r.state.messages| - 1] == Message(Assistant, w.completion);
    assert [CompletionCall([SessionPrompt(s)] + h)] <= r.calls;
  }

  /** Plain chat asks the completion service once, with the system prompt in front of the history. */
  lemma RespondChat(s: ChatState, history: seq<Message>, w: World)
    ensures Respond(s, history, Commands.Chat, w)
         == Answered(w.completion, s.tasks, [CompletionCall([SessionPrompt(s)] + history)])
  {
  }

  /** A number the `/convert` pattern accepts but `float()` rejects ends the run with nothing saved. */
  lemma BadNumberRaises(s: ChatState, store: History.Store, prompt: string, w: World)
    requires w.convert.BadNumber?
    ensures var r := Dispatch(s, store, prompt, Commands.Convert, w);
            && r.raised && r.store == store
            && r.state.messages == s.messages + [Message(User, prompt)]
  {
  }

  // ---------------------------------------------------------------------
  // Sidebar actions

  /** An interaction of the logged-in user. */
  datatype Action =
    | Send(prompt: string, world: World)
    | NewChat(newId: History.SessionId, now: History.Timestamp)
    | SelectBot(selected: string, newId: History.SessionId)
    | BuildBot(name: string, prompt: string)
    | LoadChat(id: History.SessionId)
    | DeleteChat(id: History.SessionId, newId: History.SessionId)

  /** The first bot with a given name, if any (main.py:272). */
  function FindBot(bots: seq<Bot>, name: string): (r: Option<Bot>)
    ensures r.Some? ==> r.value.name == name
    ensures r.Some? ==> exists i :: 0 <= i < |bots| && bots[i] == r.value
                                    && forall j :: 0 <= j < i ==> bots[j].name != name
    ensures r.None? ==> forall i :: 0 <= i < |bots| ==> bots[i].name != name
    decreases |bots|
  {
    if |bots| == 0 then None
    else if bots[0].name == name then Some(bots[0])
    else
      var r := FindBot(bots[1..], name);
      assert r.Some? ==> exists i :: 0 <= i < |bots| && bots[i] == r.value
                                     && forall j :: 0 <= j < i ==> bots[j].name != name by {
        if r.Some? {
          var i :| 0 <= i < |bots[1..]| && bots[1..][i] == r.value
                   && forall j :: 0 <= j < i ==> bots[1..][j].name != name;
          assert bots[i + 1] == r.value;
          assert forall j :: 0 <= j < i + 1 ==> bots[j].name != name by {
            forall j | 0 <= j < i + 1
              ensures bots[j].name != name
            {
              if j > 0 {
                assert bots[j] == bots[1..][j - 1];
              }
            }
          }
        }
      }
      r
  }

  /** A fresh, empty chat for the current bot. */
  function Fresh(s: ChatState, newId: History.SessionId): ChatState {
    s.(messages := [], sessionId := newId, title := "New Chat with " + s.botName)
  }

  /**
   * One interaction. Chat inputs are `Turn`; the sidebar actions follow
   * main.py:266-279 (switching bot), 287-301 (building a bot), 308-315
   * (new chat), 337-347 (loading a chat) and 350-364 (deleting a chat).
   */
  function Step(s: ChatState, store: History.Store, a: Action): (r: TurnResult)
    ensures r.state.user == s.user && r.state.subscriber == s.subscriber
  {
    match a
    case Send(prompt, world) => Turn(s, store, prompt, world)
    case NewChat(newId, now) =>
      var saved := if |s.messages| > 0
                   then History.SaveCurrentChat(store, s.user, s.sessionId, s.title, s.messages, now)
                   else store;
      TurnResult(Fresh(s, newId).(tasks := []), saved, [], false)
    case SelectBot(selected, newId) =>
      if selected == s.botName then TurnResult(s, store, [], false)
      else
        var found := FindBot(s.bots, selected);
        var prompt := if selected == DefaultBotOption then None
                      else if found.Some? then Some(found.value.prompt)
                      else s.botPrompt;
        TurnResult(Fresh(s.(botName := selected, botPrompt := prompt), newId), store, [], false)
    case BuildBot(name, prompt) =>
      (match Persona.CreateBot(s.bots, name, prompt)
       case Created(bots) => TurnResult(s.(bots := bots), History.SaveCustomBots(store, s.user, bots), [], false)
       case _ => TurnResult(s, store, [], false))
    case LoadChat(id) =>
      if s.user in store && id in store[s.user].sessions then
        var rec := store[s.user].sessions[id];
        TurnResult(s.(messages := rec.messages, sessionId := id, title := rec.title), store, [], false)
      else
        // `all_data[user]['sessions'][id]` raises KeyError.
        TurnResult(s, store, [], true)
    case DeleteChat(id, newId) =>
      match History.DeleteChatSession(store, s.user, id)
      case Deleted(after) =>
        TurnResult(if id == s.sessionId then Fresh(s, newId) else s, after, [], false)
      case NotFound => TurnResult(s, store, [], false)
  }

  /**
   * The state and store after a sequence of interactions; a raised run
   * keeps its state. Whoever logged in stays logged in.
   */
  function Run(s: ChatState, store: History.Store, actions: seq<Action>): (r: (ChatState, History.Store))
    ensures r.0.user == s.user
    decreases |actions|
  {
    if |actions| == 0 then (s, store)
    else
      var r := Step(s, store, actions[0]);
      Run(r.state, r.store, actions[1..])
  }

  /**
   * Nothing sets the subscriber flag: after any sequence of interactions
   * from login, including `/secret` with the right code, it is still off,
   * so the system prompt is the bot's prompt or the plain persona.
   */
  lemma {:induction false} SubscriberNeverOn(s: ChatState, store: History.Store, actions: seq<Action>)
    requires !s.subscriber
    ensures !Run(s, store, actions).0.subscriber
    ensures var t := Run(s, store, actions).0;
            !Persona.HasBotPrompt(t.botPrompt) ==> SessionPrompt(t).content == Persona.BasePrompt(t.user)
    decreases |actions|
  {
    if |actions| > 0 {
      var r := Step(s, store, actions[0]);
      SubscriberNeverOn(r.state, r.store, actions[1..]);
    }
  }

  /**
   * Building a bot keeps the session's bot names distinct and saves the
   * whole list for the user.
   */
  lemma BuildBotSaves(s: ChatState, store: History.Store, name: string, prompt: string)
    requires Persona.UniqueNames(s.bots)
    ensures var r := Step(s, store, BuildBot(name, prompt));
            && Persona.UniqueNames(r.state.bots)
            && (Persona.CreateBot(s.bots, name, prompt).Created? ==>
                  History.LoadUserBots(r.store, s.user) == r.state.bots
                  && r.state.bots == s.bots + [Bot(name, prompt)])
  {
    Persona.CreateBotKeepsNamesUnique(s.bots, name, prompt);
  }

  /**
   * Switching to a bot by name installs its prompt and starts an empty
   * chat; switching to the default option removes any bot prompt.
   */
  lemma SelectBotPrompt(s: ChatState, store: History.Store, selected: string, newId: History.SessionId)
    requires selected != s.botName
    ensures var r := Step(s, store, SelectBot(selected, newId));
            && r.state.messages == [] && r.state.sessionId == newId
            && r.state.title == "New Chat with " + selected
            && (selected == DefaultBotOption ==> r.state.botPrompt == None)
            && (selected != DefaultBotOption && FindBot(s.bots, selected).Some? ==>
                  r.state.botPrompt == Some(FindBot(s.bots, selected).value.prompt))
            && r.store == store
  {
  }

  /** Loading a saved chat restores its messages and title and makes its id the current one. */
  lemma LoadChatRestores(s: ChatState, store: History.Store, id: History.SessionId)
    requires s.user in store && id in store[s.user].sessions
    ensures var r := Step(s, store, LoadChat(id));
            && !r.raised
            && r.state.messages == store[s.user].sessions[id].messages
            && r.state.title == store[s.user].sessions[id].title
            && r.state.sessionId == id
  {
  }
}
