/**
 * The assistant's voice: the time-of-day greeting (`get_greeting`,
 * main.py:104-115), the system prompt (`get_system_prompt`,
 * main.py:140-151), the post-processing of a generated chat title
 * (`generate_chat_title`, main.py:155-180) and the custom-bot builder
 * (main.py:283-301).
 */
module Persona {

  import opened Common
  import opened Text

  // ---------------------------------------------------------------------
  // Greeting

  /** The bucket `get_greeting` puts an hour in; `Other` is its `else` branch. */
  datatype DayPart = Morning | Afternoon | Evening | Night | Other

  function DayPartOf(hour: int): (p: DayPart)
    ensures p == Morning <==> 5 <= hour < 12
    ensures p == Afternoon <==> 12 <= hour < 17
    ensures p == Evening <==> 17 <= hour < 21
    ensures p == Night <==> 21 <= hour <= 23 || 0 <= hour < 5
  {
    if 5 <= hour < 12 then Morning
    else if 12 <= hour < 17 then Afternoon
    else if 17 <= hour < 21 then Evening
    else if (21 <= hour <= 23) || (0 <= hour < 5) then Night
    else Other
  }

  function Salutation(p: DayPart): string {
    match p
    case Morning => "Good Morning ☀️"
    case Afternoon => "Good Afternoon 🌤️"
    case Evening => "Good Evening 🌆"
    case Night => "Good Night 🌙"
    case Other => "Hello 👋"
  }

  /**
   * The hour of the clock in India (UTC+5:30) for a UTC time of day: the
   * UTC hour plus five, or plus six from the half hour on, wrapping at
   * midnight.
   */
  function IstHour(utcHour: int, utcMinute: int): (h: int)
    requires 0 <= utcHour < 24 && 0 <= utcMinute < 60
    ensures 0 <= h < 24
    ensures utcMinute < 30 ==> h == (utcHour + 5) % 24
    ensures utcMinute >= 30 ==> h == (utcHour + 6) % 24
  {
    ((utcHour * 60 + utcMinute + 330) / 60) % 24
  }

  /** `get_greeting`, for the hour of the Indian clock. */
  function Greeting(name: string, hour: int): (g: string)
    ensures StartsWith(g, Salutation(DayPartOf(hour)))
  {
    Salutation(DayPartOf(hour)) + " **" + name + "**! Welcome to AmritAI."
  }

  /**
   * The four buckets cover exactly the hours of a day, so the "Hello"
   * fallback is reached only by an hour outside 0..23.
   */
  lemma DayPartCoversDay(hour: int)
    ensures DayPartOf(hour) != Other <==> 0 <= hour < 24
  {
  }

  /** The greeting shown for any real time of day is never the fallback. */
  lemma GreetingNeverFallsBack(utcHour: int, utcMinute: int)
    requires 0 <= utcHour < 24 && 0 <= utcMinute < 60
    ensures DayPartOf(IstHour(utcHour, utcMinute)) != Other
  {
    DayPartCoversDay(IstHour(utcHour, utcMinute));
  }

  // ---------------------------------------------------------------------
  // System prompt

  const SubscriberSuffix := " MODE: Subscriber (Energetic, Slang, YouTuber style)."

  /** The default persona's instruction for a user. */
  function BasePrompt(user: string): string {
    var who := if user != "" then user else "User";
    "You are AmritAI. User: " + who + ". Tone: Hinglish, Witty, Helpful. Built by Pro Python Developer."
  }

  /** Whether a custom bot's prompt is in force (Python truthiness: present and non-empty). */
  predicate HasBotPrompt(botPrompt: Option<string>) {
    botPrompt.Some? && botPrompt.value != ""
  }

  /**
   * `get_system_prompt`: an active bot's prompt replaces the persona
   * entirely; otherwise the base persona is used, with the subscriber
   * suffix appended when the flag is set.
   */
  function SystemPrompt(user: string, botPrompt: Option<string>, subscriber: bool): (m: Message)
    ensures m.role == System
    ensures HasBotPrompt(botPrompt) ==> m.content == botPrompt.value
    ensures !HasBotPrompt(botPrompt) ==> StartsWith(m.content, BasePrompt(user))
    ensures !HasBotPrompt(botPrompt) && !subscriber ==> m.content == BasePrompt(user)
  {
    if HasBotPrompt(botPrompt) then Message(System, botPrompt.value)
    else if subscriber then Message(System, BasePrompt(user) + SubscriberSuffix)
    else Message(System, BasePrompt(user))
  }

  /**
   * The subscriber flag matters only without a bot: under a bot both
   * settings give the same prompt, and without one they differ, the
   * subscriber prompt extending the plain one.
   */
  lemma SubscriberOnlyWithoutBot(user: string, botPrompt: Option<string>)
    ensures HasBotPrompt(botPrompt) ==> SystemPrompt(user, botPrompt, true) == SystemPrompt(user, botPrompt, false)
    ensures !HasBotPrompt(botPrompt) ==>
              SystemPrompt(user, botPrompt, true).content == SystemPrompt(user, botPrompt, false).content + SubscriberSuffix
              && SystemPrompt(user, botPrompt, true) != SystemPrompt(user, botPrompt, false)
  {
    if !HasBotPrompt(botPrompt) {
      var base := BasePrompt(user);
      assert |base + SubscriberSuffix| > |base|;
    }
  }

  // ---------------------------------------------------------------------
  // Chat titles

  /**
   * The outcome of the title request: no API key, a failed request (a
   * status other than 200, or any exception), or the returned text.
   */
  datatype TitleReply = NoKey | NoTitle | Titled(text: string)

  /** Strip, drop quote characters and `**`, keep the first line. */
  function CleanTitle(raw: string): string {
    FirstLine(Remove(Remove(Remove(Strip(raw), "\""), "'"), "**"))
  }

  /** Titles the source rejects as too short or placeholders. */
  predicate IsPlaceholder(t: string) {
    |t| < 3 || Lower(t) in ["new chat", "untitled chat", ""]
  }

  /**
   * `generate_chat_title` with the request's outcome and the clock's
   * `HH:MM:SS` text as inputs. A rejected title falls back to the first
   * word of the first message; when that message has no word, the
   * `IndexError` lands in the `except` and the clock fallback is used.
   * The returned-text cases are stated by `AcceptedTitleIsPrefix` and
   * `RejectedTitleIsFallback`.
   */
  function GenerateChatTitle(messages: seq<Message>, reply: TitleReply, clock: string): (title: string)
    ensures |messages| < 2 ==> title == "New Chat"
    ensures |messages| >= 2 && reply.NoKey? ==> title == MissingKeyTitle
    ensures |messages| >= 2 && reply.NoTitle? ==> title == "Chat-" + clock
  {
    if |messages| < 2 then "New Chat"
    else match reply
      case NoKey => MissingKeyTitle
      case NoTitle => "Chat-" + clock
      case Titled(raw) =>
        var t := CleanTitle(raw);
        if IsPlaceholder(t) then FallbackTitle(messages[0].content, clock)
        else t[..if |t| < 30 then |t| else 30]
  }

  /** The title given when no API key is configured; it does not start with "New Chat". */
  const MissingKeyTitle := "Error: GROQ_KEY Missing"

  /**
   * The title used when the returned one is rejected: "Chat on " and the
   * first word of the opening message with its slashes removed, or, when
   * that message has no word, the clock fallback.
   */
  function FallbackTitle(opening: string, clock: string): (title: string)
    ensures FirstWord(opening).None? ==> title == "Chat-" + clock
    ensures FirstWord(opening).Some? ==>
              StartsWith(title, "Chat on ") && title[8..] == Remove(FirstWord(opening).value, "/")
              && '/' !in title[8..]
  {
    match FirstWord(opening)
    case None => "Chat-" + clock
    case Some(w) =>
      RemoveCharGone(w, '/');
      var r := "Chat on " + Remove(w, "/");
      assert r[..8] == "Chat on ";
      r
  }

  lemma {:induction false} RemoveKeeps(s: string, pat: string, c: char)
    requires |pat| > 0
    ensures c in Remove(s, pat) ==> c in s
    decreases |s|
  {
    if |s| > 0 {
      if StartsWith(s, pat) {
        RemoveKeeps(s[|pat|..], pat, c);
      } else {
        RemoveKeeps(s[1..], pat, c);
      }
    }
  }

  /** Text with none of the characters the title filter removes, and no `**`. */
  predicate CleanText(t: string) {
    '"' !in t && '\'' !in t && '\n' !in t && NoDoubleStar(t)
  }

  /** The three removals leave no quote character and no `**`. */
  lemma RemovalsClean(s0: string)
    ensures var s3 := Remove(Remove(Remove(s0, "\""), "'"), "**");
            '"' !in s3 && '\'' !in s3 && NoDoubleStar(s3)
  {
    var s1 := Remove(s0, "\"");
    var s2 := Remove(s1, "'");
    RemoveCharGone(s0, '"');
    RemoveCharGone(s1, '\'');
    RemoveKeeps(s1, "'", '"');
    RemoveKeeps(s2, "**", '"');
    RemoveKeeps(s2, "**", '\'');
    RemoveDoubleStarGone(s2);
  }

  /** The cleaning steps leave no quote character, no `**` and no line break. */
  lemma CleanTitleIsClean(raw: string)
    ensures CleanText(CleanTitle(raw))
  {
    var s3 := Remove(Remove(Remove(Strip(raw), "\""), "'"), "**");
    RemovalsClean(Strip(raw));
    var line := FirstLine(s3);
    assert line == CleanTitle(raw);
    assert forall i :: 0 <= i < |line| ==> line[i] == s3[i];
  }

  /** A prefix of clean text is clean. */
  lemma PrefixStaysClean(s: string, p: string)
    requires StartsWith(s, p)
    requires CleanText(s)
    ensures CleanText(p)
  {
    assert forall i :: 0 <= i < |p| ==> p[i] == s[i];
  }

  /** An accepted title is the cleaned reply cut to at most 30 characters. */
  lemma AcceptedTitleIsPrefix(messages: seq<Message>, raw: string, clock: string)
    requires |messages| >= 2
    requires !IsPlaceholder(CleanTitle(raw))
    ensures var t := CleanTitle(raw);
            var title := GenerateChatTitle(messages, Titled(raw), clock);
            StartsWith(t, title) && |title| == (if |t| < 30 then |t| else 30)
  {
  }

  /** A rejected title is replaced by the fallback built from the opening message. */
  lemma RejectedTitleIsFallback(messages: seq<Message>, raw: string, clock: string)
    requires |messages| >= 2
    requires IsPlaceholder(CleanTitle(raw))
    ensures GenerateChatTitle(messages, Titled(raw), clock) == FallbackTitle(messages[0].content, clock)
  {
  }

  /**
   * A generated title that is accepted is 3 to 30 characters of the
   * cleaned reply's first line, with no quote characters, no `**` and no
   * line break left in it.
   */
  lemma AcceptedTitleShape(messages: seq<Message>, raw: string, clock: string)
    requires |messages| >= 2
    requires !IsPlaceholder(CleanTitle(raw))
    ensures var title := GenerateChatTitle(messages, Titled(raw), clock);
            && 3 <= |title| <= 30
            && StartsWith(CleanTitle(raw), title)
            && CleanText(title)
  {
    var t := CleanTitle(raw);
    var title := GenerateChatTitle(messages, Titled(raw), clock);
    AcceptedTitleIsPrefix(messages, raw, clock);
    CleanTitleIsClean(raw);
    PrefixStaysClean(t, title);
  }

  /** A rejected title falls back to the first word of the opening message, slashes removed. */
  lemma RejectedTitleFallsBack(messages: seq<Message>, raw: string, clock: string)
    requires |messages| >= 2
    requires IsPlaceholder(CleanTitle(raw))
    ensures var title := GenerateChatTitle(messages, Titled(raw), clock);
            var fw := FirstWord(messages[0].content);
            && (fw.Some? ==> StartsWith(title, "Chat on ") && title[8..] == Remove(fw.value, "/") && '/' !in title[8..])
            && (fw.None? ==> title == "Chat-" + clock)
  {
    RejectedTitleIsFallback(messages, raw, clock);
  }

  // ---------------------------------------------------------------------
  // Custom bots

  /** The names of a list of bots, in order. */
  function BotNames(bots: seq<Bot>): (names: seq<string>)
    ensures |names| == |bots|
    ensures forall i :: 0 <= i < |bots| ==> names[i] == bots[i].name
  {
    seq(|bots|, i requires 0 <= i < |bots| => bots[i].name)
  }

  /** No two bots share a name. */
  predicate UniqueNames(bots: seq<Bot>) {
    forall i, j :: 0 <= i < j < |bots| ==> bots[i].name != bots[j].name
  }

  /** The outcome of the bot builder form. */
  datatype BotCreation = Created(bots: seq<Bot>) | DuplicateName | Incomplete

  /**
   * Submitting the bot builder: both fields must be filled in, and a name
   * already in use is refused; otherwise the bot is appended.
   */
  function CreateBot(bots: seq<Bot>, name: string, prompt: string): (r: BotCreation)
    ensures r.Incomplete? <==> name == "" || prompt == ""
    ensures r.DuplicateName? <==> name != "" && prompt != "" && name in BotNames(bots)
    ensures r.Created? ==> r.bots == bots + [Bot(name, prompt)]
  {
    if name != "" && prompt != "" then
      if name in BotNames(bots) then DuplicateName else Created(bots + [Bot(name, prompt)])
    else
      Incomplete
  }

  /** The builder never introduces a second bot of the same name. */
  lemma CreateBotKeepsNamesUnique(bots: seq<Bot>, name: string, prompt: string)
    requires UniqueNames(bots)
    ensures CreateBot(bots, name, prompt).Created? ==> UniqueNames(CreateBot(bots, name, prompt).bots)
  {
    var r := CreateBot(bots, name, prompt);
    if r.Created? {
      var b := r.bots;
      forall i, j | 0 <= i < j < |b|
        ensures b[i].name != b[j].name
      {
        if j == |bots| {
          assert BotNames(bots)[i] == bots[i].name;
        }
      }
    }
  }
}
