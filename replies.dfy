/** The small pure rules of the bot (src/api.py): the text shown for a failed
    generation, the model and token budget, the default chat session of the web
    endpoint, when a Discord message is answered and how a reply is worded. */
module Replies {
  import opened Wrappers

  // ---- Error text (src/api.py:182-189) ----

  // The fixed texts are written in short pieces so that their first characters
  // stay within easy reach of the verifier.
  const UNKNOWN_ERROR_TEXT: string :=
    "An unknown error happened. " + "Please reach out to support@steamship.com "
    + "or on our discord at https://steamship.com/discord"
  const USAGE_LIMIT_TEXT: string :=
    "You have reached " + "the introductory limit of Steamship. "
    + "Visit https://steamship.com/account/plan to sign up for a plan."
  const ERROR_PREFIX: string := "An error happened " + "while creating a response: "
  const USAGE_LIMIT_MARKER: string := "usage limit"

  /** A platform error, known by its `str()` rendering. */
  datatype Error = Error(message: string)

  predicate OccursAt(needle: string, hay: string, i: nat) {
    i + |needle| <= |hay| && hay[i..i + |needle|] == needle
  }

  /** Python's `needle in hay` for strings. */
  predicate Contains(hay: string, needle: string) {
    exists i :: 0 <= i <= |hay| && OccursAt(needle, hay, i)
  }

  /** The user-facing text for a failed response. The three texts are told apart:
      the unknown-error text only for a missing error, the plan text only for an
      error that mentions the usage limit, and otherwise the error's own text
      after the fixed prefix. */
  function ResponseForException(e: Option<Error>): (r: string)
    ensures r == UNKNOWN_ERROR_TEXT <==> e.None?
    ensures r == USAGE_LIMIT_TEXT <==> e.Some? && Contains(e.value.message, USAGE_LIMIT_MARKER)
    ensures e.Some? && !Contains(e.value.message, USAGE_LIMIT_MARKER) ==>
              ERROR_PREFIX <= r && r[|ERROR_PREFIX|..] == e.value.message
  {
    match e
    case None => UNKNOWN_ERROR_TEXT
    case Some(err) =>
      if Contains(err.message, USAGE_LIMIT_MARKER) then USAGE_LIMIT_TEXT
      else
        var r := ERROR_PREFIX + err.message;
        assert r[3] == ERROR_PREFIX[3] == 'e' && UNKNOWN_ERROR_TEXT[3] == 'u';
        assert r[0] == ERROR_PREFIX[0] == 'A' && USAGE_LIMIT_TEXT[0] == 'Y';
        r
  }

  // ---- Model and token budget (src/api.py:32, src/api.py:191-197) ----

  const GPT4_MODEL: string := "gpt-4"
  const GPT35_MODEL: string := "gpt-3.5-turbo"
  /** Context windows the bot assumes, in tokens: 7800 for GPT-4 (8000 less a
      margin) and 4097 for GPT-3.5. */
  const GPT4_CONTEXT: int := 7800
  const GPT35_CONTEXT: int := 4097

  /** The model the plugin is configured with. */
  function ModelName(useGpt4: bool): (m: string)
    ensures m == GPT4_MODEL <==> useGpt4
    ensures m == GPT35_MODEL <==> !useGpt4
  {
    if useGpt4 then GPT4_MODEL else GPT35_MODEL
  }

  /** The context window the budget is computed from. */
  function ContextWindow(useGpt4: bool): int {
    if useGpt4 then GPT4_CONTEXT else GPT35_CONTEXT
  }

  /** Tokens left for the prompt once the plugin's `max_tokens` are reserved for
      the answer. */
  function MaxTokensForModel(useGpt4: bool, maxOutputTokens: int): (budget: int)
    ensures budget + maxOutputTokens == ContextWindow(useGpt4)
    ensures maxOutputTokens >= 0 ==> budget <= ContextWindow(useGpt4)
  {
    ContextWindow(useGpt4) - maxOutputTokens
  }

  /** The budget follows the same flag as the model name: the larger window is
      used exactly when the plugin runs GPT-4. */
  lemma BudgetMatchesModel(useGpt4: bool, maxOutputTokens: int)
    ensures MaxTokensForModel(useGpt4, maxOutputTokens) == GPT4_CONTEXT - maxOutputTokens
            <==> ModelName(useGpt4) == GPT4_MODEL
  {
  }

  // ---- Web endpoint session (src/api.py:111-112) ----

  const DEFAULT_SESSION: string := "default"

  /** A missing or empty session id (Python-falsy) selects the shared default
      session; any other id is used as given. The result is never empty. */
  function SessionOrDefault(chatSessionId: Option<string>): (s: string)
    ensures s != ""
    ensures chatSessionId.Some? && chatSessionId.value != "" ==> s == chatSessionId.value
    ensures chatSessionId.None? || chatSessionId.value == "" ==> s == DEFAULT_SESSION
  {
    if chatSessionId.None? || chatSessionId.value == "" then DEFAULT_SESSION
    else chatSessionId.value
  }

  // ---- Discord messages (src/api.py:43-60) ----

  /** A Discord user; users compare equal by id. */
  datatype User = User(id: int, displayName: string)

  /** The message a Discord message replies to: its id and its resolved author. */
  datatype Reference = Reference(messageId: int, resolvedAuthor: User)

  datatype Message = Message(
    id: int,
    channelId: int,
    author: User,
    content: string,
    mentions: seq<User>,
    reference: Option<Reference>)

  predicate SameUser(a: User, b: User) {
    a.id == b.id
  }

  /** `bot in message.mentions`. */
  predicate Mentions(m: Message, bot: User) {
    exists i :: 0 <= i < |m.mentions| && SameUser(m.mentions[i], bot)
  }

  predicate RepliesToBot(m: Message, bot: User) {
    m.reference.Some? && SameUser(m.reference.value.resolvedAuthor, bot)
  }

  /** The bot answers a message that mentions it or replies to it, and never one
      of its own. */
  function ShouldReply(m: Message, bot: User): (answer: bool)
    ensures answer ==> !SameUser(m.author, bot)
    ensures answer ==> Mentions(m, bot) || RepliesToBot(m, bot)
    ensures !SameUser(m.author, bot) && (Mentions(m, bot) || RepliesToBot(m, bot)) ==> answer
  {
    if SameUser(m.author, bot) then false
    else Mentions(m, bot) || RepliesToBot(m, bot)
  }

  const SAID: string := " said: "
  const REPLIED: string := " replied: "

  /** The text stored for a reply: who said what, then who replied what. */
  function ReplyText(repliedToAuthor: string, repliedToContent: string,
                     authorName: string, text: string): (s: string)
    ensures repliedToAuthor + SAID <= s
    ensures |s| == |repliedToAuthor| + |repliedToContent| + |authorName| + |text| + 18
    ensures s[|s| - |text|..] == text
  {
    repliedToAuthor + SAID + repliedToContent + "\n" + authorName + REPLIED + text
  }

  /** The text the bot stores and answers for message `m`; for a reply, `fetched`
      is the replied-to message as the channel returns it. Any reply is
      reworded, whether or not it replies to the bot. */
  function PromptText(m: Message, fetched: Message): string {
    if m.reference.Some? then
      ReplyText(fetched.author.displayName, fetched.content, m.author.displayName, m.content)
    else m.content
  }
}
