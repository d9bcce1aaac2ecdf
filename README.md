# discord-buddy conversation records, in Dafny

This project models the core of the Discord Buddy package (`src/api.py`): a
Discord bot and a web endpoint that keep every chat session as a file on the
hosting platform (Steamship). A file is an append-only list of text blocks, and
each block carries tags. The bot:

- seeds a new chat record with one system block holding the persona prompt;
- drops a message whose id is already stored (deduplication by a `message_id` tag);
- otherwise appends one user block tagged with the message id;
- computes the token budget left for the prompt;
- has the language-model plugin generate an answer, which is appended to the record;
- turns platform errors into fixed user-facing texts.

Modules:

- `Wrappers` (wrappers.dfy): `Option` and `Result`.
- `Records` (records.dfy): tags and blocks, and Python's `str()` of a message or
  chat id, proved injective on integers. Also the dedup predicate `HasMessage`,
  the user block and the seed record.
- `Replies` (replies.dfy): the pure rules. These are the error texts, the model
  name and token budget, the default web session, when a Discord message is
  answered, and how a reply is worded.
- `Conversation` (conversation.dfy): `PrepareResponseSpec` gives the stored
  records, the plugin cache and the answer after one `prepare_response` call,
  as a function of the state before it. Its lemmas cover duplicates (no-op),
  first deliveries (exactly one block appended), append-only records,
  redelivery (no-op), and the persona block staying first.
- `Buddy` (buddy.dfy): the classes. `Workspace` is the platform's file storage:
  a `map` from file handle to blocks, changed in place. `DiscordBuddy` holds the
  lazily cached plugin (`gpt4`). Its methods follow the source step by step.
  `PrepareResponse` is proved equal to `PrepareResponseSpec`, and `Answer` and
  `OnMessage` are stated through it. The other methods are tied to their own
  functions: `GetGpt4` to `CachedPlugin`, `MaxTokensForModel` to
  `Replies.MaxTokensForModel`, `IncludesMessage` to `HasMessage`,
  `CreateNewFileForChat` to `SeedRecord`, and `GetFileForChat` to `RecordFor`.

The platform calls are parameters, collected in `Conversation.Backend`:
`use_plugin`, `filter_blocks_for_prompt_length` (from `util`, which is not part
of this model) and `generate` + `wait`. Discord's `fetch_message` is a parameter
of `OnMessage`. The fresh uuid of the web endpoint is a parameter of `Answer`.
The model fixes what these calls are given and what is done with their results.
It does not say what they compute: the history trimming in particular is left
unspecified.

Where the code and its comments disagree, the code is followed. The GPT-3.5
budget uses 4097 (src/api.py:197), although the comment on the line above it
says 4000. The history trimming (`filter_blocks_for_prompt_length`) lives in
`util`, which is not part of this model.

## Model

| member | source | states |
|---|---|---|
| `Records.NatToString` | src/api.py:156 | `str(n)` of a non-negative id is non-empty, all decimal digits, one digit exactly when n < 10, and ends with the digit n % 10 |
| `Records.IntToString` | src/api.py:136 | `str(n)` of an integer id is non-empty and starts with `-` exactly when n is negative |
| `Records.NatToStringInjective` | src/api.py:156 | two non-negative ids with the same decimal text are equal |
| `Records.IntToStringInjective` | src/api.py:136 | two integer ids with the same `str()` text are equal |
| `Records.DistinctIntIdsDistinctKeys` | src/api.py:155-156 | two different Discord message ids never produce the same `message_id` tag name, so one message is never taken for a duplicate of another |
| `Records.UserBlock` | src/api.py:134-137 | the stored block has the message text and a `message_id` tag for the message's id, and for no other id |
| `Records.SeedRecord` | src/api.py:169-180 | a new record has exactly one block: the text "Your name is {name}. Your personality is {personality}." with a single SYSTEM role tag; it holds no message id |
| `Records.AppendUserBlockRecords` | src/api.py:134-137 | after appending a message's block, the record holds exactly the ids it held before plus that message's id |
| `Replies.ResponseForException` | src/api.py:182-189 | the unknown-error text exactly when there is no error; the plan-upgrade text exactly when the error's text contains "usage limit"; otherwise the fixed prefix followed by the error's text |
| `Replies.ModelName` | src/api.py:32 | the model is "gpt-4" exactly when `use_gpt4` is set, otherwise "gpt-3.5-turbo" |
| `Replies.MaxTokensForModel` | src/api.py:191-197 | budget plus the plugin's `max_tokens` is the context window (7800 for GPT-4, 4097 otherwise); a non-negative reservation never raises the budget above the window |
| `Replies.BudgetMatchesModel` | src/api.py:191-197 | the GPT-4 window is used exactly when the model name is "gpt-4" |
| `Replies.SessionOrDefault` | src/api.py:111-112 | a missing or empty session id becomes "default", any other is kept; the session is never empty |
| `Replies.ShouldReply` | src/api.py:45-52 | a message is answered exactly when its author is not the bot and it mentions the bot or replies to a message of the bot |
| `Replies.ReplyText` | src/api.py:57-60 | the stored reply text starts with "{replied-to author} said: ", ends with the new message's text, and is 18 characters longer than its four parts |
| `Conversation.DuplicateIsNoOp` | src/api.py:129-132 | if the chat's record already holds the message id, the call returns `None` and the records and plugin cache are unchanged (no record is created) |
| `Conversation.FirstDeliveryAppendsOneBlock` | src/api.py:134-150 | otherwise the record keeps all earlier blocks, gains the user block tagged with the message id, then the generated block whose text is returned, if generation succeeded |
| `Conversation.PrepareResponseAppendOnly` | src/api.py:127-150 | the call only adds the chat's handle to the stored records, extends that record at its end, and leaves every other record as it was |
| `Conversation.DeliveredIsRecorded` | src/api.py:131-137 | after the call the chat's record holds the message id, whether or not generation failed |
| `Conversation.RedeliveryIsNoOp` | src/api.py:131-137 | delivering the same message id a second time, with any text, returns `None` and changes nothing |
| `Conversation.PrepareResponseKeepsPersonaFirst` | src/api.py:169-180 | if every record begins with the persona block, every record still does after the call |
| `Buddy.DiscordBuddy.constructor` | src/api.py:30-33 | the model name follows `use_gpt4` and no plugin is cached yet |
| `Buddy.DiscordBuddy.GetGpt4` | src/api.py:96-101 | the first call requests plugin "gpt-4" with the model name and temperature 0.8, then caches it; each later call returns the cached plugin |
| `Buddy.DiscordBuddy.MaxTokensForModel` | src/api.py:191-197 | returns the context window less the cached plugin's `max_tokens`, creating the plugin if needed |
| `Buddy.DiscordBuddy.IncludesMessage` | src/api.py:152-158 | the nested scan finds the id exactly when some block has a `message_id` tag named `str(message_id)`; false on a record with no blocks |
| `Buddy.DiscordBuddy.CreateNewFileForChat` | src/api.py:169-180 | stores the seed record under the handle and leaves every other file unchanged |
| `Buddy.DiscordBuddy.GetFileForChat` | src/api.py:160-167 | the handle is `str(chat_id)`; an existing record is kept as it is, a missing one is created seeded |
| `Buddy.DiscordBuddy.PrepareResponse` | src/api.py:127-150 | the new files, cache and result are those of `PrepareResponseSpec`, so the lemmas above hold of the method |
| `Buddy.DiscordBuddy.Answer` | src/api.py:108-125 | prepares a response in the given or default session under the fresh id; a platform error becomes its error text; sources are empty and the answer is marked plausible |
| `Buddy.DiscordBuddy.OnMessage` | src/api.py:43-69 | a message that is not to be answered changes nothing and sends nothing; otherwise the stored text is the reply wording for any reply, and the call's answer (`None` for a duplicate) or its error text is sent |

## Left out

- Discord client setup, the event listeners, `on_ready`, `start_bot`, the
  asyncio loop and the thread pool of `start`/`stop` (src/api.py:34-41,
  src/api.py:71-94): network I/O and concurrency.
- `config_cls` (src/api.py:103-106): it only names the configuration class.
- `filter_blocks_for_prompt_length` (`util`, which is not part of this model): it
  is an unspecified parameter. The model fixes only its inputs (the budget and
  the record) and passes its result on to generation.
- What the platform's `use_plugin`, `generate` and `fetch_message` compute: they
  are parameters. Generation is modelled as producing one output block (appended
  to the record, its text returned) or raising a platform error. An output with
  no blocks, or with several, is not modelled.
- Platform errors from file lookup, creation, appending, `refresh` and
  `use_plugin` are not modelled; only generation can fail. The bare `except:`
  around `File.get` is modelled as "the stored record if there is one,
  otherwise a new seeded record".
- `refresh` (src/api.py:138) is a no-op: the in-memory record is the stored one.
- The uuid of the web endpoint (src/api.py:114) is a parameter, not generated.
- Discord's handling of `send(None)` for a duplicate message is outside the
  model: `OnMessage` records the send with no content.
- `OnMessage`: fetching the replied-to message (src/api.py:58) is assumed to
  succeed. When `fetch_message` raises (a deleted message, a missing
  permission), `on_message` ends with nothing stored and nothing sent; the
  model does not cover that path.
- A reply whose referenced message is not resolved (where `resolved` has no
  `author`) is not modelled: a reference always carries its resolved author.
- Storage-SDK tag constants (`TagKind.ROLE`, `RoleTag.USER`, `RoleTag.SYSTEM`)
  take the values "role", "user" and "system"; the SDK is not part of this model.
