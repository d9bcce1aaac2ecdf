/** The bot service (src/api.py:24-197): a Discord bot and a web endpoint that
    store every chat in a file of the hosting platform and answer with a
    language-model plugin. */
module Buddy {
  import opened Wrappers
  import opened Records
  import opened Replies
  import opened Conversation

  /** The platform's file storage: each chat record under its handle. Creating a
      file and appending a block change it in place. */
  class Workspace {
    var files: map<string, seq<Block>>

    constructor ()
      ensures files == map[]
    {
      files := map[];
    }

    /** `File.create(handle=…, blocks=…)`. */
    method CreateFile(handle: string, blocks: seq<Block>)
      modifies this
      ensures files == old(files)[handle := blocks]
    {
      files := files[handle := blocks];
    }

    /** `file.append_block(text=…, tags=…)`. */
    method AppendBlock(handle: string, block: Block)
      requires handle in files
      modifies this
      ensures files == old(files)[handle := old(files[handle]) + [block]]
    {
      files := files[handle := files[handle] + [block]];
    }
  }

  /** What the web endpoint returns (src/api.py:121-125). */
  datatype AnswerBody = AnswerBody(answer: Option<string>, sources: seq<string>, isPlausible: bool)

  /** What the Discord handler does with a message: nothing, or send a text to
      its channel (`None` when the message had already been stored). */
  datatype Action = NoReply | Send(content: Option<string>)

  /** The text a caught platform error is turned into, or the call's own answer. */
  function AnswerText(r: Result<Option<string>, Error>): Option<string> {
    if r.Success? then r.value else Some(ResponseForException(Some(r.error)))
  }

  class DiscordBuddy {
    const config: Config
    const model: string
    /** `self.bot.user`: the bot's own Discord account. */
    const botUser: User
    /** `self.client`: the platform's storage. */
    const client: Workspace
    const backend: Backend
    /** The lazily created plugin (`self.gpt4`). */
    var gpt4: Option<Plugin>

    /** src/api.py:30-33: the model follows `use_gpt4`; no plugin yet. */
    constructor (config: Config, botUser: User, client: Workspace, backend: Backend)
      ensures this.config == config && this.botUser == botUser
      ensures this.client == client && this.backend == backend
      ensures model == ModelName(config.useGpt4)
      ensures model == GPT4_MODEL <==> config.useGpt4
      ensures gpt4 == None
      ensures Valid()
    {
      this.config := config;
      this.model := if config.useGpt4 then GPT4_MODEL else GPT35_MODEL;
      this.botUser := botUser;
      this.client := client;
      this.backend := backend;
      this.gpt4 := None;
    }

    ghost predicate Valid()
      reads this
    {
      model == ModelName(config.useGpt4)
    }

    /** src/api.py:96-101: the first call creates the plugin and caches it; every
        later call returns the cached one and changes nothing. */
    method GetGpt4() returns (p: Plugin)
      requires Valid()
      modifies this`gpt4
      ensures gpt4 == Some(p)
      ensures old(gpt4).Some? ==> p == old(gpt4).value
      ensures old(gpt4).None? ==> p == backend.usePlugin(PluginRequest(PLUGIN_HANDLE, ModelName(config.useGpt4), TEMPERATURE))
      ensures p == CachedPlugin(old(gpt4), config, backend)
    {
      if gpt4.Some? {
        return gpt4.value;
      }
      p := backend.usePlugin(PluginRequest(PLUGIN_HANDLE, model, TEMPERATURE));
      gpt4 := Some(p);
    }

    /** src/api.py:191-197: the prompt budget is the model's context window less
        the plugin's `max_tokens`. */
    method MaxTokensForModel() returns (n: int)
      requires Valid()
      modifies this`gpt4
      ensures gpt4 == Some(CachedPlugin(old(gpt4), config, backend))
      ensures n == Replies.MaxTokensForModel(config.useGpt4, gpt4.value.maxTokens)
    {
      var p := GetGpt4();
      if config.useGpt4 {
        n := 7800 - p.maxTokens;
      } else {
        n := 4097 - p.maxTokens;
      }
    }

    /** src/api.py:152-158: scan the blocks and their tags for the message's id. */
    method IncludesMessage(blocks: seq<Block>, messageId: Id) returns (found: bool)
      ensures found <==> HasMessage(blocks, Str(messageId))
    {
      var key := Str(messageId);
      var i := 0;
      while i < |blocks|
        invariant 0 <= i <= |blocks|
        invariant forall k :: 0 <= k < i ==> !BlockHasMessage(blocks[k], key)
      {
        var tags := blocks[i].tags;
        var j := 0;
        while j < |tags|
          invariant 0 <= j <= |tags|
          invariant forall k :: 0 <= k < j ==> !IsMessageTag(tags[k], key)
        {
          if tags[j].kind == MESSAGE_ID_KIND && tags[j].name == key {
            assert BlockHasMessage(blocks[i], key);
            return true;
          }
          j := j + 1;
        }
        i := i + 1;
      }
      return false;
    }

    /** src/api.py:169-180: a new record holds only the persona block. */
    method CreateNewFileForChat(handle: string)
      modifies client
      ensures client.files == old(client.files)[handle := SeedRecord(config.botName, config.botPersonality)]
    {
      var prompt := "Your name is " + config.botName + ". Your personality is " + config.botPersonality + ".";
      client.CreateFile(handle, [Block(prompt, [Tag(ROLE_KIND, ROLE_SYSTEM)])]);
    }

    /** src/api.py:160-167: the chat's stored record, or a new seeded one. */
    method GetFileForChat(chatId: Id) returns (handle: string)
      modifies client
      ensures handle == Str(chatId) && handle in client.files
      ensures client.files == old(client.files)[handle := RecordFor(old(client.files), handle, config)]
    {
      handle := Str(chatId);
      if handle !in client.files {
        CreateNewFileForChat(handle);
      }
    }

    /** src/api.py:127-150: store the message unless already stored, then append
        and return the generated answer. The resulting records, cache and answer
        are those of `PrepareResponseSpec`. */
    method PrepareResponse(text: string, chatId: Id, messageId: Id) returns (r: Result<Option<string>, Error>)
      requires Valid()
      modifies this`gpt4, client
      ensures Prepared(client.files, gpt4, r)
              == PrepareResponseSpec(config, backend, old(client.files), old(gpt4), text, chatId, messageId)
    {
      ghost var files0, cache0 := client.files, gpt4;
      ghost var record := RecordFor(files0, Str(chatId), config);
      var handle := GetFileForChat(chatId);
      assert client.files == files0[handle := record];
      var duplicate := IncludesMessage(client.files[handle], messageId);
      if duplicate {
        return Success(None);
      }
      ghost var input := record + [UserBlock(text, messageId)];
      client.AppendBlock(handle, Block(text, [Tag(ROLE_KIND, ROLE_USER), Tag(MESSAGE_ID_KIND, Str(messageId))]));
      assert client.files == files0[handle := input];
      var maxTokens := MaxTokensForModel();
      var retained := backend.filterBlocks(maxTokens, client.files[handle]);
      var plugin := GetGpt4();
      assert plugin == CachedPlugin(cache0, config, backend);
      assert maxTokens == Replies.MaxTokensForModel(config.useGpt4, plugin.maxTokens);
      var generation := backend.generate(plugin, client.files[handle], retained);
      assert generation == backend.generate(plugin, input, backend.filterBlocks(maxTokens, input));
      match generation {
        case Generated(out) =>
          client.AppendBlock(handle, out);
          assert client.files == files0[handle := input + [out]];
          r := Success(Some(out.text));
        case GenerationFailed(e) =>
          r := Failure(e);
      }
    }

    /** src/api.py:108-125: the web endpoint answers in the given session, or the
        default one, under a fresh message id; a platform error becomes its text. */
    method Answer(question: string, chatSessionId: Option<string>, freshId: string) returns (body: AnswerBody)
      requires Valid()
      modifies this`gpt4, client
      ensures var p := PrepareResponseSpec(config, backend, old(client.files), old(gpt4), question,
                                           StrId(SessionOrDefault(chatSessionId)), StrId(freshId));
              && client.files == p.files && gpt4 == p.gpt4
              && body == AnswerBody(AnswerText(p.response), [], true)
    {
      var sessionId := if chatSessionId.None? || chatSessionId.value == "" then "default" else chatSessionId.value;
      var r := PrepareResponse(question, StrId(sessionId), StrId(freshId));
      var response := if r.Success? then r.value else Some(ResponseForException(Some(r.error)));
      body := AnswerBody(response, [], true);
    }

    /** src/api.py:43-69: answer a message that mentions the bot or replies to it,
        never one of the bot's own; a reply is stored together with the message
        it replies to, fetched by `fetch`. */
    method OnMessage(m: Message, fetch: int -> Message) returns (action: Action)
      requires Valid()
      modifies this`gpt4, client
      ensures !ShouldReply(m, botUser) ==>
                action == NoReply && client.files == old(client.files) && gpt4 == old(gpt4)
      ensures ShouldReply(m, botUser) ==>
                var fetched := if m.reference.Some? then fetch(m.reference.value.messageId) else m;
                var p := PrepareResponseSpec(config, backend, old(client.files), old(gpt4),
                                             PromptText(m, fetched), IntId(m.channelId), IntId(m.id));
                && client.files == p.files && gpt4 == p.gpt4
                && action == Send(AnswerText(p.response))
    {
      if m.author.id == botUser.id {
        return NoReply;
      }
      var mentioned := exists i :: 0 <= i < |m.mentions| && m.mentions[i].id == botUser.id;
      var isReply := m.reference.Some?;
      var isReplyToBot := isReply && m.reference.value.resolvedAuthor.id == botUser.id;
      if !(mentioned || isReplyToBot) {
        return NoReply;
      }
      var messageText := m.content;
      if isReply {
        var replied := fetch(m.reference.value.messageId);
        messageText := replied.author.displayName + " said: " + replied.content + "\n"
                       + m.author.displayName + " replied: " + messageText;
      }
      var r := PrepareResponse(messageText, IntId(m.channelId), IntId(m.id));
      var response := if r.Success? then r.value else Some(ResponseForException(Some(r.error)));
      action := Send(response);
    }
  }
}
