/** What `prepare_response` (src/api.py:127-150) does to the stored chat records,
    as a function of the records before the call. The platform calls it makes
    (creating the language-model plugin, trimming the history to the token
    budget, generating) are parameters: the model fixes what they are given and
    what is done with their results, not what they compute. */
module Conversation {
  import opened Wrappers
  import opened Records
  import opened Replies

  /** The configured bot (src/api.py:16-22). */
  datatype Config = Config(botName: string, botPersonality: string, botToken: string, useGpt4: bool)

  /** A handle on the language-model plugin instance, with the `max_tokens` of its
      configuration. */
  datatype Plugin = Plugin(instanceId: string, maxTokens: int)

  /** The arguments of `use_plugin`: plugin handle, model name and temperature. */
  datatype PluginRequest = PluginRequest(handle: string, model: string, temperature: real)

  /** The result of a generation task: the block appended to the chat record and
      returned as the answer, or the platform error it raised. */
  datatype Generation = Generated(output: Block) | GenerationFailed(error: Error)

  /** The platform steps the bot relies on without seeing their insides:
      `use_plugin`, `filter_blocks_for_prompt_length` (which picks the indices of
      the blocks to send, given the token budget) and `generate` + `wait`. */
  datatype Backend = Backend(
    usePlugin: PluginRequest -> Plugin,
    filterBlocks: (int, seq<Block>) -> seq<int>,
    generate: (Plugin, seq<Block>, seq<int>) -> Generation)

  /** Stored records after a call, the plugin cache, and what the call returned
      (`None` for a message already stored) or raised. */
  datatype Prepared = Prepared(
    files: map<string, seq<Block>>,
    gpt4: Option<Plugin>,
    response: Result<Option<string>, Error>)

  /** The plugin is always requested under the handle "gpt-4"; the model in its
      configuration follows `use_gpt4` (src/api.py:32, src/api.py:100). */
  const PLUGIN_HANDLE: string := "gpt-4"
  const TEMPERATURE: real := 0.8

  function PluginRequestFor(cfg: Config): PluginRequest {
    PluginRequest(PLUGIN_HANDLE, ModelName(cfg.useGpt4), TEMPERATURE)
  }

  /** The plugin `get_gpt4` hands out: the cached one, or a new one. */
  function CachedPlugin(gpt4: Option<Plugin>, cfg: Config, backend: Backend): Plugin {
    if gpt4.Some? then gpt4.value else backend.usePlugin(PluginRequestFor(cfg))
  }

  function SeedFor(cfg: Config): seq<Block> {
    SeedRecord(cfg.botName, cfg.botPersonality)
  }

  /** The record `get_file_for_chat` yields: the stored one, or a newly seeded one. */
  function RecordFor(files: map<string, seq<Block>>, handle: string, cfg: Config): seq<Block> {
    if handle in files then files[handle] else SeedFor(cfg)
  }

  /** `prepare_response(text, chat_id, message_id)` on the stored records `files`
      with plugin cache `gpt4`. */
  function PrepareResponseSpec(cfg: Config, backend: Backend, files: map<string, seq<Block>>,
                               gpt4: Option<Plugin>, text: string, chatId: Id, messageId: Id): Prepared
  {
    var handle := Str(chatId);
    var record := RecordFor(files, handle, cfg);
    if HasMessage(record, Str(messageId)) then
      Prepared(files[handle := record], gpt4, Success(None))
    else
      var input := record + [UserBlock(text, messageId)];
      var plugin := CachedPlugin(gpt4, cfg, backend);
      var retained := backend.filterBlocks(MaxTokensForModel(cfg.useGpt4, plugin.maxTokens), input);
      match backend.generate(plugin, input, retained)
      case Generated(out) => Prepared(files[handle := input + [out]], Some(plugin), Success(Some(out.text)))
      case GenerationFailed(e) => Prepared(files[handle := input], Some(plugin), Failure(e))
  }

  /** A message whose id the chat record already holds is answered with `None`
      and changes nothing: no record is created or extended and no plugin is
      requested (src/api.py:131-132). */
  lemma DuplicateIsNoOp(cfg: Config, backend: Backend, files: map<string, seq<Block>>,
                        gpt4: Option<Plugin>, text: string, chatId: Id, messageId: Id)
    requires HasMessage(RecordFor(files, Str(chatId), cfg), Str(messageId))
    ensures PrepareResponseSpec(cfg, backend, files, gpt4, text, chatId, messageId)
            == Prepared(files, gpt4, Success(None))
  {
  }

  /** A message not stored yet gets exactly one user block, tagged with its id,
      at the end of its chat's record; the generated answer, if any, follows it.
      The call reports no duplicate (src/api.py:134-150). */
  lemma FirstDeliveryAppendsOneBlock(cfg: Config, backend: Backend, files: map<string, seq<Block>>,
                                     gpt4: Option<Plugin>, text: string, chatId: Id, messageId: Id)
    requires !HasMessage(RecordFor(files, Str(chatId), cfg), Str(messageId))
    ensures var p := PrepareResponseSpec(cfg, backend, files, gpt4, text, chatId, messageId);
            var record := RecordFor(files, Str(chatId), cfg);
            var after := p.files[Str(chatId)];
            && p.response != Success(None)
            && |after| == |record| + 1 + (if p.response.Success? then 1 else 0)
            && after[..|record|] == record
            && after[|record|] == UserBlock(text, messageId)
            && (p.response.Success? ==> after[|record| + 1].text == p.response.value.value)
  {
  }

  /** Records are append-only: the call's chat record keeps everything it held
      (a new record keeps its persona block), every other record is untouched,
      and no record is removed. */
  lemma PrepareResponseAppendOnly(cfg: Config, backend: Backend, files: map<string, seq<Block>>,
                                  gpt4: Option<Plugin>, text: string, chatId: Id, messageId: Id)
    ensures var p := PrepareResponseSpec(cfg, backend, files, gpt4, text, chatId, messageId);
            && p.files.Keys == files.Keys + {Str(chatId)}
            && RecordFor(files, Str(chatId), cfg) <= p.files[Str(chatId)]
            && (forall h :: h in files && h != Str(chatId) ==> p.files[h] == files[h])
  {
  }

  /** After the call the chat record holds the message's id, whatever the
      generation did. */
  lemma {:induction false} DeliveredIsRecorded(cfg: Config, backend: Backend, files: map<string, seq<Block>>,
                                               gpt4: Option<Plugin>, text: string, chatId: Id, messageId: Id)
    ensures var p := PrepareResponseSpec(cfg, backend, files, gpt4, text, chatId, messageId);
            Str(chatId) in p.files && HasMessage(p.files[Str(chatId)], Str(messageId))
  {
    var p := PrepareResponseSpec(cfg, backend, files, gpt4, text, chatId, messageId);
    var record := RecordFor(files, Str(chatId), cfg);
    var key := Str(messageId);
    if !HasMessage(record, key) {
      var after := p.files[Str(chatId)];
      var n := |record|;
      FirstDeliveryAppendsOneBlock(cfg, backend, files, gpt4, text, chatId, messageId);
      assert after[n] == UserBlock(text, messageId);
      assert BlockHasMessage(after[n], key);
    }
  }

  /** Delivering the same message again, with any text, is answered with `None`
      and leaves the records and the plugin cache as the first delivery left them. */
  lemma RedeliveryIsNoOp(cfg: Config, backend: Backend, files: map<string, seq<Block>>,
                         gpt4: Option<Plugin>, text: string, againText: string, chatId: Id, messageId: Id)
    ensures var first := PrepareResponseSpec(cfg, backend, files, gpt4, text, chatId, messageId);
            PrepareResponseSpec(cfg, backend, first.files, first.gpt4, againText, chatId, messageId)
            == Prepared(first.files, first.gpt4, Success(None))
  {
    var first := PrepareResponseSpec(cfg, backend, files, gpt4, text, chatId, messageId);
    DeliveredIsRecorded(cfg, backend, files, gpt4, text, chatId, messageId);
    DuplicateIsNoOp(cfg, backend, first.files, first.gpt4, againText, chatId, messageId);
  }

  /** Every record begins with the persona block of the configured bot. */
  predicate PersonaFirst(files: map<string, seq<Block>>, cfg: Config) {
    forall h :: h in files ==> |files[h]| >= 1 && files[h][0] == SeedFor(cfg)[0]
  }

  /** The persona block stays the first block of every record: records created by
      the call begin with it and appends never move it (src/api.py:169-180). */
  lemma PrepareResponseKeepsPersonaFirst(cfg: Config, backend: Backend, files: map<string, seq<Block>>,
                                         gpt4: Option<Plugin>, text: string, chatId: Id, messageId: Id)
    requires PersonaFirst(files, cfg)
    ensures PersonaFirst(PrepareResponseSpec(cfg, backend, files, gpt4, text, chatId, messageId).files, cfg)
  {
  }
}
