# Luna Discord bot — a verified model of its core

Luna is a Discord bot written in Go. It answers questions and generates
images through one of three Google AI backends: Gemini through the AI
Studio REST API, Gemini on Vertex AI, and the older Vertex AI prediction
service. It also offers moderation and utility slash commands (purge,
lockdown, activity, bracket statistics, avatar, ping, translate, OCR), and
it keeps per-guild settings in SQLite. Around these sit a ticket and
logging system driven by buttons and modals, a DISBOARD bump reminder, and
a War Thunder "vehicle roulette".

This project models that core in Dafny and proves what each part
promises:

- **AI backends** (`ai_factory`, `gemini_studio`, `multimodal`, `vertex_gemini`, `legacy_service`, `base64`, `cloud_config`).
  - Which backends are built from the configuration, and their priority.
  - The request each adapter sends.
  - How each adapter reads a decoded response, including its error paths.
  - The Base64 round trip of image data.
- **Wiring** (`container`): the backends and commands that startup actually wires for each configuration, and how it differs from the factory.
- **Commands**: `ai_commands`, `ocr_command`, `translate_command`, `purge`, `lockdown`, `activity`, `brackets`, `avatar`, `ping`, `warthunder_command`.
  - Argument defaults and guards.
  - Truncation.
  - Filters and batching.
  - Permission bits.
  - Sorting and bands.
  - URL building.
- **Framework**:
  - the command registry with aliases (`registry`);
  - the command context and its argument getters (`command_context`);
  - the embed builder (`embed`);
  - the permission test shared by purge and lockdown (`permissions`).
- **Events**:
  - bracket-pair counting on messages (`bot`);
  - component and modal routing, with the ticket, logging and colour forms (`interactions`);
  - the change log (`logger`);
  - bump detection and reminders (`bump`).
- **Storage**: the guild-settings, guilds, users and bracket-usage tables, as maps in classes whose methods change them the way the SQL statements do (`database`, `guild_repository`).
- **War Thunder** (`warthunder_models`, `warthunder_service`):
  - enums, flags and emoji;
  - the SQL query and its arguments, built step by step;
  - the roulette draw and the default configuration.

`wrappers` holds `Option`, `Result` and `Outcome`.
`gostrings` gives the few Go `strings`/`strconv` functions the source uses, with lemmas about them.

The model's inputs stand in for everything outside the process:
- Every network and Discord call's result, and every database write, is an `Outcome` (pass or fail with an error) or a decoded value.
- Database reads are functions of the stored maps. Most carry the source's error path as an input; the reads listed under "## Left out" have none.
- Times and ages are integers.
- A random pick is a chosen index.

Imperative code becomes Dafny classes whose methods state the whole new state, and loops carry their invariants.
Pure code becomes functions, with lemmas relating them.

## Model

| member | source | states |
|---|---|---|
| AiFactory.ShouldUseGeminiStudio | ai/factory.go:82-86 | Gemini Studio is asked for exactly when a key is set and either the Studio switch is on or a project is configured |
| AiFactory.ShouldUseVertexAI | ai/factory.go:89-91 | both Vertex adapters are asked for exactly when a project ID is set |
| AiFactory.Factory.constructor | ai/factory.go:37-41 | a factory keeps the configuration it was given |
| AiFactory.Factory.CreateGeminiStudio | ai/factory.go:94-106 | fails exactly when the key is empty, leaving the bundle unchanged; otherwise sets the Studio adapter (with model defaulting) and its flag and touches no other field |
| AiFactory.Factory.CreateVertexGemini | ai/factory.go:109-128 | fails exactly without a project or when the client cannot be built, with the wrapped error and an unchanged bundle; otherwise sets the adapter and its flag |
| AiFactory.Factory.CreateLegacyService | ai/factory.go:131-145 | same shape for the legacy adapter: the project check, the wrapped client error, and the adapter and flag set only on success |
| AiFactory.Factory.CreateServices | ai/factory.go:44-79 | succeeds exactly when Studio is asked for or Vertex is asked for and one of its two clients comes up; each Has flag matches what was built; with nothing configured the error is "no AI services configured", otherwise the Vertex Gemini error wrapped — a legacy failure is never the reported error |
| AiFactory.ServiceType.Name | ai/factory.go:13-17 | the service type's string is empty exactly for the no-service value |
| AiFactory.Services.constructor | ai/factory.go:45 | a new bundle has no adapter and every flag false |
| AiFactory.Services.GetPrimaryService | ai/factory.go:148-160 | Vertex Gemini when it is up, else Gemini Studio, else the legacy service, else the empty type — each as an if-and-only-if on the flags |
| AiFactory.Services.Close | ai/factory.go:163-181 | tries Vertex Gemini then the legacy adapter, never Gemini Studio; reports the first failure, not the last, and succeeds exactly when neither adapter with a client failed to close |
| GeminiStudio.NewGeminiStudioService | ai/gemini_studio.go:21-33 | keeps the key; an empty model becomes "gemini-2.5-pro-latest" and a non-empty model is kept |
| GeminiStudio.SafetySettings | ai/gemini_studio.go:116-133 | four settings over four distinct harm categories, each at BLOCK_MEDIUM_AND_ABOVE |
| GeminiStudio.AskPrompt | ai/gemini_studio.go:87-99 | the prompt starts with the fixed preamble and the user ID line and ends with the question line |
| GeminiStudio.AskRequest | ai/gemini_studio.go:101-134 | exactly one "user" content holding exactly one text part, the prompt, with the four safety settings |
| GeminiStudio.ReadAnswer | ai/gemini_studio.go:151-182 | a transport or decode failure fails; an error object fails with its message before candidates are looked at; no candidate or no part gives the "no valid answer" error; otherwise part 0 of candidate 0, untrimmed |
| GeminiStudio.ErrorObjectFirst | ai/gemini_studio.go:170-172 | a response with an error object fails even when it carries an answer that would be returned without it |
| GeminiStudio.OnlyFirstPartRead | ai/gemini_studio.go:180 | adding parts to candidate 0 or adding candidates never changes the answer |
| Multimodal.OcrInstruction | ai/multimodal.go:43-86 | text, translate, summarize and analyze each select their own instruction and every other mode the default one |
| Multimodal.InstructionsDistinct | ai/multimodal.go:43-86 | the five instructions are pairwise different, so the mode always shows in the request |
| Multimodal.OcrRequest | ai/multimodal.go:38-40 | one "user" content with exactly two parts: the instruction first, then inline data with the caller's MIME type whose base64 text decodes back to the image bytes; the four safety settings (see also ai/multimodal.go:93-134) |
| Multimodal.ReadOcrAnswer | ai/multimodal.go:164-182 | fails exactly when the question path fails, with the same error (error object first, then no candidate or part); otherwise the same text with surrounding white space trimmed |
| Multimodal.MimeOf | ai/multimodal.go:209-212 | the Content-Type when set, "application/octet-stream" when it is empty |
| Multimodal.OctetStreamRejected | ai/multimodal.go:209-226 | the octet-stream default never passes the allow-list |
| Multimodal.CheckSupported | ai/multimodal.go:215-226 | the allow-list loop accepts exactly the types containing one of the seven listed MIME strings |
| Multimodal.DownloadImage | ai/multimodal.go:186-245 | succeeds exactly on status 200, a supported type, a readable body and at most 20·1024·1024 bytes (a body of exactly that size passes), with the body and the MIME type; each failure, checked in that order, has its own message: the request error, the transport error or the status, the unsupported type, the read error, the size limit |
| Multimodal.GetSupportedImageTypes | ai/multimodal.go:248-252 | seven pairwise different display names, one per listed MIME type |
| Base64.Encode | ai/multimodal.go:40 | EncodeToString of RFC 4648 section 4: the output length is a multiple of four and non-empty for non-empty input |
| Base64.EncodeCharacters | ai/multimodal.go:40 | encoded text holds only alphabet characters and padding |
| Base64.DropLineBreaks | ai/service.go:226 | the decoder's line-break skipping: no CR or LF remains, every other character keeps its number of occurrences, and it is taken in order piece by piece (see DropLineBreaksAppend) |
| Base64.DropLineBreaksAppend | ai/service.go:226 | dropping line breaks from two pieces one after the other is dropping them from the whole, so the result is the input with exactly the CR and LF characters removed |
| Base64.DecodeEncodeBlock | ai/service.go:226 | a full block of three bytes encodes to four alphabet characters that decode back to the same bytes |
| Base64.DecodeQuantaEncode | ai/service.go:226 | decoding the quanta of any encoding gives back the bytes |
| Base64.DecodeEncode | ai/multimodal.go:40 | round trip: DecodeString of EncodeToString is the original bytes (see also ai/service.go:226) |
| VertexGemini.NewVertexGeminiService | ai/vertex_gemini.go:19-67 | succeeds exactly when the client comes up, and then holds the configured project, location and model |
| VertexGemini.TextOfAppend | ai/vertex_gemini.go:113-118 | the joined text of two part lists is the two joined texts one after the other |
| VertexGemini.TextOfNoText | ai/vertex_gemini.go:114-117 | parts that are not text contribute nothing |
| VertexGemini.TextOfSingle | ai/vertex_gemini.go:114-117 | a single text part joins to its own text |
| VertexGemini.JoinTextParts | ai/vertex_gemini.go:113-118 | the joining loop yields the in-order concatenation of every text part |
| VertexGemini.FirstCandidateParts | ai/vertex_gemini.go:97-110 | no candidate gives the no-response error (the repeated check can never fire); a nil content or no parts gives the empty-content error; otherwise candidate 0's parts |
| VertexGemini.ReadCandidate | ai/vertex_gemini.go:91-118 | a call error is wrapped; candidate errors pass through; otherwise the joined text |
| VertexGemini.AskParts | ai/vertex_gemini.go:76-91 | a question is sent as a single text part: the preamble first, then the user ID line (ai/vertex_gemini.go:87), the question line last |
| VertexGemini.AskGemini | ai/vertex_gemini.go:70-125 | succeeds exactly when the call succeeds, candidate 0 has parts and their joined text is non-empty; an empty joined text is an error here |
| VertexGemini.ImageParts | ai/vertex_gemini.go:134-148 | the prompt with the question, then the image with its MIME type |
| VertexGemini.AskGeminiWithImage | ai/vertex_gemini.go:128-178 | the same checks, but an empty joined text is returned as a successful answer |
| VertexGemini.OcrInstruction | ai/vertex_gemini.go:187-232 | four modes select their own instruction and any other mode the one-line default |
| VertexGemini.OcrPrompt | ai/vertex_gemini.go:235-239 | the persona text and the mode's instruction first, the user ID line last |
| VertexGemini.OCRWithGemini | ai/vertex_gemini.go:181-275 | sends exactly the prompt and the image; same checks as the image call, an empty joined text is returned as "" |
| VertexGemini.TextOfEmptyIff | ai/vertex_gemini.go:113-122 | the joined text is empty exactly when every text part is empty: the case where AskGemini fails and the image calls answer "" |
| VertexGemini.Close | ai/vertex_gemini.go:278-283 | without a client nothing happens and no error is reported; otherwise the client's close result |
| LegacyService.ApiEndpoint | ai/service.go:37 | the regional host: the location followed by "-aiplatform.googleapis.com:443" |
| LegacyService.NewService | ai/service.go:25-52 | succeeds exactly when the prediction client comes up, keeping the project, location and models; otherwise the wrapped client error |
| LegacyService.ModelEndpoint | ai/service.go:61-62 | projects/{project}/locations/{location}/publishers/google/models/{model} (see also ai/service.go:167-168) |
| LegacyService.AskInstance | ai/service.go:80-115 | the instance's contents[0].parts[0].text is the prompt; topK 64, 2048 output tokens, safety threshold BLOCK_MEDIUM_AND_ABOVE |
| LegacyService.ImageInstance | ai/service.go:176-184 | the instance carries the enhanced prompt and one sample |
| LegacyService.EnhancedPrompt | ai/service.go:171-173 | the description wrapped between the fixed lead and style lines |
| LegacyService.ExtractAnswerAsWritten | ai/service.go:138-157 | the extraction as written: when it returns, it returns what the intended extraction does; when it panics, the intended extraction reports the parse error |
| LegacyService.ExtractAnswer | ai/service.go:138-157 | succeeds exactly when predictions[0].candidates[0].content.parts[0].text exists, giving that text trimmed; any missing or empty level gives one and the same parse error |
| LegacyService.ExtractAnswerPrediction | ai/service.go:138-148 | a well-formed reply yields its text trimmed, both as written and as intended |
| LegacyService.LaterCandidatesIgnored | ai/service.go:139-146 | parts after the first and candidates after the first never change the answer, as written or as intended |
| LegacyService.CandidateStringPanics | ai/service.go:141-142 | a first candidate that is a string makes the as-written extraction dereference nil, where the intended one reports the parse error |
| LegacyService.AskRequest | ai/service.go:61-124 | one instance, sent to the Gemini model's endpoint, whose text is the question prompt |
| LegacyService.AskGeminiAsWritten | ai/service.go:127-157 | panics exactly when there is a first prediction whose as-written extraction panics |
| LegacyService.AskGemini | ai/service.go:127-157 | the wrapped call error; no predictions fail; succeeds exactly when the answer path exists, giving the trimmed text; agrees with the as-written version whenever that returns |
| LegacyService.ImageRequest | ai/service.go:167-193 | one instance, sent to the Imagen model's endpoint, carrying the enhanced prompt |
| LegacyService.ExtractImageAsWritten | ai/service.go:207-214 | panics exactly when the prediction is not a struct, and otherwise agrees with the intended extraction |
| LegacyService.ExtractImage | ai/service.go:207-214 | a missing bytesBase64Encoded field is the extraction error; otherwise the standard base64 decoding of the field, with its errors (see also ai/service.go:226-228) |
| LegacyService.GenerateImage | ai/service.go:161-215 | the wrapped call error; no predictions fail; otherwise the extraction of prediction 0 |
| LegacyService.GenerateImageRoundTrip | ai/service.go:207-228 | an image sent back base64-encoded comes out unchanged |
| LegacyService.Close | ai/service.go:218-223 | without a prediction client nothing happens and no error is reported |
| Container.AllKeysDistinct | di/container.go:158-191 | no two commands initCommands can register share a name or alias, and no command repeats one, so no Register call there can clash |
| Container.RegisterNext | di/container.go:158-191 | each Register call of initCommands binds its command's name and every alias and keeps the earlier bindings exactly |
| Container.RegisterBaseCommands | di/container.go:158-164 | the seven base commands end up bound exactly, under every one of their keys |
| Container.RegisterAiCommands | di/container.go:167-181 | after the base commands, exactly the AI commands the present backends allow are added |
| Container.RegisterStudioCommands | di/container.go:184-187 | OCR and translation are added exactly when Gemini Studio is present |
| Container.RegisterCommands | di/container.go:155-193 | the registry binds exactly the planned commands for the backends that are up, War Thunder included |
| Container.BaseAlwaysBound | di/container.go:158-164 | the seven base commands and War Thunder are bound under each of their keys whatever backends are up (see also di/container.go:190-192) |
| Container.AskBinding | di/container.go:167-181 | "ask" is bound exactly when some backend is up: to Vertex Gemini if present, else the legacy service, else Gemini Studio |
| Container.ImagineBinding | di/container.go:167-177 | "imagine" is bound exactly when the legacy service is up |
| Container.OcrBinding | di/container.go:184-187 | "ocr" is bound exactly when Gemini Studio is up |
| Container.TranslateBinding | di/container.go:184-187 | "translate" is bound exactly when Gemini Studio is up |
| Container.SelectBackends | di/container.go:50-64 | Studio exactly when it is enabled and keyed; otherwise, with a project, Vertex Gemini and the legacy service each present exactly when its client came up |
| Container.StudioExcludesVertex | di/container.go:50-64 | Studio and the Vertex backends are never both brought up |
| Container.ContainerDiffersFromFactory | di/container.go:50-64 | on a configuration with Studio enabled, a key and a project the factory asks for Studio and Vertex alike while the container brings up Studio only (see also ai/factory.go:49-68) |
| Container.Container.constructor | di/container.go:35-37 | a new container holds only its configuration |
| Container.Container.InitDatabase | di/container.go:71-85 | fails exactly when connecting or migrating fails, with that error; keeps the database on success and changes nothing else |
| Container.Container.InitDiscordSession | di/container.go:87-97 | fails exactly when the session cannot be created; keeps it on success and changes nothing else |
| Container.Container.InitGeminiStudio | di/container.go:137-144 | never fails; sets the Studio service built from the key and model and changes nothing else |
| Container.Container.InitVertexGemini | di/container.go:146-153 | fails exactly when the client cannot be built; keeps the service only on success |
| Container.Container.InitAIService | di/container.go:128-135 | fails exactly when the client cannot be built; keeps the legacy service only on success |
| Container.Container.InitCommands | di/container.go:155-193 | a fresh registry binding exactly the planned commands for the backends that are present |
| Container.Container.Cleanup | di/container.go:195-213 | closes session, database, legacy service and Vertex Gemini, each exactly when present and in that order, and returns no error |
| Container.NewContainer | di/container.go:34-69 | a database or session failure is returned with no container; otherwise a container with the backends SelectBackends picks (their failures only reported) and its commands registered |
| AiCommands.AskBackend | commands/ai.go:97-106 | Vertex Gemini when set, else Gemini Studio, else the legacy service, else none — each as an if-and-only-if |
| AiCommands.ConstructorsAskTheirBackend | commands/ai.go:20-36 | each constructor yields a command that asks exactly the backend it was built with (see also commands/ai.go:97-106) |
| AiCommands.AskBackendIsPrimary | commands/ai.go:97-106 | the command's backend order is the factory's primary-service order (see also ai/factory.go:148-160) |
| AiCommands.PresentAnswer | commands/ai.go:107-130 | a backend error is shown with its lead text; an answer of at most 1900 characters is shown unchanged; a longer one becomes its first 1900 characters followed by the omission note |
| AiCommands.AskExecute | commands/ai.go:73-131 | an empty question is rejected before availability is checked; with no backend the command answers "unavailable" and asks nothing; otherwise it asks exactly the priority backend and shows that backend's result |
| AiCommands.StyleSuffix | commands/ai.go:207-219 | a style appends text exactly when it is one of the five known keys |
| AiCommands.FullPrompt | commands/ai.go:207-219 | the prompt is kept as a prefix and is unchanged exactly for an empty or unknown style |
| AiCommands.GetStyleName | commands/ai.go:278-291 | the five keys map to their display names; any other input is returned unchanged |
| AiCommands.StyleTablesAgree | commands/ai.go:207-219 | the suffix table and the name table cover the same five styles (see also commands/ai.go:278-291) |
| AiCommands.StyleNamesDistinct | commands/ai.go:278-285 | the five display names are pairwise different |
| AiCommands.ImageExecute | commands/ai.go:192-276 | an empty prompt, then a missing legacy service, are rejected (exactly those); otherwise one Imagen call with the styled prompt, whose error or image is shown |
| AiCommands.ImageReachesReply | commands/ai.go:238-262 | an image Imagen returns base64-encoded reaches the reply unchanged, whatever the style (see also ai/service.go:207-228) |
| OcrCommand.FirstImageAttachment | commands/ocr.go:197-201 | found exactly when some attachment's content type starts with "image/", and then it is the URL of the first such attachment |
| OcrCommand.FirstEmbedImage | commands/ocr.go:204-211 | found exactly when some embed has an image or a thumbnail; the answer comes from the first such embed, its image URL before its thumbnail URL |
| OcrCommand.ImageOf | commands/ocr.go:196-211 | within a message an image attachment wins over any embed picture; nothing is found exactly when neither kind is there |
| OcrCommand.RecentImage | commands/ocr.go:195-212 | found exactly when some fetched message offers an image |
| OcrCommand.RecentImageIsFirst | commands/ocr.go:195-212 | messages before the first one with an image are skipped: the search answers from that message |
| OcrCommand.FindRecentImage | commands/ocr.go:187-215 | the nested loops return the first hit in message order; a fetch failure and a search without a hit are errors |
| OcrCommand.ModeDescription | commands/ocr.go:218-230 | the text-extraction label exactly for modes other than translate, summarize and analyze |
| OcrCommand.DescriptionFollowsInstruction | commands/ocr.go:218-230 | the label shown reads text extraction exactly when the prompt sent is the text or the default instruction (see also ai/multimodal.go:43-86) |
| OcrCommand.ReadImage | commands/ocr.go:133-183 | the download fails exactly when the adapter's download does, shown with the adapter's own error after the lead text; then an OCR failure; otherwise the mode label and the result cut at 1800 characters with a note, and the MIME type of the download |
| OcrCommand.Execute | commands/ocr.go:77-184 | no service is answered first; an empty mode becomes "text"; the image source is the attachment, then image_url, then the recent-message search, whose failure is the only other rejection; the reply is a rejection exactly when no source is found; with a source, the download fails exactly when the adapter's download does, with its error, the OCR fails exactly when the download succeeds and the OCR answer is an error, and the text is extracted exactly when both succeed; these later failures are shown and the command still succeeds |
| TranslateCommand.TruncateText | commands/translate.go:173-178 | text within the limit is unchanged; longer text becomes its first maxLen−3 characters plus "...", exactly maxLen long |
| TranslateCommand.TruncateTextFits | commands/translate.go:173-178 | the result never exceeds the limit, and equals the input exactly when the input fits |
| TranslateCommand.TargetLanguage | commands/translate.go:128-145 | a key outside the ten gives 日本語 |
| TranslateCommand.LanguageName | commands/translate.go:153-171 | a key outside the ten gives 🇯🇵 日本語 |
| TranslateCommand.TargetInitial | commands/translate.go:129-140 | each of the ten keys has its own target language in both tables, recognised by its first character (see also commands/translate.go:154-165) |
| TranslateCommand.TargetLanguagesDistinct | commands/translate.go:129-140 | the ten keys name ten different languages in the prompt and ten different names on screen (see also commands/translate.go:154-165) |
| TranslateCommand.NameShowsTarget | commands/translate.go:128-171 | the name shown always ends with the language the prompt asked for, known key or not |
| TranslateCommand.TranslatePrompt | commands/translate.go:147-150 | the instruction naming the target language first, the text last |
| TranslateCommand.Execute | commands/translate.go:76-126 | empty text is rejected first, then an empty language becomes "japanese", then a missing service is rejected; otherwise exactly one Studio question with the prompt, and its error or answer is shown |
| TranslateCommand.DefaultIsJapanese | commands/translate.go:86-88 | an empty language and "japanese" give the same request and reply |
| Bot.OpenersAccounted | bot/bot.go:119-133 | after any prefix, pairs + unmatched openers equals the number of openers read |
| Bot.PairsWithinClosers | bot/bot.go:119-133 | every pair consumed one closer |
| Bot.PairsBounded | bot/bot.go:119-133 | the count never exceeds the number of openers nor the number of closers |
| Bot.OtherCharsIgnored | bot/bot.go:123-130 | characters other than the two brackets, unmatched closers included, do not change the counter |
| Bot.ScanSnoc | bot/bot.go:124-129 | one more character is one step of the counter: an opener adds to the open count, a closer with an open count turns one into a pair, anything else leaves it |
| Bot.CountPairs | bot/bot.go:119-133 | the loop computes the pair count of the content, bounded by the openers and the closers |
| Bot.CountBracketPairs | bot/bot.go:108-116 | the half-width count over ( ) and the full-width count over （ ） |
| Bot.FamiliesIndependent | bot/bot.go:108-116 | changing only one family's characters never changes the other family's count |
| Bot.OnMessageCreate | bot/bot.go:76-105 | the bot's own and other bots' messages change nothing; otherwise the author is upserted, and usage is recorded exactly for guild messages with at least one pair, adding both counts to the stored row; failed statements leave their table unchanged |
| Registry.FirstClash | commands/registry.go:42-47 | the position of the first alias that is already bound (or repeats the name or an earlier alias), and the number of aliases when none is |
| Registry.BindOneMore | commands/registry.go:46 | binding one more alias extends the bound prefix of the aliases by exactly that alias |
| Registry.EveryAliasBound | commands/registry.go:40-47 | once the name and every alias are bound, each of them leads to the command |
| Registry.Registry.constructor | commands/registry.go:22-30 | a new registry has no bindings |
| Registry.Registry.Register | commands/registry.go:32-50 | a taken name fails with "command … already registered" and changes nothing; otherwise the name and the aliases before the first clash are bound, the clash (if any) fails with "alias … already registered" keeping those bindings, and success means Get finds the command under its name and every alias |
| Registry.Registry.Get | commands/registry.go:52-58 | found exactly when the name or alias is bound, giving the bound command |
| Registry.Registry.GetAll | commands/registry.go:60-75 | every bound command name appears exactly once, whatever order the map is walked in, and only bound commands appear |
| Registry.DefaultPermissions | commands/registry.go:183-189 | no restriction exactly for permission 0, and the command's own permission otherwise |
| Registry.DMPermission | commands/registry.go:192-209 | DMs are refused exactly for config, lockdown, purge, activity and brackets and for commands needing ManageGuild, ManageChannels or ManageMessages |
| Registry.HandleInteraction | commands/registry.go:113-162 | non-command interactions and unknown names are ignored; a known command is run, its error is reported (editing the reply exactly when there is an application ID), and the run is logged exactly when a user is known, under the member's user ID in a guild or the interaction user's otherwise, with the command name and guild ID, success equal to the absence of an error, and the error text or "" |
| Permissions.MemberHasRoleBit | commands/purge.go:173-192 | passes exactly for the guild owner or a member with a role that resolves and holds the bit or Administrator; unresolved roles are skipped (see also commands/lockdown.go:129-148) |
| CommandContext.OptionsMapKeys | commands/command.go:31-35 | the argument map has exactly one key per option name given |
| CommandContext.OptionsMapValue | commands/command.go:32-34 | each name holds the value of the last option carrying that name |
| CommandContext.OptionsMapSize | commands/command.go:31-35 | with distinct option names the map has as many entries as there are options |
| CommandContext.Context.constructor | commands/command.go:24-38 | a new context keeps the interaction and maps every top-level option name to its value |
| CommandContext.Context.GetUser | commands/command.go:106-111 | the member's user inside a guild, the interaction's own user otherwise |
| CommandContext.Context.GetArg | commands/command.go:124-127 | found exactly when the option was given, with its value |
| CommandContext.Context.GetStringArg | commands/command.go:129-136 | the option's text when it was given as a string, "" when missing or of another kind |
| CommandContext.Context.GetUserArg | commands/command.go:138-145 | as written: a user exactly when the option holds a user object, and that user; never for decoded options (GetUserArgNeverSome) |
| CommandContext.GetUserArgNeverSome | commands/command.go:138-145 | a context built from decoded options, where a USER option holds the ID string, never yields a user through GetUserArg |
| CommandContext.DecodedOptionsHoldNoUser | commands/command.go:138-145 | collecting decoded options never stores a user object under any name |
| CommandContext.Context.ResolvedUserArg | commands/command.go:138-145 | corrected: a user exactly when the option holds a string found among the resolved users, and that user |
| CommandContext.Context.GetIntArg | commands/command.go:147-154 | the option's number when it was given as a number, 0 when missing or of another kind |
| CommandContext.Context.GetBoolArg | commands/command.go:156-163 | true exactly when the option was given as the boolean true |
| CommandContext.Context.Reply | commands/command.go:40-47 | a visible channel message carrying exactly the content |
| CommandContext.Context.ReplyEphemeral | commands/command.go:58-66 | a channel message carrying the content, visible only to the caller |
| CommandContext.Context.ReplyEmbed | commands/command.go:49-56 | a message carrying just the one embed, ephemeral exactly when asked (see also commands/command.go:68-76) |
| CommandContext.Context.DeferReply | commands/command.go:78-90 | a deferred response, ephemeral exactly when asked |
| Embed.Builder.constructor | embed/builder.go:36-43 | a new builder holds an embed with the primary colour, the current time and nothing else |
| Embed.Builder.SetTitle | embed/builder.go:45-48 | only the title changes, and the same builder is returned for chaining |
| Embed.Builder.SetDescription | embed/builder.go:50-53 | only the description changes, and the same builder is returned |
| Embed.Builder.SetColor | embed/builder.go:55-58 | only the colour changes, and the same builder is returned |
| Embed.Builder.SetAuthor | embed/builder.go:60-67 | only the author changes, to the given name, icon and link |
| Embed.Builder.SetFooter | embed/builder.go:69-75 | only the footer changes, to the given text and icon |
| Embed.Builder.SetThumbnail | embed/builder.go:77-82 | only the thumbnail changes |
| Embed.Builder.SetImage | embed/builder.go:84-89 | only the image changes |
| Embed.Builder.AddField | embed/builder.go:91-98 | the field is appended after the existing ones, which stay as they were, and nothing else changes |
| Embed.Builder.AddBlankField | embed/builder.go:100-102 | a field of two zero-width spaces is appended and nothing else changes |
| Embed.Builder.SetTimestamp | embed/builder.go:104-108 | only the timestamp changes, to the current time |
| Embed.Builder.Build | embed/builder.go:110-112 | the builder's own embed is handed out, so later setter calls show through it |
| Embed.Success | embed/builder.go:114-120 | a new embed titled "✅ " plus the title, with the description and the success colour |
| Embed.Error | embed/builder.go:122-128 | a new embed titled "❌ " plus the title, with the description and the error colour |
| Embed.Warning | embed/builder.go:130-136 | a new embed titled "⚠️ " plus the title, with the description and the warning colour |
| Embed.Info | embed/builder.go:138-144 | a new embed titled "ℹ️ " plus the title, with the description and the info colour |
| Embed.Status | embed/builder.go:114-144 | the shared shape of the four status embeds: a new embed whose title is the mark, a space and the title, with the description and the colour and nothing else set |
| Embed.Loading | embed/builder.go:146-151 | a new untitled embed with the hourglass before the description and the secondary colour |
| Interactions.MenuRoute | commands/interactions.go:38-77 | the exact menu IDs, tested first, never lead into the ticket-close flow |
| Interactions.BuilderRoute | commands/interactions.go:80-93 | the embed-template, template-edit and reset cases never lead into the ticket-close flow |
| Interactions.RouteComponentAsWritten | commands/interactions.go:38-113 | the switch in source order; an ID no case takes gets the "unsupported interaction" reply naming it |
| Interactions.TicketIdsSkipOtherMenus | commands/interactions.go:38-93 | an ID starting "ti" matches none of the configuration, embed-menu or builder cases |
| Interactions.CloseIdsPassEarlierCases | commands/interactions.go:38-96 | an ID starting "ticket_close_" passes every case before the "ticket_close_" prefix |
| Interactions.CloseButtonsShadowed | commands/interactions.go:97-104 | as written, the confirm button and the cancel button both route back to handleTicketClose |
| Interactions.CloseHandlersUnreachable | commands/interactions.go:97-104 | as written, no custom ID at all reaches handleTicketCloseConfirm or handleTicketCloseCancel |
| Interactions.RouteComponent | commands/interactions.go:38-113 | the routing with the two close-confirmation cases before the "ticket_close_" prefix; unknown IDs still get the reply naming them |
| Interactions.CloseButtonsRouted | commands/interactions.go:101-104 | corrected, the confirm button reaches its handler carrying its channel ID and the cancel button reaches its own (see also commands/interactions.go:2162-2163) |
| Interactions.CorrectionIsLocal | commands/interactions.go:38-113 | the correction changes the route of no other ID |
| Interactions.SetupExactBeforePrefix | commands/interactions.go:56-61 | the three exact ticket-setup IDs win over the "ticket_setup_" prefix, which takes every other such ID (see also commands/interactions.go:95-96) |
| Interactions.HandleComponentInteraction | commands/interactions.go:30-35 | corrected: only component interactions are routed, all other kinds are ignored; routing uses the corrected table of RouteComponent (see Findings) |
| Interactions.TemplateModalRouted | commands/interactions.go:366-391 | a template-edit modal ID built for a message reaches handleTemplateEditModal |
| Interactions.FeatureName | commands/interactions.go:813-828 | the key is replaced by a display name exactly for the five resettable features |
| Interactions.FooterText | commands/interactions.go:1633-1638 | the footer's text, "" without a footer |
| Interactions.ImageURL | commands/interactions.go:1641-1646 | the image's URL, "" without an image |
| Interactions.ParseHexInt32 | commands/interactions.go:1624 | a parse succeeds only within the signed 32-bit range |
| Interactions.ParseColor | commands/interactions.go:1609-1630 | fails exactly when the digits left after trimming, "#" and "0x" do not parse as a 32-bit hexadecimal number, falling back to the primary colour |
| Interactions.ToHex | commands/interactions.go:1624 | the reference writer of hexadecimal: at least one digit, all hexadecimal |
| Interactions.HexValueOfToHex | commands/interactions.go:1624 | reading back the digits written for a number gives the number |
| Interactions.BareDigitsReachParser | commands/interactions.go:1611-1622 | bare hexadecimal digits reach the parser untouched |
| Interactions.HashedDigitsReachParser | commands/interactions.go:1614-1616 | digits behind "#" reach the parser without it |
| Interactions.PrefixedDigitsReachParser | commands/interactions.go:1619-1621 | digits behind "0x" reach the parser without it |
| Interactions.ParseHexOfDigits | commands/interactions.go:1624 | unsigned digits within the 32-bit range parse to their value |
| Interactions.ParseColorRoundTrip | commands/interactions.go:1609-1630 | every colour below 2^31 written in hexadecimal, with "#", with "0x" or bare, parses back to itself |
| Interactions.TemplateMessageID | commands/interactions.go:1366-1370 | the ID is accepted exactly when it has at least four "_", and the message ID is its last "_"-free piece |
| Interactions.TemplateMessageIDOf | commands/interactions.go:1366-1370 | an ID built as handleTemplateEdit builds it, from a template type and a message ID, neither holding "_", gives the message ID back |
| Interactions.TemplateTypeMessageID | commands/interactions.go:1303 | for each of the five template types the menu offers, the edit modal's ID gives the message ID back |
| Interactions.ScanDecimal | commands/interactions.go:415-418 | fmt.Sscanf "%d": a number is read exactly when skipping blanks meets no newline and what follows starts with a digit, or with a sign and a digit; a negative number was written with '-' |
| Interactions.SkipBlanksFails | commands/interactions.go:415-418 | skipping blanks fails exactly when a newline comes before any other character |
| Interactions.ScanStopsAtUnderscore | commands/interactions.go:415-418 | the digits end at the first other character: "1_2" reads as 1 |
| Interactions.ScanDecimalOfItoa | commands/interactions.go:415-418 | any number written as strconv.Itoa writes it, followed by anything that does not start with a digit, reads back as that number |
| Interactions.AutoCloseDefault | commands/interactions.go:399 | without a usable auto-close input the form keeps 24 hours (see also commands/interactions.go:415-418) |
| Interactions.TicketFormStep | commands/interactions.go:401-420 | reading one more input applies it to the form read so far |
| Interactions.ReadTicketInput | commands/interactions.go:406-419 | the switch on one input's custom ID applies exactly that input |
| Interactions.ReadTicketForm | commands/interactions.go:401-421 | the nested loop yields the form of all inputs in row order, later inputs overriding earlier ones |
| Interactions.TicketFallback | commands/interactions.go:454-470 | the fallback settings equal those of a guild without a row |
| Interactions.TicketSetupSubmit | commands/interactions.go:393-486 | missing category or support role is rejected with the required-fields message, and otherwise failed validation with the validation lead and its error, nothing being written; otherwise the guild is registered when its lookup succeeded, the stored or fallback settings get the ticket section from the form, the per-user limit kept, and are saved exactly when the statement succeeds, no other table changing |
| Interactions.LoggingFallback | commands/interactions.go:597-612 | the fallback differs from a guild without a row only in having no ticket hours or per-user limit |
| Interactions.ReadLogChannel | commands/interactions.go:549-560 | the nested loop yields the last "log_channel" input, "" without one |
| Interactions.LoggingSetupSubmit | commands/interactions.go:545-640 | a missing channel or one that is not a text channel is rejected with nothing written; otherwise the guild is registered when its lookup succeeded, logging is switched on for that channel with every event flag and saved exactly when the statement succeeds |
| Interactions.LastRoleInputWins | commands/interactions.go:1717-1730 | the bump role is the value of the last "bump_role" input, so an empty one clears the role |
| Interactions.BumpModalKeeps | commands/interactions.go:1717-1730 | the bump form changes only the channel and the role: the switch, the bump time and the sent mark are kept |
| Interactions.ReadBumpModal | commands/interactions.go:1717-1731 | the loop over rows and inputs yields the bump section after every input in order |
| Interactions.BumpSettingsSubmit | commands/interactions.go:1686-1760 | the guild is registered first when its lookup succeeded; the stored settings, or the defaults when the read fails, get the form's channel and role and bump switched on; saved exactly when the statement succeeds, else "❌ 設定の保存に失敗しました" with the settings unchanged; never rejected |
| Logger.ShouldLog | logging/logger.go:61-82 | nothing is logged when the settings cannot be read, logging is off or no channel is set; the four message and member events follow their own flags, every other event is logged, always to the log channel |
| Logger.OtherFlagsIgnored | logging/logger.go:71-82 | the channel, role, voice, moderation, server and nickname flags are never consulted |
| Logger.NewGuildLogsNothing | logging/logger.go:62-69 | a guild without a settings row logs nothing |
| Logger.LoggedContent | logging/logger.go:123-125 | content up to the limit is kept whole; longer content becomes its first 1000 characters followed by "..." (see also logging/logger.go:130-132, logging/logger.go:170-172) |
| Logger.OnMessageUpdate | logging/logger.go:94-143 | direct, authorless and bot messages are skipped; an edit is logged exactly when the edit flag allows it and the content changed, to the log channel |
| Logger.Bullets | logging/logger.go:177-180 | one "• name" line per attachment, in order |
| Logger.AttachmentList | logging/logger.go:176-182 | the attachment field is the bullet lines joined by line breaks |
| Logger.OnMessageDelete | logging/logger.go:145-193 | direct messages are skipped and a delete is logged exactly when the delete flag allows it, to the log channel the settings give; the entry names the channel and the message ID; without a cached message it has no other field; with one, the author ID is present exactly when the author is human, the (cut) content exactly when there is any, the attachment bullet list exactly when there are attachments and the embed count exactly when there are embeds, each with its value |
| Logger.ChannelTypeString | logging/logger.go:465-488 | the unknown label exactly for a type outside the nine labelled ones |
| Logger.BoolString | logging/logger.go:567-572 | 有効 exactly for on, 無効 exactly for off |
| Logger.ShownTopic | logging/logger.go:505-512 | an empty topic is shown as 未設定, any other as itself |
| Logger.DetectChannelChanges | logging/logger.go:490-527 | the appending loop yields the channel-change list |
| Logger.ChannelChangesCount | logging/logger.go:490-527 | no entries without the previous state; otherwise one entry per changed field of name, topic and NSFW, so the list is empty exactly when nothing changed |
| Logger.ChannelChangesOrdered | logging/logger.go:495-525 | the name entry comes first and the NSFW entry last |
| Logger.Hex6 | logging/logger.go:543-548 | the colour as lower-case hexadecimal digits whose value is the colour, zero-padded to at least six and exactly six for a 24-bit colour |
| Logger.HexLower | logging/logger.go:545 | the `%x` digits: lower-case hexadecimal digits whose value is the number |
| Logger.DetectRoleChanges | logging/logger.go:529-565 | the appending steps yield the role-change list |
| Logger.RoleChangesCount | logging/logger.go:529-565 | no entries without the previous state; otherwise one entry per changed field of name, colour, hoist and mentionable, so the list is empty exactly when nothing changed |
| Bump.ImageGuardsFirstPhraseOnly | bump/handler.go:51-53 | by Go's precedence the image check guards only the first phrase: without an image only "Bump done" or the server phrase count, with one any of the three |
| Bump.OnMessageCreate | bump/handler.go:37-58 | a bump is recognised exactly for a message not from the bot itself, from DISBOARD, whose first embed carries a success pattern, and it is recorded for that message's guild and channel |
| Bump.OnlyDisboardBumps | bump/handler.go:38-46 | any recognised bump comes from DISBOARD |
| Bump.HandleBumpSuccess | bump/handler.go:61-92 | nothing happens unless the settings read and bump is on; the notice goes out exactly when the bump time is also recorded, to the bump channel or else the triggering channel; the users, guilds and bracket tables are not touched |
| Bump.SendBumpReminder | bump/handler.go:95-134 | the reminder goes out exactly when the settings read, bump is on, no reminder was sent and a bump channel is set; it goes to that channel and marks the reminder sent; the users, guilds and bracket tables are not touched |
| Bump.ReminderSentOnce | bump/handler.go:105-108 | a guild marked as reminded reads back as reminded, so the next reminder is skipped (see also bump/handler.go:131-132) |
| Bump.BumpRearmsReminder | bump/handler.go:67-70 | recording a bump reads back as not reminded, so its reminder can go out |
| Bump.ReminderDelay | bump/handler.go:145-153 | no delay once the cooldown has passed, otherwise the rest of the cooldown |
| Bump.CheckPendingReminders | bump/handler.go:137-156 | a failed lookup schedules nothing; otherwise one reminder per guild with a bump time and no reminder sent, in order, with its delay |
| Bump.PendingDelaysBounded | bump/handler.go:145-153 | every scheduled delay lies between zero and the cooldown when no bump time is in the future |
| Bump.BumpFormKeeps | bump/handler.go:247-251 | an empty role field never clears the stored role, and the bump time and sent mark are untouched |
| Bump.LastChannelWins | bump/handler.go:245-246 | the last channel input decides the channel |
| Bump.LastSwitchWins | bump/handler.go:252-253 | the switch is on exactly when the last switch input reads "true" in any letter case |
| Bump.BumpFormStep | bump/handler.go:241-255 | reading one more input applies it to the form read so far |
| Bump.ReadBumpInput | bump/handler.go:244-254 | the switch on one input's custom ID applies exactly that input |
| Bump.ReadBumpForm | bump/handler.go:241-256 | the nested loop yields the form of all inputs in row order |
| Bump.BumpSettingsSubmit | bump/handler.go:227-268 | a failed read is reported with nothing written; otherwise the form is merged into the stored bump section and the row saved, the save failing exactly when its statement fails; the users, guilds and bracket tables are not touched (this copy is reached only from a "config_bump_submit" component) |
| Database.ScanRow | database/service.go:322-333 | a row reads into the struct exactly when none of its TEXT columns is NULL, keeping its guild ID |
| Database.ToRow | database/service.go:350-425 | the written row has every TEXT column set, the struct's guild ID, and "{}" for an empty settings JSON |
| Database.ScanToRow | database/service.go:304-425 | reading back a written row gives the struct, with "{}" for an empty settings JSON |
| Database.DefaultSettings | database/service.go:335-343 | a guild without a row reads as: everything off and empty except 24 hours, 3 tickets, and edits, deletes, joins and leaves logged |
| Database.ResetAsWrittenUnreadable | database/service.go:432-476 | after the reset as written, writing NULL into TEXT columns, the guild's settings can no longer be read |
| Database.ResetFeature | database/service.go:432-476 | the intended reset: the feature's fields return to what a guild without a row reads as, logging keeping its six other flags, every other feature kept |
| Database.ResetRow | database/service.go:432-476 | the corrected statements keep a readable row free of NULL TEXT columns |
| Database.ResetRowReadsBack | database/service.go:432-476 | a readable row, reset with the corrected statements, reads back as the intended reset |
| Database.BumpRecorded | database/service.go:488-498 | the bump time is recorded and the reminder mark cleared, every other column kept |
| Database.AddUsage | database/service.go:549-563 | a fresh row holds the deltas; otherwise each counter grows by its delta and the total by their sum |
| Database.Service.constructor | database/service.go:14-16 | a new service has empty tables |
| Database.Service.GetGuildSettings | database/service.go:304-347 | a guild without a row reads as the defaults; otherwise the row's scan, which carries the guild's own ID |
| Database.Service.UpsertGuildSettings | database/service.go:350-425 | fails exactly when the statement fails, changing nothing; otherwise the guild's row becomes the struct's row and no other table changes |
| Database.Service.ResetGuildSettings | database/service.go:428-485 | corrected: an unknown feature is an error that touches nothing; "all" deletes the row; the four features reset their own columns of an existing row to the values a guild without a row reads (see Findings); a failed statement changes nothing |
| Database.Service.UpdateBumpTime | database/service.go:488-498 | an existing row gets the bump recorded; a missing row or a failed statement changes nothing |
| Database.Service.MarkBumpReminderSent | database/service.go:500-509 | an existing row gets the reminder marked sent and nothing else changes |
| Database.Service.UpsertGuild | database/service.go:228-239 | the guild gets the name and prefix exactly when the statement succeeds; no other table changes |
| Database.Service.GetGuildPrefix | database/service.go:241-249 | the guild's prefix, or "/" without a row |
| Database.Service.UpsertUser | database/service.go:213-226 | the user row is replaced exactly when the statement succeeds; no other table changes |
| Database.Service.UpdateBracketUsage | database/service.go:549-563 | the user's counters in the guild grow by the deltas, or start at them, exactly when the statement succeeds; the total stays the sum of the counters |
| Database.Service.GetUserBracketStats | database/service.go:593-612 | the user's counters, all zero without a row, with the total the sum of the two |
| Database.Service.GetBracketRanking | database/service.go:565-591 | distinct users of the guild, highest total first, as many as the limit allows (all for a negative limit), each with its stored counters, and no user left out outranks one listed |
| Database.UsersIn | database/service.go:569 | exactly the users with a row in the guild |
| Database.RankStep | database/service.go:570 | placing a remaining user with the highest total keeps the ranking ordered and distinct |
| Database.RankingDone | database/service.go:570-571 | when the loop stops the ranking has its full length and outranks every user left out |
| Database.MaxUser | database/service.go:570 | a candidate whose total no other candidate exceeds |
| GuildRepository.Coalesce | database/repositories/guild_repository.go:146-164 | the merged row has every column sent and every stored column not sent, with the sent value winning |
| GuildRepository.CoalesceIdempotent | database/repositories/guild_repository.go:146-164 | merging the same values twice gives the same row as merging them once |
| GuildRepository.CoalesceWellTyped | database/repositories/guild_repository.go:146-164 | a merge of well-typed columns is well typed |
| GuildRepository.FeatureColumns | database/repositories/guild_repository.go:182-200 | each of the five features clears its own columns; any other name clears none |
| GuildRepository.ClearedByOwnerOnly | database/repositories/guild_repository.go:182-195 | a column is cleared by a feature exactly when it is that feature's column, so no reset touches another feature |
| GuildRepository.Repository.constructor | database/repositories/guild_repository.go:40-44 | a new repository has empty tables |
| GuildRepository.Repository.UpsertGuild | database/repositories/guild_repository.go:47-58 | the guild gets the name and prefix exactly when the statement succeeds; the settings table is untouched |
| GuildRepository.Repository.GetGuildPrefix | database/repositories/guild_repository.go:60-74 | the settings prefix when set, else the guild's prefix, else "/" |
| GuildRepository.Repository.GetGuildSettings | database/repositories/guild_repository.go:77-134 | the stored columns with a NULL prefix read as "/", or only the guild ID and "/" without a row |
| GuildRepository.Repository.UpsertGuildSettings | database/repositories/guild_repository.go:137-176 | a new row takes the struct as it is; an existing row takes the prefix and every non-NULL column and keeps the rest; a failed statement changes nothing |
| GuildRepository.Repository.ResetGuildSettings | database/repositories/guild_repository.go:179-204 | an unknown feature succeeds doing nothing; "all" deletes the row; a feature sets its own columns of an existing row to NULL |
| GuildRepository.UpsertReadsBack | database/repositories/guild_repository.go:137-176 | after an upsert the row holds the prefix and every column sent, and every column not sent keeps its value |
| Purge.MatchesFilter | commands/purge.go:194-229 | a message matches exactly when it is unpinned or pinned messages are included, is by the target user if one is given, contains the text ignoring case if one is given, and passes the category |
| Purge.NotPinnedWins | commands/purge.go:196-198 | with the "not-pinned" category a pinned message never matches, whether pinned messages are included or not (see also commands/purge.go:224-225) |
| Purge.Selection | commands/purge.go:120-137 | the reference selection: never more than the amount (none for a negative one) and never more than were fetched |
| Purge.SelectionEligible | commands/purge.go:126-136 | every chosen message was fetched, is at most two weeks old and matches the filter |
| Purge.SelectionFull | commands/purge.go:121-124 | the number chosen is the amount or the number of eligible messages, whichever is smaller |
| Purge.Keep | commands/purge.go:126-134 | a message is kept exactly when it is at most two weeks old and matches the filter |
| Purge.SelectionStep | commands/purge.go:121-137 | one step of the loop takes an eligible message and skips any other |
| Purge.SelectMessages | commands/purge.go:120-137 | the loop chooses exactly the reference selection |
| Purge.PartitionSizes | commands/purge.go:239-246 | each chosen message goes to exactly one of the bulk list (under two weeks old) and the single list |
| Purge.BatchDeleted | commands/purge.go:259-271 | a batch never counts more deletions than it holds |
| Purge.BulkDeleted | commands/purge.go:253-272 | the batches from an index never count more deletions than the IDs left |
| Purge.SinglesDeleted | commands/purge.go:282-289 | the single deletions never count more than the IDs |
| Purge.PartitionIDs | commands/purge.go:236-246 | the partition loop yields the young IDs and the old IDs, each in order |
| Purge.DeleteBatches | commands/purge.go:251-272 | the loop over slices of at most 100 IDs counts exactly the reference bulk deletions |
| Purge.DeleteSingles | commands/purge.go:282-289 | the loop counts exactly the single deletions that succeed |
| Purge.LoneIDAsBatch | commands/purge.go:273-279 | a lone young ID is deleted on its own, as a batch of one would be |
| Purge.BulkDeleteMessages | commands/purge.go:231-292 | the count is the bulk deletions plus the single deletions that succeed, never more than the messages, and no error is returned |
| Purge.AllDeletedWhenAllSucceed | commands/purge.go:231-292 | when every call succeeds, every chosen message is counted as deleted |
| Purge.FilterConditions | commands/purge.go:295-322 | one non-empty condition each for a target user, a known category, a text and included pinned messages, each with its text and at its position in that order |
| Purge.FilterDescription | commands/purge.go:294-329 | the conditions joined by " • ", empty exactly when no user, no known category, no text and no pinned messages are given |
| Purge.DescriptionStartsWithUser | commands/purge.go:297-299 | a named target user opens the description |
| Purge.DescriptionEndsWithPinned | commands/purge.go:320-322 | including pinned messages closes the description |
| Purge.HasPermission | commands/purge.go:173-192 | passes exactly for the guild owner or a member with a resolvable role holding Manage Messages or Administrator |
| Lockdown.PlanOf | commands/lockdown.go:100-126 | an action other than lock, unlock, freeze and unfreeze is rejected; an empty target becomes "current" and an empty reason the fixed text, and lock and freeze keep the duration |
| Lockdown.HasPermission | commands/lockdown.go:129-148 | passes exactly for the guild owner or a member with a resolvable role holding Manage Channels or Administrator |
| Lockdown.FreezePermissions | commands/lockdown.go:254-256 | Send Messages and Add Reactions are cleared and every other bit kept |
| Lockdown.UnfreezePermissions | commands/lockdown.go:299-301 | Send Messages and Add Reactions are set and every other bit kept |
| Lockdown.UnfreezeRestores | commands/lockdown.go:254-256 | unfreezing a frozen role restores its permissions exactly when it held both bits before (see also commands/lockdown.go:299-301) |
| Lockdown.FindEveryoneRole | commands/lockdown.go:381-388 | the first role named "@everyone", and none exactly when no role has that name |
| Lockdown.ChangeEveryone | commands/lockdown.go:241-264 | a failed guild lookup or a missing @everyone role ends with its error; otherwise the role's new permissions are the frozen or unfrozen ones, applied exactly when the edit succeeds (see also commands/lockdown.go:287-309) |
| Lockdown.TextChannelsUnderIff | commands/lockdown.go:342-347 | a channel is a target exactly when it is a text channel of the guild, under the current channel's parent for "category" (see also commands/lockdown.go:356-361) |
| Lockdown.FilterTextChannels | commands/lockdown.go:342-361 | the filtering loop yields exactly the text channels, in order |
| Lockdown.TargetChannels | commands/lockdown.go:322-367 | "current" is the current channel whatever its type, "category" and "all" the matching text channels; a failed lookup passes its error on and any other target is an error |
| Lockdown.FailedNames | commands/lockdown.go:159-165 | never more failed names than channels |
| Lockdown.TallyComplete | commands/lockdown.go:159-165 | every target is either counted as a success or named as a failure |
| Lockdown.Tally | commands/lockdown.go:156-165 | the loop's count and names are the reference tally, and together they cover every channel (see also commands/lockdown.go:206-215) |
| Lockdown.FailedList | commands/lockdown.go:178-181 | the failed names joined by ", ", cut to 1000 characters plus "..." when longer |
| Lockdown.TallyFields | commands/lockdown.go:173-185 | the success count when there is one, then the failed list when there is one, then always the reason (see also commands/lockdown.go:223-235) |
| Lockdown.RunReportsSomething | commands/lockdown.go:159-185 | a run over at least one channel always reports a success count or a failed list |
| Lockdown.RunLockOrUnlock | commands/lockdown.go:150-185 | a bad target is refused; "current" writes the channel, "category" every text channel under the current channel's category, "all" every text channel; a failed channel lookup is refused with "❌ チャンネル取得に失敗: " and its error; otherwise the fields describe the tally of the writes (see also commands/lockdown.go:200-235) |
| Activity.PeriodOrDefault | commands/activity.go:70-73 | an empty period means the last seven days, any other is kept |
| Activity.PeriodName | commands/activity.go:167-180 | the seven-day name exactly for "7days" and for every period other than "today", "30days" and "all" |
| Activity.TotalCommands | commands/activity.go:95-98 | the loop's total is the sum of every count in the map |
| Activity.TotalIndependentOfOrder | commands/activity.go:96 | the total is the same whatever order the map is visited in |
| Activity.Entries | commands/activity.go:188-191 | one entry per visited command, with its own count |
| Activity.SwapNext | commands/activity.go:197 | the two neighbours trade places and nothing else changes |
| Activity.BubblePass | commands/activity.go:195-199 | one pass brings the smallest count of the range to its end, keeps the range's elements and leaves the tail alone |
| Activity.BubbleSort | commands/activity.go:194-200 | the array ends non-increasing by count and is a permutation of what it held |
| Activity.Take | commands/activity.go:203-206 | the first `limit` entries, or all when there are fewer |
| Activity.RearrangedEntriesAreStats | commands/activity.go:188-200 | every sorted entry is a command of the map with its own count |
| Activity.RearrangedNamesDistinct | commands/activity.go:188-200 | no command appears twice among the sorted entries |
| Activity.TopKeepsLargest | commands/activity.go:194-206 | no command cut off counts more than one kept |
| Activity.TopOfSorted | commands/activity.go:194-206 | the first `limit` sorted entries are the map's top commands |
| Activity.CollectEntries | commands/activity.go:188-191 | the entry loop fills a new array with one entry per map entry, in visiting order |
| Activity.GetTopCommands | commands/activity.go:187-207 | as many entries as the limit allows, non-increasing by count, each a distinct command with its own count, none left out counting more than one kept |
| Activity.Thresholds | commands/activity.go:225-245 | four strictly increasing bounds starting at 0; "all" and unknown periods share the widest |
| Activity.LevelIndex | commands/activity.go:247-267 | the first band whose bound reaches the total, or the top band above every bound |
| Activity.LevelMonotone | commands/activity.go:247-267 | more commands never give a lower level |
| Activity.ActivityLevel | commands/activity.go:219-270 | the chosen band's emoji and name, then the total in decimal, then the band's description; two totals that give the same line are equal (ActivityLevelInjective) |
| Activity.ActivityLevelInjective | commands/activity.go:219-270 | the level line shows the total: equal lines for one period come from equal totals |
| Activity.NoCommandsLowest | commands/activity.go:247-250 | no commands at all is always the lowest level |
| Brackets.Medal | commands/brackets.go:108-113 | a medal for the first three places, the place number with "." after them |
| Brackets.MedalsDistinct | commands/brackets.go:98-113 | no two places share a mark |
| Brackets.RankLine | commands/brackets.go:116-121 | each list entry is its place mark and the user's name in bold, then the half-width, full-width and total counts in decimal |
| Brackets.WriteRanking | commands/brackets.go:97-124 | the builder loop writes exactly the ranking text, one entry per ranked user in order |
| Brackets.RankOf | commands/brackets.go:132-138 | a rank of 0 exactly when the user has no entry, else one more than the position of their first entry |
| Brackets.FindRank | commands/brackets.go:133-138 | the loop stops at the user's first entry and yields that rank (see also commands/brackets.go:189-195) |
| Brackets.ShowRanking | commands/brackets.go:73-165 | a failed lookup and an empty ranking end early; otherwise the list of the top ten; the requester's rank is their place in the top list, else in the full ranking (nothing when that read fails), and it is shown exactly for a requester with pairs placed beyond ten |
| Brackets.Tier | commands/brackets.go:223-230 | no tier comment exactly for 50 pairs or fewer |
| Brackets.Preference | commands/brackets.go:233-248 | half-width when more than twice the full-width count, full-width in the opposite case, balanced when both are used otherwise, and nothing when none of these holds |
| Brackets.FunFact | commands/brackets.go:223-248 | the tier and the preference, joined by a line break exactly when both are present |
| Brackets.UserWithPairsGetsComment | commands/brackets.go:223-248 | a user with pairs, whose counters add up, always gets a comment |
| Brackets.ShowUserStats | commands/brackets.go:167-252 | a failed lookup or a user without pairs ends early; otherwise the rank in the full ranking, the number ranked, the total and the comment when there is one |
| Avatar.ByteDigit | commands/avatar.go:90 | a byte in 0..255, the digit's value for a decimal digit (see also commands/avatar.go:96) |
| Avatar.DefaultAvatarIndexAsWritten | commands/avatar.go:85-99 | as written: the last discriminator digit's value for a legacy discriminator, unreduced; otherwise the two last ID digits summed in a byte, modulo 5 |
| Avatar.LegacyIndexOutOfRange | commands/avatar.go:86-91 | discriminator "1237" is sent to default avatar 7, outside 0 to 4 |
| Avatar.DefaultAvatarIndex | commands/avatar.go:85-99 | the corrected index is always below 5 and differs from the as-written one only by the missing modulo on the legacy path |
| Avatar.LegacyIndexIsDiscriminatorMod5 | commands/avatar.go:86-91 | for an all-digit legacy discriminator the corrected index is the discriminator's value modulo 5 |
| Avatar.AvatarURL | commands/avatar.go:82-101 | corrected: the avatar URL the user call gives when it is not empty, else one of the five default avatars, by the discriminator modulo 5 on the legacy path (see Findings; the fallback runs only when that call returns "") |
| Avatar.WithoutExtension | commands/avatar.go:148-153 | the URL is the result, a ".", and a last piece holding no "." |
| Avatar.FormatLinks | commands/avatar.go:155-163 | three format links, four for an animated avatar |
| Avatar.AvatarFormats | commands/avatar.go:143-166 | a note for an empty URL, another for a URL without ".", and otherwise the format links built on the URL up to its last "." with GIF exactly when the URL holds "a_" |
| Avatar.AvatarSizes | commands/avatar.go:168-182 | "N/A" for an empty URL, otherwise the six size links filled in by index and joined with " • " |
| Avatar.SizeLinkWithoutMarker | commands/avatar.go:177 | a URL without "4096" gives every size link the URL unchanged |
| Avatar.BannerURL | commands/avatar.go:184-196 | none exactly without a banner; otherwise the banner URL with ".gif" for an "a_" banner and ".png" for any other |
| Avatar.UserInfoLines | commands/avatar.go:198-217 | the username and display name first, the discriminator only for a legacy one, the account type, and the nickname last only when the member has one |
| Avatar.UserColor | commands/avatar.go:136-141 | the primary colour exactly for a member with roles, the surface colour otherwise |
| Ping.Band | commands/ping.go:71-84 | every latency is in exactly one of five bands: below the band's bound and at or above the previous one |
| Ping.NegativeLatencyFirstBand | commands/ping.go:72-73 | a negative latency lands in the best band |
| Ping.BandMonotone | commands/ping.go:71-84 | a longer latency never gets a better band |
| Ping.ConnectionQuality | commands/ping.go:71-84 | the quality label of the latency's band |
| Ping.StatusMessage | commands/ping.go:86-99 | the status message of the latency's band |
| Ping.FieldAndFooterAgree | commands/ping.go:71-99 | two latencies get the same status message exactly when they fall in the same band, so the field and the footer always describe the same band |
| WarThunderModels.ModeString | models/warthunder.go:14-25 | each of the three modes has its own name, and "Unknown" exactly for every other value |
| WarThunderModels.ModeEmoji | models/warthunder.go:27-38 | the intended emoji: the aircraft, car and ship for the three modes, and ❓ exactly for every other value |
| WarThunderModels.ModeEmojiMisencoded | models/warthunder.go:27-38 | no mode gets its intended emoji from the text as written: every character of it lies below U+2100 |
| WarThunderModels.RegionalIndicator | models/warthunder.go:56-81 | an upper-case letter maps into the regional-indicator block |
| WarThunderModels.Flag | models/warthunder.go:56-81 | each of the ten nations gets the regional-indicator pair of its country code, anything else the white flag |
| WarThunderModels.FlagMisencoded | models/warthunder.go:56-81 | no flag as written starts with a regional indicator, so none of them is a flag |
| WarThunderModels.CodeFlagInjective | models/warthunder.go:56-81 | different country codes give different flags |
| WarThunderModels.FlagsDistinct | models/warthunder.go:56-81 | the ten named nations get ten different flags |
| WarThunderService.RenderCount | services/warthunder.go:73-137 | when no SQL text holds a "?" of its own, the "?" of the rendered query are exactly its placeholders |
| WarThunderService.Then | services/warthunder.go:73-137 | appending a clause with its arguments to another keeps one argument per placeholder |
| WarThunderService.Base | services/warthunder.go:73-78 | the base query filters by mode and BR range with three placeholders, bound to the mode, the lower and the upper bound |
| WarThunderService.FlagPart | services/warthunder.go:81-95 | a false include flag adds its FALSE clause and no argument; a true one adds nothing |
| WarThunderService.AppendFlag | services/warthunder.go:81-95 | the query text after one flag step is the text before it followed by that flag's part: its FALSE clause for a false flag, nothing for a true one |
| WarThunderService.MarkList | services/warthunder.go:102 | the placeholder list of n values holds exactly n placeholders |
| WarThunderService.MarkListText | services/warthunder.go:102 | the placeholder list renders as strings.Repeat("?,", n-1) + "?" |
| WarThunderService.NotIn | services/warthunder.go:101-106 | a NOT IN clause binds exactly its values, in order, one per placeholder |
| WarThunderService.Exclusion | services/warthunder.go:97-134 | an excluded list adds nothing when it is "" or "[]" or decodes to nothing, and otherwise binds its decoded values in order |
| WarThunderService.TextArgs | services/warthunder.go:104-106 | each decoded name becomes one string argument, in list order |
| WarThunderService.IntArgs | services/warthunder.go:130-132 | each decoded vehicle ID becomes one integer argument, in list order |
| WarThunderService.FiltersPlain | services/warthunder.go:81-134 | the filters add no "?" besides their placeholders |
| WarThunderService.VehicleQueryBalanced | services/warthunder.go:72-139 | for every configuration, the SQL sent holds exactly as many "?" as there are arguments, and ends with the ordering clause |
| WarThunderService.VehicleQueryArgs | services/warthunder.go:78-134 | the arguments are the mode and the BR range, then the excluded nations, types and IDs in order; without a configuration, only the first three |
| WarThunderService.AppendExclusion | services/warthunder.go:97-134 | appending an exclusion clause and its values one at a time gives the clause of Exclusion |
| WarThunderService.BuildVehicleQuery | services/warthunder.go:72-137 | the step-by-step query building produces the specified query and arguments |
| WarThunderService.GetVehicles | services/warthunder.go:139-160 | the rows the database returns, or its error wrapped as "failed to query vehicles" |
| WarThunderService.SpinRoulette | services/warthunder.go:164-185 | an error exactly when the lookup fails or finds nothing, with the source's messages; otherwise a vehicle of the list, paired with the configuration |
| WarThunderService.EveryVehicleCanBeDrawn | services/warthunder.go:174-176 | every vehicle of a non-empty list is the result of some draw |
| WarThunderService.DefaultMaxBR | services/warthunder.go:252-260 | a new configuration's upper BR bound is 12.0 for ground, 7.0 for naval, and 13.0 otherwise |
| WarThunderService.DefaultConfig | services/warthunder.go:237-250 | a new configuration: BR from 1.0 to the mode's bound, no exclusions, premium and squadron vehicles in, event vehicles out |
| WarThunderService.DefaultRangeValid | services/warthunder.go:237-260 | a new configuration's BR range is never empty |
| WarThunderService.DefaultConfigQuery | services/warthunder.go:81-137 | under a new configuration the query filters out event vehicles and nothing else |
| WarThunderService.CreateDefaultConfig | services/warthunder.go:237-268 | the new configuration once it is saved, or the save error |
| WarThunderService.GetRouletteConfig | services/warthunder.go:188-212 | the stored configuration, a new default one when there is no row, or the lookup error wrapped |
| WarThunderService.VehicleCountQuery | services/warthunder.go:291-300 | one argument per placeholder, and an argument exactly when a mode is given |
| WarThunderCommand.ActionOf | commands/warthunder.go:92-110 | "config" and "stats" select their own handlers, and every other action, the empty one included, spins |
| WarThunderCommand.ActionOfName | commands/warthunder.go:101-110 | each action's own name selects that action |
| WarThunderCommand.ParseMode | commands/warthunder.go:114-127 | Air when no mode is given; otherwise "air", "ground" and "naval" in any letter case, each exactly, and the invalid-mode error for anything else |
| WarThunderCommand.ToLowerIdempotent | commands/warthunder.go:117 | lower-casing twice is the same as lower-casing once |
| WarThunderCommand.ParseModeIgnoresCase | commands/warthunder.go:117 | the mode chosen does not depend on letter case |
| WarThunderCommand.ParseModeName | commands/warthunder.go:117-123 | each known mode's own name parses back to that mode |
| WarThunderCommand.WithOverrides | commands/warthunder.go:135-145 | the BR bounds given replace the stored ones, and nothing else in the configuration changes |
| WarThunderCommand.HandleSpin | commands/warthunder.go:113-161 | an invalid mode, a failed configuration lookup and an inverted BR range each get their own refusal before anything is drawn; for a valid spin the result is shown exactly when the vehicle query succeeds with vehicles, and it is the drawn one of them; a failed query and an empty list have their own messages |
| WarThunderCommand.SpinErrorReported | commands/warthunder.go:157-161 | a spin that finds no vehicle reports the service's error |
| WarThunderCommand.CountOrZero | commands/warthunder.go:199-217 | a failed count is shown as 0 |
| WarThunderCommand.StatsValues | commands/warthunder.go:198-227 | four count fields, air, ground, naval and total: each is the count in decimal with its unit when its lookup succeeded, and 0 when it failed |
| WarThunderCommand.StatsQueries | commands/warthunder.go:199-214 | one count per mode, filtered by that mode, then the unfiltered total |
| WarThunderCommand.Markers | commands/warthunder.go:238-248 | a marker for exactly each of premium, squadron and event, in that order |
| WarThunderCommand.SpecialField | commands/warthunder.go:250-268 | the special field appears exactly when the vehicle has a marker, holding the markers joined by " • " |
| WarThunderCommand.VehicleTypeIcon | commands/warthunder.go:283-322 | any type other than the seventeen named ones gets the question mark |
| WarThunderCommand.TypeIconTable | commands/warthunder.go:284-318 | each of the seventeen named types gets its own icon |
| WarThunderCommand.IconsShared | commands/warthunder.go:284-318 | only the attacker and the helicopter share an icon, and no named type gets the question mark |
| WarThunderCommand.GameModeColor | commands/warthunder.go:324-335 | one colour per known mode, and the default blue exactly for the other values |
| WarThunderCommand.ModeColorsDistinct | commands/warthunder.go:324-335 | the known modes have different colours |
| WarThunderCommand.RomanNumeral | commands/warthunder.go:337-358 | ranks 1 to 8 as Roman numerals, every other rank in decimal |
| WarThunderCommand.RomanNumeralInjective | commands/warthunder.go:337-358 | different ranks are shown differently |
| WarThunderCommand.ResultTitle | commands/warthunder.go:255 | the result title is the die, then exactly the mode's emoji, then " ルーレット結果" |
| WarThunderCommand.ResultTitlesDistinct | commands/warthunder.go:255 | the three modes give three different result titles |

## Left out

- Network and RPC calls are inputs, not modelled calls:
  - the HTTP requests of the AI Studio and multimodal adapters and of `DownloadImage`;
  - the Vertex AI prediction client and the genai client.
  The model receives their decoded responses, the HTTP status, the Content-Type and the body length.
- Per-call timeouts and the HTTP client timeout are left out: they depend on the clock.
- Concurrency is left out:
  - the registry mutex and the goroutine per command;
  - the bump-reminder goroutines and their two-hour sleep;
  - the delayed deletion of purge notices and ticket channels;
  - the scheduled unlock and unfreeze of lockdown.
  The pending-reminder delay is modelled as a number (`Bump.ReminderDelay`).
- Floating point is left out:
  - BR values and bounds are reals, without float64 rounding or NaN;
  - the activity progress bar and percentages, and `getServerStats`;
  - the brackets half-width percentage;
  - the generation-config temperatures;
  - the `%.1f` formatting of BR values.
- `GetIntArg` takes an integer-valued option: the truncation of a float option is not modelled.
- The clock is left out: message ages, elapsed times and timestamps are integer inputs, and `getPeriodStart` is not modelled.
- Randomness: `rand.Intn` is a chosen index below the list's length.
- JSON and protobuf `structpb` encoding and decoding are left out; the decoded shapes are datatypes.
  - Excluded-list decoding in the War Thunder service is a function parameter, so a decode error gives whatever that function returns.
- Discord calls are left out: responses, edits, channel and role writes, and message fetches become `Outcome` or value inputs.
  - Embed and modal layouts are modelled only where a property depends on them: titles, fields that appear or not, footers.
- Strings are sequences of characters. Go's byte-based `len` and slicing are modelled per character.
  - This changes the 1900/1800/1000-byte truncations and `truncateText` for non-ASCII text.
  - Go could also cut a multi-byte character in half; the model cannot.
- `GoStrings.ToLower` lowers ASCII letters only, where Go's `strings.ToLower` also lowers other scripts; every comparison in the model is against ASCII words.
- Integer widths: counts and IDs are unbounded integers.
  - 32-bit wrap-around is written out only where the source relies on it: uint8 digit arithmetic in the avatar index and the 32-bit range of `parseColor`.
- Interactions.ScanDecimal: the `Sscanf("%d")` of the ticket auto-close field skips blanks, fails on a newline before the number, and reads an optional sign and the decimal digits up to the first other character.
  - Go's scanner also reports an overflow error for a number beyond 64 bits. That is left out.
- SQL engine specifics are left out:
  - the migrations (database/service.go:18-174) and `InitializeTables`;
  - `CURRENT_TIMESTAMP` and `created_at`/`updated_at` columns;
  - the datetime filter of `GetBumpableGuilds`.
  `GetBumpableGuilds` is not a member: its result is an input of `Bump.CheckPendingReminders`.
- `LogCommand` and `GetCommandStats` are not modelled: the activity command receives the statistics map.
- `SaveRouletteConfig` and `AddVehicle` are single INSERT statements; only their outcome is modelled, as an input.
- The transaction wrapper of the repositories is not part of this model.
- Config loading (viper and dotenv) is left out; `CloudConfig.GoogleCloudConfig` is the record the factory and the container receive.
- The following are not part of this model:
  - `commands/config.go` (a placeholder UI whose feature names repeat those of the interactions file);
  - `commands/embedbuilder.go`, `handlers/events/role_handler.go`, `cmd/bot/main.go`, `bot.Start`/`Stop`;
  - the simple War Thunder command and service;
  - the frontend.
- `container.initServices` builds the non-AI services. Only its effect on which commands exist is modelled.
- Interactions:
  - The bump-settings modal ("modal_bump_settings") is handled by `Interactions.BumpSettingsSubmit` (commands/interactions.go:1686-1760), the route the modal handler takes.
  - `Bump.BumpSettingsSubmit` models the bump package's own copy (bump/handler.go:227-268). It is reached only from a "config_bump_submit" component, which no file of this model creates.
  - `RouteModal` is stated only through `Interactions.TemplateModalRouted` and the setup-submit routes. Unmatched modal IDs fall through to nothing.
  - Ticket creation, closing, transcripts and embed editing are Discord UI and are not modelled, beyond their routing.
- The `Execute` guards of purge and lockdown that look up the guild and the invoking member are Discord lookups. Their outcomes are inputs of `Purge.HasPermission` and `Lockdown.HasPermission`.
- Logger event handlers for member join/leave, channel create/delete, role create/delete and bans are not modelled.
  - Their gating is covered by `Logger.ShouldLog` and `Logger.OtherFlagsIgnored`.
- The avatar command's target user and its member lookup are inputs.
  - The target is the user option, else the invoking user.
  - A failed lookup is `None`. The source replaces it by a member with no nickname and no roles, which `Avatar.UserInfoLines` and `Avatar.UserColor` treat the same way as `None`.
- TranslateCommand.TargetLanguage: the contract states the fallback to 日本語 only.
  - For the ten keys, `TranslateCommand.TargetInitial` and `TranslateCommand.TargetLanguagesDistinct` state that each key gets its own language.
  - The model does not restate the table's names.
- Avatar.AvatarURL: calls the corrected `Avatar.DefaultAvatarIndex`, so its contract promises one of the five default avatars. As written, the legacy path can pick indices 5 to 9 (see Findings, `Avatar.DefaultAvatarIndexAsWritten`). The path is taken only when the user's `AvatarURL("4096")` is empty; the model takes that URL as an input and does not model discordgo's answer for a user without an avatar.
- Interactions.HandleComponentInteraction: routes by the corrected `Interactions.RouteComponent`. As written, the close-confirm and close-cancel buttons are taken by the close prefix (see Findings, `Interactions.RouteComponentAsWritten`).
- Database.Service.ResetGuildSettings: applies the corrected `Database.ResetRow`, which leaves a readable row. As written, the reset writes NULL and the next `GetGuildSettings` fails (see Findings, `Database.ResetAsWrittenUnreadable`).
- Database.Service.GetGuildPrefix: has no error path. The source returns the query's error when the read fails for a reason other than a missing row.
- Database.Service.GetUserBracketStats: has no error path, for the same reason.
- GuildRepository.Repository.GetGuildSettings: has no error path, for the same reason.
- GuildRepository.Repository.GetGuildPrefix: has no error path, for the same reason.
- The guild repository keeps its own view of guild_settings. Whether the columns it names match the table that database/service.go creates is not checked: the two stores are separate classes.
- CommandContext.Context.GetUserArg: models the type switch as written, over an `ArgValue` that may hold a user object. Decoded options never hold one (see Findings).
- The factory's and the legacy service's `os.Setenv("GOOGLE_APPLICATION_CREDENTIALS", …)` (ai/factory.go:116, ai/service.go:32) changes the process environment. That is left out.
- Registry.HandleInteraction: the log lines for unknown commands and failed executions are left out.
- WarThunderService.GetVehicles: a failed row scan ("failed to scan vehicle") is not told apart from a failed query. Both reach the model as the query's error.
- Base64: a decoding error keeps only the text "illegal base64 data". Go's `CorruptInputError` also names the input byte offset where decoding failed (" at input byte N"); the offset is not modelled, so `LegacyService.ExtractImage` and `LegacyService.GenerateImage` report the error without it.
- WarThunderModels.ModeEmoji: the model uses the emoji the source evidently means; the literals as written are mis-encoded (see Findings).
- WarThunderModels.Flag: as for ModeEmoji; the model uses the evidently intended flags.

## Findings

| source | as written | input that shows it | evidently intended | confidence | as-written member | corrected member |
|---|---|---|---|---|---|---|
| commands/interactions.go:97-104 | the `"ticket_close_"` prefix case comes before the `"ticket_close_confirm_"` case and the `"ticket_close_cancel"` case, so it takes both | custom ID `"ticket_close_cancel"`, or `"ticket_close_confirm_"` followed by a channel ID: each shows the close confirmation again | the confirm button closes the ticket and the cancel button cancels | not executed | Interactions.RouteComponentAsWritten, Interactions.CloseButtonsShadowed, Interactions.CloseHandlersUnreachable | Interactions.RouteComponent, Interactions.CloseButtonsRouted, Interactions.CorrectionIsLocal |
| database/service.go:432-476 | resetting a feature writes NULL into TEXT columns, which `GetGuildSettings` scans into Go strings | `ResetGuildSettings(g, "tickets")`, then `GetGuildSettings(g)`: the scan fails on NULL, so the guild's settings can no longer be read | a reset leaves the feature at the values of a guild without a row | not executed | Database.ResetRowAsWritten, Database.ResetAsWrittenUnreadable | Database.ResetRow, Database.ResetRowReadsBack, Database.ResetFeature |
| commands/command.go:138-145 | `GetUserArg` type-asserts the option value to `*discordgo.User`, but decoded JSON gives a USER option's value as the ID string (this rests on discordgo's decoding, which is not part of this model) | any USER option, for example purge's `user` or brackets' `user`: `GetUserArg` returns nil, so purge's user filter and the per-user statistics never apply | the ID is looked up among the interaction's resolved users | not executed | CommandContext.Context.GetUserArg, CommandContext.GetUserArgNeverSome | CommandContext.Context.ResolvedUserArg |
| commands/avatar.go:86-91 | for a legacy discriminator, the default-avatar index is the last digit itself, without the `% 5` the other branch applies; the branch runs only when `AvatarURL("4096")` returns "" (line 83), and discordgo's `User.AvatarURL`, which is not part of this model, answers a user without an avatar with the default-avatar URL, so the defect is probably latent | a user whose `AvatarURL("4096")` is "" with discriminator `"1237"` gets avatar 7; Discord serves default avatars 0 to 4 | the discriminator modulo 5 | not executed; latent unless the avatar call returns "" | Avatar.DefaultAvatarIndexAsWritten, Avatar.LegacyIndexOutOfRange | Avatar.DefaultAvatarIndex, Avatar.LegacyIndexIsDiscriminatorMod5 |
| ai/service.go:139-146 | `GetStructValue().Fields` is read on the prediction, on the first candidate and on the first part with no nil check | a prediction whose first candidate is a string value: `GetStructValue()` is nil and reading `Fields` panics | a value of the wrong kind is a parse failure like any other missing step | not executed | LegacyService.ExtractAnswerAsWritten, LegacyService.CandidateStringPanics | LegacyService.ExtractAnswer, LegacyService.ExtractAnswerPrediction |
| models/warthunder.go:27-38 | the mode emoji literals are UTF-8 bytes read back as Windows-1254 text | `GameModeAir.Emoji()` yields Latin letters and punctuation, all below U+2100 | the aircraft, car, ship and question-mark emoji | not executed | WarThunderModels.ModeEmojiAsWritten, WarThunderModels.ModeEmojiMisencoded | WarThunderModels.ModeEmoji |
| models/warthunder.go:56-81 | the flag literals are mis-encoded the same way | `Nation("USA").Flag()` starts with U+011F, as does every other nation's flag, so none is a flag | the regional-indicator pair of each nation's country code | not executed | WarThunderModels.FlagAsWritten, WarThunderModels.FlagMisencoded | WarThunderModels.Flag, WarThunderModels.CodeFlagInjective, WarThunderModels.FlagsDistinct |