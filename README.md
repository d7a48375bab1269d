# Vanguard Chiropractic voice bot — a Dafny model

The bot answers telephone calls for a chiropractic office through Twilio
webhooks. For each call step it lower-cases what the caller said, runs an
ordered `if/elif` chain of substring (or regular-expression) tests, and builds
a TwiML reply: `<Say>` lines in an Amazon Polly voice, `<Play>` of audio
synthesised by ElevenLabs and kept in a file cache, `<Gather>` prompts that
post the next answer to another route, and `<Redirect>`s. The repository
holds three generations of the bot, and all three are modelled here:

* the main bot under `app/` (routes with English and Spanish chains, the reply
  builder, the hash-keyed audio cache, cache housekeeping, call helpers) and
  the single-file bot `app.py` (booking requests to GoHighLevel, conversation
  history, the keyword fallbacks, the catch-all route);
* the rebuilt bot under `fixed_voice_bot/` (its `speak` helper, routes with
  regular-expression slot matching, its ElevenLabs class and error handler);
* the first bot, `routes.py` and `twilio_utils.py` at the top level.

TwiML is modelled as a `Verb` datatype (`Say`, `Play`, a `<Gather>` with its
children, `Redirect`) and a class `Twiml.TwiML` whose `verbs` the handlers
append to in place, as `VoiceResponse` and `Gather` objects are. External
services are oracles: the ElevenLabs endpoint, the GoHighLevel endpoints,
the OpenAI completion, MD5 and percent-escaping are constant function fields
or parameters, and every class keeps a log of the requests it has posted, so
that contracts can say when a call reaches the network. Cache directories are
a class over a list of file entries (`Files.Directory`). A route is specified
by a plan (a sequence of steps) and by a relation between the plan and the
verbs; the relation states which lines may come out as synthesised audio and
which as Polly speech, and the lemmas prove the shape of every reply
whichever of the two happened.

## Model

| member | source | states |
|---|---|---|
| ElevenLabs.HashInput | app/elevenlabs_integration.py:49-52 | the cache key input starts with the text and ends with the voice id, with one `_` in between |
| ElevenLabs.HashInputCollision | app/elevenlabs_integration.py:51 | ("a_b","c") and ("a","b_c") are different pairs with the same key input, so they share a cache file |
| ElevenLabs.AudioUrl | app/elevenlabs_integration.py:130-131 | the public URL starts with `base + "/audio/"` and the rest of it is the file name |
| ElevenLabs.FilenameFromUrl | app/elevenlabs_integration.py:69-70 | a file name is recovered exactly from URLs that lie under `base + "/audio/"` |
| ElevenLabs.FilenameFromAudioUrl | app/elevenlabs_integration.py:130-131 | stripping `base + "/audio/"` from a public URL gives back the file name |
| ElevenLabs.AudioUrlInjective | app/elevenlabs_integration.py:69-70 | distinct cache files have distinct URLs |
| ElevenLabs.TtsService.constructor | app/elevenlabs_integration.py:25-33 | the service starts with the given settings and no request posted |
| ElevenLabs.TtsService.CacheFileName | app/elevenlabs_integration.py:49-64 | the cache file name is 36 characters: the 32 hex digits of the MD5 of `text_voice`, then `.mp3` |
| ElevenLabs.TtsService.PublicUrl | app/elevenlabs_integration.py:69-70 | the quoted file name equals the file name, so the URL is `AudioUrl(base, file)` |
| ElevenLabs.TtsService.CachedAudioUrl | app/elevenlabs_integration.py:54-73 | a URL comes back exactly when the service is configured and the file exists, and it is the public URL |
| ElevenLabs.TtsService.Resolve | app/elevenlabs_integration.py:140-151 | a URL exists iff the file is cached or a miss is answered with 200; never without configuration |
| ElevenLabs.TtsService.ResolvesWithGrows | app/elevenlabs_integration.py:140-151 | a text that gets a URL keeps getting one while the cache only grows |
| ElevenLabs.TtsService.GenerateAudio | app/elevenlabs_integration.py:75-138 | returns `Resolve`; posts exactly on a miss; adds the cache file exactly on a 200; afterwards a cached lookup returns the same URL |
| ElevenLabs.TtsService.GetAudioUrl | app/elevenlabs_integration.py:140-151 | cache first, then generation: returns `Resolve`, posts exactly on a miss, and afterwards a cached lookup returns the same URL |
| Digest.QuoteUnreserved | app/elevenlabs_integration.py:69 | quoting leaves a string of unreserved characters unchanged |
| Digest.QuoteMp3Name | app/elevenlabs_integration.py:130 | quoting a `<md5 hex>.mp3` file name leaves it unchanged |
| Files.Directory.Create | app/elevenlabs_integration.py:124-125 | writing a new file appends exactly that entry and keeps names distinct |
| Files.Directory.Unlink | app/audio_manager.py:121 | unlinking removes exactly the entries with that name |
| Files.Mp3FilesMembers | app/audio_manager.py:85 | the `*.mp3` glob lists exactly the `.mp3` files of the directory |
| AudioManager.ServeAudio | app/audio_manager.py:36-55 | 200 exactly when the file exists, with the file's bytes, `*` CORS origin, `audio/mpeg` and a one-day cache header; otherwise 404 |
| AudioManager.OptionsAudio | app/audio_manager.py:58-65 | the preflight answer carries the CORS headers and no caching header |
| AudioManager.GetCacheStats | app/audio_manager.py:80-100 | the count and total size are those of the `.mp3` files; when a `stat()` of one of them raises, every figure is zero |
| AudioManager.InsertByMtime | app/audio_manager.py:115 | inserting keeps the multiset of files and adds the file's size to the total |
| AudioManager.InsertKeepsSorted | app/audio_manager.py:115 | inserting into a list sorted by modification time keeps it sorted |
| AudioManager.SortByMtime | app/audio_manager.py:115 | sorting is a permutation and keeps the total size |
| AudioManager.SortByMtimeSorted | app/audio_manager.py:115 | the sorted list is oldest first |
| AudioManager.PruneCount | app/audio_manager.py:118-122 | the loop removes at most every file |
| AudioManager.Pruned | app/audio_manager.py:115-122 | the deleted files are a prefix of the oldest-first list |
| AudioManager.PruneCountEnough | app/audio_manager.py:118 | after the loop the rest fit under the limit, or every file was removed |
| AudioManager.PruneCountMinimal | app/audio_manager.py:118-122 | the loop stops as soon as it may: at each earlier point the total was still over the limit |
| AudioManager.NothingPrunedUnderLimit | app/audio_manager.py:110-112 | nothing is deleted when the statistics could be read and the files already fit |
| AudioManager.PrunedLeavesRest | app/audio_manager.py:115-122 | the `.mp3` files left after deleting the pruned prefix are, with multiplicity, the rest of the oldest-first list |
| AudioManager.PrunedCacheFits | app/audio_manager.py:102-122 | after pruning, the `.mp3` files left total at most the limit, or none is left |
| AudioManager.FirstFault | app/audio_manager.py:119-121 | the first file in the deletion order whose `unlink()` raises: all before it succeed, it fails, or there is none |
| AudioManager.PruneDeleted | app/audio_manager.py:108-127 | the files deleted under I/O errors are a prefix of the pruned files, and none when a `stat()` raises |
| AudioManager.PruneWithoutFaults | app/audio_manager.py:102-124 | without I/O errors, pruning deletes the whole pruned prefix and returns True |
| AudioManager.PruneFailsIff | app/audio_manager.py:108-127 | pruning returns False exactly when the sort raises after a `stat()` error with a negative limit, or a file it must delete raises in `unlink()` |
| AudioManager.PrunedAreOldest | app/audio_manager.py:115-119 | every deleted file is an `.mp3` no younger than any `.mp3` kept |
| AudioManager.PrefixIsOlder | app/audio_manager.py:115-119 | in a list sorted oldest first, a file of the removed prefix is no younger than any file after it |
| AudioManager.ByAgeAreMp3 | app/audio_manager.py:115 | the sorted glob holds only `.mp3` files of the directory |
| AudioManager.PruneSparesOthers | app/audio_manager.py:115-121 | a file that is not `.mp3` is never deleted |
| AudioManager.PruneCache | app/audio_manager.py:102-128 | the loop deletes the pruned prefix up to the first `unlink()` error, returns True exactly when no `stat()` or `unlink()` error stops it, and on success leaves `.mp3` files totalling at most the limit or none |
| AudioManager.ClearDeleted | app/audio_manager.py:72-73 | the files clearing deletes are a prefix of the glob, ending before the first whose `unlink()` raises |
| AudioManager.ClearDeletesAllIff | app/audio_manager.py:67-78 | clearing deletes every `.mp3` file exactly when none of them raises in `unlink()` |
| AudioManager.ClearCache | app/audio_manager.py:67-78 | deletes the glob's files up to the first `unlink()` error and returns True exactly when it deleted them all; on success the directory holds exactly the old files that are not `.mp3` |
| AudioManager.DeleteNext | app/audio_manager.py:72-73 | deleting one more file removes one more name from what is left |
| AudioManager.WithoutAllMp3 | app/audio_manager.py:72-73 | deleting the names of all `.mp3` files leaves exactly the other files |
| AudioManager.NoMp3LeftAfterClear | app/audio_manager.py:85-100 | after a successful clearing, the statistics report zero files and zero bytes, whether or not a `stat()` would raise |
| ResponseBuilder.AddBackgroundAmbiance | app/response_builder.py:139-157 | appends one looping `<Play>` of the ambiance with the volume clamped to 0..100 percent |
| ResponseBuilder.LanguageOf | app/response_builder.py:159-189 | the detected language is either es-MX or en-US |
| ResponseBuilder.DetectLanguage | app/response_builder.py:159-189 | the loop returns es-MX iff some indicator occurs in the lower-cased speech |
| ResponseBuilder.LanguageOfIgnoresCase | app/response_builder.py:179 | detection gives the same answer for the speech and its lower-cased form |
| ResponseBuilder.EnglishMisreadAsSpanish | app/response_builder.py:170-185 | English speech mentioning "doctor" or "times" (which holds "mes") is detected as Spanish |
| ResponseBuilder.FallbackSay | app/response_builder.py:52-58 | a Spanish language maps Polly.Joanna to Polly.Lupe and forces es-MX; other voices and languages pass through |
| ResponseBuilder.SpeechVerb | app/response_builder.py:42-58 | an audio URL becomes one `<Play>` of it; no URL becomes the Polly `<Say>` of the text |
| ResponseBuilder.EnhancedSay | app/response_builder.py:23-62 | appends one verb: `<Play>` of the URL `get_audio_url(text, language)` gives, else the Polly fallback; the language is the voice id of the audio request; a `<Play>` means the audio is in the cache |
| ResponseBuilder.PromptAttrs | app/response_builder.py:85-99 | the gather has the action and language given, and a speech model or hints only when they are truthy |
| ResponseBuilder.NewPromptGather | app/response_builder.py:85-99 | the new gather is empty and has exactly those attributes |
| ResponseBuilder.EnhancedGather | app/response_builder.py:64-137 | appends exactly one `<Gather>` holding the prompt as `enhanced_say` would speak it; a played prompt is in the cache |
| ResponseBuilder.RenderedShape | app/response_builder.py:112 | a rendered prompt is a `<Gather>` with the prompt's action and language; a rendered line is not a gather |
| ResponseBuilder.RendersGatherActions | app/response_builder.py:126 | a reply holds one `<Gather>` per prompt of its plan, with the prompts' actions in order |
| ResponseBuilder.UnconfiguredSpeaksWithPolly | app/response_builder.py:36 | without configuration every line is the Polly fallback |
| ResponseBuilder.PerformStep | app/routes.py:186-240 | one `enhanced_say`/`enhanced_gather` call appends the step's rendering, played as audio exactly when `get_audio_url` gives a URL for it at that moment; it only grows the cache and the posts, leaves both unchanged without an API key, and caches what it plays |
| ResponseBuilder.Perform | app/routes.py:186-240 | successive `enhanced_say`/`enhanced_gather` calls extend the reply by exactly what the plan renders as; every line or prompt that would get an audio URL before the first call is played as audio, and every one played as audio is in the cache; the cache and the posts only grow and stay unchanged without an API key |
| ResponseBuilder.AudioAppend | app/twilio_utils.py:147-161 | two successive groups of calls keep both audio promises for the whole: a line with a URL before the first group still has one before the second, since the cache only grows |
| AppRoutes.IntentOf | app/routes.py:186-229 | the English chain in order: human, then payment, insurance, walk-in, booking, reschedule, fallback |
| AppRoutes.IntentEsOf | app/routes.py:274-366 | the Spanish chain: a request for English first, then the Spanish intents in order |
| AppRoutes.Voice | app/routes.py:65-109 | a first call gets the ambiance, a gather to /handle-response playing the greeting audio, and a redirect to /voice; a later one only the ambiance and a redirect to /handle-response, after appending the speech entry to the speech log |
| AppRoutes.HandleResponse | app/routes.py:121-242 | the reply is the ambiance followed by what the chosen branch's plan renders as; the lower-cased speech is logged once, and a second time when the Spanish handler takes over; the audio cache and the ElevenLabs request log only grow, and stay unchanged without an API key; every line or prompt that has an audio URL when the handler starts is played as audio, and every one played as audio has its file in the cache |
| AppRoutes.RespondInEnglish | app/routes.py:171-240 | booking and rescheduling go to their helpers, every other intent performs its plan; the reply extends by the English plan of the intent; the audio cache and the request log only grow, and stay unchanged without an API key; every line or prompt that has an audio URL when the handler starts is played as audio, and every one played as audio has its file in the cache |
| AppRoutes.HandleSpanishResponse | app/routes.py:254-368 | the reply is the ambiance followed by the Spanish plan; the lower-cased speech is appended to the speech log; the audio cache and the ElevenLabs request log only grow, and stay unchanged without an API key; every line or prompt that has an audio URL when the handler starts is played as audio, and every one played as audio has its file in the cache |
| AppRoutes.HandleTransfer | app/routes.py:380-407 | the reply renders the transfer plan; the audio cache and the request log only grow, and stay unchanged without an API key; every line or prompt that has an audio URL when the handler starts is played as audio, and every one played as audio has its file in the cache |
| AppRoutes.HandleSpanishTransfer | app/routes.py:419-446 | the reply renders the Spanish transfer plan; the audio cache and the request log only grow, and stay unchanged without an API key; every line or prompt that has an audio URL when the handler starts is played as audio, and every one played as audio has its file in the cache |
| AppRoutes.HandleSpanishAppointment | app/routes.py:458-479 | the reply renders the Spanish appointment plan; the audio cache and the request log only grow, and stay unchanged without an API key; every line or prompt that has an audio URL when the handler starts is played as audio, and every one played as audio has its file in the cache |
| AppRoutesProperties.SpanishRequestFirst | app/routes.py:145-164 | "español"/"espanol" wins over every intent: Spanish prompts whose only gather posts to /handle-spanish-response |
| AppRoutesProperties.EnglishOnlyIfDetectedEnglish | app/routes.py:141-169 | English intents are reached only for speech detected as en-US |
| AppRoutesProperties.DelegationIsSpanishHandler | app/routes.py:167-169 | speech detected as Spanish gets exactly the Spanish handler's reply |
| AppRoutesProperties.RescheduleWordBooks | app/routes.py:174-215 | "reschedule" lands in booking, because "schedule" is a booking phrase tested first |
| AppRoutesProperties.RescheduleHoldsBooking | app/routes.py:173-177 | "reschedule" holds the booking phrase "schedule" |
| AppRoutesProperties.ChangeAppointmentHoldsBooking | app/routes.py:173-177 | "change appointment" holds the booking phrase "appointment" |
| AppRoutesProperties.MoveAppointmentHoldsBooking | app/routes.py:173-177 | "move appointment" holds the booking phrase "appointment" |
| AppRoutesProperties.BookingPhraseBlocksReschedule | app/routes.py:204 | speech holding anything that contains a booking phrase never reaches the reschedule branch |
| AppRoutesProperties.ReschedulePhraseWithoutBooking | app/routes.py:215 | a reschedule phrase with no booking phrase is "different time" or "another time" |
| AppRoutesProperties.RescheduleOnlyForOtherTime | app/routes.py:215 | the reschedule branch is reached only through "different time" or "another time" |
| AppRoutesProperties.UnrecognizedOffersTransfer | app/routes.py:226-240 | unrecognised speech gets the fallback line and exactly one gather, posting to /handle-transfer |
| AppRoutesProperties.EnglishRequestFirst | app/routes.py:274-292 | in the Spanish handler a request for English comes first and posts back to /handle-response |
| AppRoutesProperties.SpanishRescheduleOnlyForOtherTime | app/routes.py:347 | the Spanish reschedule branch is reached only through "otra hora" or "otro día" |
| AppRoutesProperties.ReschedulePhraseWithoutBookingEs | app/routes.py:347 | a Spanish reschedule phrase with no Spanish booking phrase is "otra hora" or "otro día" |
| AppRoutesProperties.CambiarCitaHoldsBooking | app/routes.py:296 | "cambiar cita" holds the booking phrase "cita" |
| AppRoutesProperties.MoverCitaHoldsBooking | app/routes.py:296 | "mover cita" holds the booking phrase "cita" |
| AppRoutesProperties.ReprogramarHoldsBooking | app/routes.py:296 | "reprogramar" holds the booking phrase "programar" |
| AppRoutesProperties.TransferConnectsIffAffirmative | app/routes.py:391-405 | connect iff an affirmative substring occurs; otherwise one gather back to /handle-response |
| AppRoutesProperties.BookIsAffirmative | app/routes.py:391 | "book" contains "ok", so saying it connects the caller |
| AppRoutesProperties.SpanishTransferConnectsIffAffirmative | app/routes.py:427-444 | connects exactly when a Spanish affirmative word occurs in the lower-cased speech; otherwise the only gather posts back to /handle-spanish-response; every line is in es-MX |
| AppRoutesProperties.NecesitoIsAffirmative | app/routes.py:430 | "necesito" contains "si", so saying it connects the caller |
| AppRoutesProperties.SpanishAppointmentShape | app/routes.py:469-476 | every reply is two lines ending with the connect-to-scheduling line; "temprano" gets the morning line |
| TwilioUtils.LogFile.Append | app/twilio_utils.py:47-48 | appending to the log adds exactly the entry at its end |
| TwilioUtils.CallerTag | app/twilio_utils.py:42-43 | the caller tag is empty exactly for a caller that is not truthy |
| TwilioUtils.SpeechLogEntry | app/twilio_utils.py:41-44 | `[ts] `, then `[caller] ` only for a truthy caller, then the text and a newline |
| TwilioUtils.ErrorLogEntry | app/twilio_utils.py:65 | `[ts] ERROR: ` followed by the message and a newline |
| TwilioUtils.LogSpeechInput | app/twilio_utils.py:31-53 | appends exactly the speech entry and returns True when the log file can be written; otherwise returns False and leaves the log unchanged |
| TwilioUtils.LogError | app/twilio_utils.py:55-74 | appends exactly the error entry and returns True when the log file can be written; otherwise returns False and leaves the log unchanged |
| TwilioUtils.FaqTopicOf | app/twilio_utils.py:90-100 | hours/open first, then location/address/where, insurance, cost/price/fee, else unknown |
| TwilioUtils.HandleFaq | app/twilio_utils.py:86-107 | speaks one line and returns True exactly when the question was recognised; the audio cache and the request log only grow, and stay unchanged without an API key; every line or prompt that has an audio URL when the handler starts is played as audio, and every one played as audio has its file in the cache |
| TwilioUtils.FaqHoursFirst | app/twilio_utils.py:90 | a question naming hours is about hours whatever else it names |
| TwilioUtils.Offered | app/twilio_utils.py:124 | at most the first three slots are read out |
| TwilioUtils.SlotList | app/twilio_utils.py:124-125 | the list is built exactly when every slot has a formatted time |
| TwilioUtils.SlotListNamesEach | app/twilio_utils.py:125 | each offered time occurs in the list followed by ". " |
| TwilioUtils.SlotsPrompt | app/twilio_utils.py:123-127 | the prompt starts with the fixed prefix and ends with the fixed question |
| TwilioUtils.SlotsPromptNamesOffered | app/twilio_utils.py:123-127 | the prompt names each of the first three slots |
| TwilioUtils.SlotsPromptIgnoresRest | app/twilio_utils.py:124 | slots after the third never change the prompt |
| TwilioUtils.BuildSlotsText | app/twilio_utils.py:123-127 | the loop builds exactly `SlotsPrompt` |
| TwilioUtils.BookingPlanShape | app/twilio_utils.py:117-140 | no slots: the apology and no gather; slots: one gather to /handle-appointment with timeout 5 |
| TwilioUtils.HandleAppointmentBooking | app/twilio_utils.py:109-145 | the reply renders the booking plan; the result says whether slots were offered; the audio cache and the request log only grow, and stay unchanged without an API key; every line or prompt that has an audio URL when the handler starts is played as audio, and every one played as audio has its file in the cache |
| TwilioUtils.HandleAppointmentRescheduling | app/twilio_utils.py:147-161 | the reschedule line, then exactly what booking says, and booking's result; the audio cache and the request log only grow, and stay unchanged without an API key; every line or prompt that has an audio URL when the handler starts is played as audio, and every one played as audio has its file in the cache |
| App.MissingFieldError | app.py:401 | the message is `Missing '<field>' field` with the field recoverable from it |
| App.FirstMissing | app.py:397-401 | nothing is missing iff every field is present; otherwise the first absent one in order |
| App.NothingMissing | app.py:397-401 | validation passes exactly when name, phone, email and selectedSlot are present |
| App.NameSplitRoundTrip | app.py:431-432 | with a space, first name + " " + last name is the name, and the first name has no space |
| App.SingleWordName | app.py:432 | without a space, the first name is the name and the last name is empty |
| App.NameSplit | app.py:431-432 | both cases of the name split |
| App.ContactId | app.py:447 | the id is found under `id`, else `contact.id`, and is never empty |
| App.ContactFor | app.py:428-434 | the contact carries the request's email and phone and its name split in two |
| App.CalendarFor | app.py:455-465 | the appointment carries the contact id, the localised start, the slot, and Central time zones |
| App.JsonBody.constructor | app.py:509 | the body holds the given fields |
| App.GoHighLevel.constructor | app.py:405 | the account starts with the given settings and no request posted |
| App.GoHighLevel.PostContact | app.py:437 | the reply is the oracle's and the post is logged |
| App.GoHighLevel.PostAppointment | app.py:468 | the reply is the oracle's and the post is logged |
| App.BookInternal | app.py:391-487 | a missing field, missing settings or a bad slot fail with no post; otherwise selectedTimezone defaults to Central, the contact is posted, the appointment is posted only for an accepted contact with an id, and the result is "Failed to create contact" with the reply text, "Failed to get contact ID", "Failed to book appointment" with the reply text, or the booking, in that order |
| App.BookStatus | app.py:513-517 | 200 for a booking, 400 iff the error says "Invalid", otherwise 500 |
| App.UpstreamFailuresAre500 | app.py:442-485 | the contact, contact-id and appointment failures are answered 500, whatever their details |
| App.MissingFieldIs500 | app.py:513-514 | a missing-field error is answered 500 |
| App.BadSlotIs400 | app.py:416 | an unparsable slot is answered 400 |
| App.UnconfiguredIs500 | app.py:407 | incomplete settings are answered 500 |
| App.MissingFields | app.py:894-902 | a label is listed iff its field is not provided, in the fixed order |
| App.NothingMissingIffBookable | app.py:875 | nothing is reported missing exactly when booking is attempted |
| App.NothingExtractedMissesAll | app.py:895-902 | with nothing extracted all four labels are asked for, in order |
| App.SystemCountPositive | app.py:88 | some message has the role "system" iff their count is positive |
| App.WithSystemCount | app.py:88-105 | the history ends up with a system message, with exactly one when it had none, put first |
| App.SystemCountAppend | app.py:108-123 | appending user and assistant turns never adds a system message |
| App.ChatHistory.constructor | app.py:84-85 | a new history is empty |
| App.OpenAi.constructor | app.py:89-104 | no conversation yet; the system message is the prompt filled with the configured name, location and phone |
| App.SystemPromptNamesBusiness | app.py:89-104 | the system prompt names the business, its address and its telephone number |
| App.OpenAi.GenerateResponse | app.py:74-134 | without a key: the apology and no change; otherwise a system message if none, the user turn, and the assistant turn on success, stored under the call id |
| App.AudioKey | app.py:236 | the key is `/audio/` followed by the file name |
| App.AudioKeyInjective | app.py:532 | different file names are recorded under different keys |
| App.RStripSlash | app.py:242 | the result is the string without its trailing slashes |
| App.PromptGather | app.py:258 | the gather takes speech or keys, waits 3 seconds, in en-US, posting to the action |
| App.FollowUpGather | app.py:707 | the follow-up gather takes speech only, in en-US, posting to the action |
| App.Speech.constructor | app.py:179-190 | the speaker starts with its settings and an empty `audio_files` |
| App.Speech.Synthesize | app.py:179-221 | audio comes back iff key and voice are set and the endpoint answers 200, and it is the reply's content |
| App.Speech.PlayUrl | app.py:236-242 | the URL played starts with the URL root (no trailing slash) and `/audio/`, and removing that prefix leaves exactly the file key that `serve_audio` looks up |
| App.Speech.ServeAudio | app.py:525-539 | the file is served exactly when its key is recorded and the file exists, with its content |
| App.Speech.EnhancedSay | app.py:224-253 | appends the spoken verb; stored audio is then served under the file's name |
| App.Speech.EnhancedGather | app.py:256-294 | appends one gather holding the spoken prompt, then a redirect to /twilio/voice |
| App.RenderingGathers | app.py:699-751 | every keyword reply holds exactly one gather, posting to the reply's action |
| App.IntentOf | app.py:699-751 | the keyword chain: appointment words first, then hours, then location, else unrecognised |
| App.IntentReply | app.py:699-751 | only the appointment reply posts to the confirmation route; only the unrecognised one asks again |
| App.AppointmentWordsFirst | app.py:699 | "reschedule" or "appointment" is taken as an appointment request |
| App.TimeBeatsLocation | app.py:715 | speech holding "time" and no appointment word gets the opening hours, whatever place it also names |
| App.ConfirmationOf | app.py:796-833 | agreement words first, then refusal words, else unclear |
| App.ConfirmationReply | app.py:796-833 | only a confirmation posts to /twilio/collect_name; the others ask again |
| App.NotGoodConfirms | app.py:796 | "not good" confirms, because "good" is an agreement word tested first |
| App.KnowDeclines | app.py:812 | "know" contains "no", so it refuses unless it agrees |
| App.DeclineWordsCovered | app.py:812 | "not" and "cannot" add nothing to the refusal list |
| App.Answer | app.py:699-751 | a keyword reply renders its line as `enhanced_say` speaks it, then its gather |
| App.IntentFallback | app.py:697-751 | the reply of the keyword chain for the lower-cased speech |
| App.ConfirmFallback | app.py:793-833 | the reply of the confirmation chain for the lower-cased speech |
| App.CollectPhone | app.py:973-1001 | the phone keeps exactly the digits of the speech, each as often as it occurs; the reply is the fixed thanks and a gather asking the next question |
| App.FallbackRoute | app.py:1013-1036 | markup (a Say and a redirect to /twilio-voice) iff the path starts with "twilio"; otherwise 404 |
| App.TwilioHyphenPrefix | app.py:1016 | the second prefix test adds nothing |
| Text.DigitsKeepEveryDigit | app.py:980 | the result holds each digit exactly as often as the input does, and nothing else |
| Text.JoinSplit | app.py:432 | joining the parts of a split with the separator gives back the string |
| Text.SplitCount | app.py:432 | a string splits into more than one part exactly when it holds the separator |
| FixedTts.ElevenLabsApi.constructor | fixed_voice_bot/app/elevenlabs_integration.py:21-26 | key and base default to "", the voice to "Rachel"; nothing posted yet |
| FixedTts.ElevenLabsApi.CacheFileName | fixed_voice_bot/app/elevenlabs_integration.py:41-45 | 36 characters: the text's 32 hex digest digits, then ".mp3" |
| FixedTts.ElevenLabsApi.PublicUrl | fixed_voice_bot/app/elevenlabs_integration.py:52-59 | none iff the base is empty; otherwise under `base + "/audio/"` |
| FixedTts.ElevenLabsApi.DeliversWithGrows | fixed_voice_bot/app/elevenlabs_integration.py:61-106 | a text that is delivered keeps being delivered while the cache only grows |
| FixedTts.ElevenLabsApi.TextToSpeech | fixed_voice_bot/app/elevenlabs_integration.py:61-106 | none without configuration; a hit posts nothing; a miss posts once; a URL iff cached or 200; a 200 stores the file; failures store nothing |
| FixedTts.CacheFileIgnoresVoice | fixed_voice_bot/app/elevenlabs_integration.py:41-45 | the file depends on the text only, not the voice |
| FixedTts.PublicUrlNamesCacheFile | fixed_voice_bot/app/elevenlabs_integration.py:58-59 | stripping `base + "/audio/"` from the URL gives the cache file |
| FixedTts.PublicUrlSeparatesDigests | fixed_voice_bot/app/elevenlabs_integration.py:58-59 | equal URLs mean equal digests |
| FixedErrors.ErrorLogLine | fixed_voice_bot/app/error_handler.py:23-25 | the log line names the type and the error, and the caller only when given |
| FixedErrors.HandleError | fixed_voice_bot/app/error_handler.py:20-32 | the message for the type when configured, otherwise the general one; always a configured message |
| FixedErrors.MessageIgnoresDetails | fixed_voice_bot/app/error_handler.py:23-32 | the message never depends on the error text or the caller |
| FixedErrors.FourMessages | fixed_voice_bot/config/config.py:29-34 | only the four messages can be heard; the general one iff the type is unknown or "general" |
| FixedErrors.ErrorResponse | fixed_voice_bot/app/error_handler.py:35-46 | the speak function's verbs for `handle_error`'s message when given; otherwise exactly one Joanna `<Say>` of that message, which is one of the configured messages |
| FixedErrors.UnknownTypeSaysGeneral | fixed_voice_bot/app/error_handler.py:30-32 | an unknown type is answered with exactly the general message |
| FixedRoutes.Speak | fixed_voice_bot/app/routes.py:37-53 | plays the ambiance and the audio iff the service delivers a URL; otherwise one `<Say>` in the voice; the cache and the posts only grow, and stay unchanged without an API key |
| FixedRoutes.ServeAudio | fixed_voice_bot/app/routes.py:55-58 | the cached file's content iff it exists |
| FixedRoutes.PlayedAudioIsServed | fixed_voice_bot/app/routes.py:47 | the audio played is served under the file name its URL carries |
| FixedRoutes.RenderSnoc | fixed_voice_bot/app/routes.py:131-176 | rendering one more step appends that step's verbs |
| FixedRoutes.RenderGatherActions | fixed_voice_bot/app/routes.py:168-176 | the gathers of a reply are the plan's, whatever was played as audio |
| FixedRoutes.PerformStep | fixed_voice_bot/app/routes.py:131-176 | one `speak`, `append` or `redirect` call appends the step's verbs; a line or prompt is played as audio exactly when `text_to_speech` delivers it at that moment, and is then in the cache; nothing else is played; the cache and posts only grow, unchanged without a key |
| FixedRoutes.Perform | fixed_voice_bot/app/routes.py:131-176 | successive `speak`, `append` and `redirect` calls produce exactly the rendering of the plan; every line or prompt `text_to_speech` would deliver before the first call is played as audio, and every one played is in the cache; the cache and the posts only grow and stay unchanged without an API key |
| FixedRoutes.IntentOf | fixed_voice_bot/app/routes.py:131-176 | human, then payment, insurance, walk-in, booking, reschedule, fallback, each iff no earlier list matched |
| FixedRoutes.Voice | fixed_voice_bot/app/routes.py:65-113 | the reply answers the voice plan; every line played as audio is cached; the cache and the request log only grow, unchanged without an API key |
| FixedRoutes.HandleResponse | fixed_voice_bot/app/routes.py:115-188 | the reply answers the plan of the chosen branch; every line played as audio is cached; the cache and the request log only grow, unchanged without an API key |
| FixedRoutes.HandleAppointment | fixed_voice_bot/app/routes.py:190-297 | the reply answers the appointment plan; every line played as audio is cached; the cache and the request log only grow, unchanged without an API key |
| FixedRoutes.HandleTransfer | fixed_voice_bot/app/routes.py:299-331 | the reply answers the transfer plan; every line played as audio is cached; the cache and the request log only grow, unchanged without an API key |
| FixedRoutesProperties.RescheduleUnreachable | fixed_voice_bot/app/routes.py:144-154 | the reschedule branch is never reached |
| FixedRoutesProperties.RescheduleWordBooks | fixed_voice_bot/app/routes.py:144 | "reschedule" books once no earlier branch caught the speech |
| FixedRoutesProperties.UnrecognizedOffersTransfer | fixed_voice_bot/app/routes.py:164-176 | the fallback line first and exactly one gather, posting to /handle-transfer |
| FixedRoutesProperties.VoiceShape | fixed_voice_bot/app/routes.py:77-101 | a first call gets one gather to /handle-response and ends with a redirect to /voice; a later one only a redirect to /handle-response |
| FixedRoutesProperties.FirstCallShape | fixed_voice_bot/app/routes.py:78-95 | the first-call reply has one gather, posting to /handle-response, and ends with a redirect to /voice |
| FixedRoutesProperties.TomorrowConfirms | fixed_voice_bot/app/routes.py:264 | "tomorrow" as a whole word confirms the appointment and redirects to /voice |
| FixedRoutesProperties.NineAmConfirms | fixed_voice_bot/app/routes.py:206 | "9 am" matches a time pattern, so it is accepted |
| FixedRoutesProperties.DottedNineMissed | fixed_voice_bot/app/routes.py:206 | the `a\.m\.` form does not match "9 a.m." |
| FixedRoutesProperties.YesterdayIsYesOnlyToTransfer | fixed_voice_bot/app/routes.py:314 | "yesterday" does not match `\byes\b`, yet the transfer test connects on it |
| FixedRoutesProperties.AffirmativeWordIsTransferWord | fixed_voice_bot/app/routes.py:249-252 | a whole-word match of a transfer word also passes the transfer test |
| FixedRoutesProperties.TransferConnectsIff | fixed_voice_bot/app/routes.py:314-319 | connect iff a transfer word occurs or the key is 1; otherwise a redirect to /voice |
| Patterns.SearchFromFinds | fixed_voice_bot/app/routes.py:275 | a match anywhere later is found by the search |
| Patterns.LiteralMatches | fixed_voice_bot/app/routes.py:209 | a literal matches exactly where its text occurs |
| Patterns.WordMatchesAt | fixed_voice_bot/app/routes.py:249 | `\bw\b` matches iff w occurs with a word boundary on each side |
| Patterns.WordFound | fixed_voice_bot/app/routes.py:276 | w as a whole word is found by `\bw\b` |
| Patterns.WordSearchContains | fixed_voice_bot/app/routes.py:276 | a match of `\bw\b` implies w occurs |
| Patterns.WordNotFound | fixed_voice_bot/app/routes.py:249 | `\bw\b` is not found where w never occurs with a boundary on each side |
| Patterns.SearchFromWitness | fixed_voice_bot/app/routes.py:275 | a successful search has a match position |
| Patterns.SpacesThen | fixed_voice_bot/app/routes.py:206 | `\s*` then a rest matches only where the rest matches later |
| Patterns.ClockMatchEnds | fixed_voice_bot/app/routes.py:206 | a time match ends with the suffix followed by a boundary |
| Patterns.DottedClockNeedsWordAfter | fixed_voice_bot/app/routes.py:206 | a suffix ending in '.' matches only when a word character follows |
| Patterns.SpacesSkip | fixed_voice_bot/app/routes.py:206 | `\s*` skips any run of whitespace |
| Patterns.ClockFound | fixed_voice_bot/app/routes.py:206 | hour, spaces, suffix with boundaries around them are found |
| RootTwilioUtils.FirstKeyFrom | twilio_utils.py:27-31 | the first key from a position on that occurs, or none |
| RootTwilioUtils.FaqMatch | twilio_utils.py:27-31 | the first key in dictionary order that occurs in the lower-cased question; none iff no key occurs |
| RootTwilioUtils.FaqMatchUnique | twilio_utils.py:27-30 | the first occurring key is the one answered |
| RootTwilioUtils.FaqShape | twilio_utils.py:28-33 | a match gets one answer and no gather; otherwise the fallback and one gather to /handle-transfer |
| RootTwilioUtils.WalkInNeedsUnderscore | twilio_utils.py:23-28 | the walk_in answer needs an underscore in the question |
| RootTwilioUtils.InsuranceBeforePayment | twilio_utils.py:16-24 | insurance is answered before payment |
| RootTwilioUtils.HandleGreeting | twilio_utils.py:7-11 | appends the greeting and returns the same response |
| RootTwilioUtils.HandleFaq | twilio_utils.py:13-33 | the loop appends the first key's answer, or the fallback, and returns the same response |
| RootTwilioUtils.HandleAppointmentBooking | twilio_utils.py:35-49 | appends the offer and a gather to /handle-response, and returns the same response |
| RootTwilioUtils.BookingShape | twilio_utils.py:37-47 | the booking offer is one line and one gather to /handle-response |
| RootTwilioUtils.HandleAppointmentRescheduling | twilio_utils.py:51-56 | appends the reschedule line and returns the same response |
| RootTwilioUtils.HandleMissedCall | twilio_utils.py:58-62 | appends the missed-call line and returns the same response |
| RootTwilioUtils.HandleFallback | twilio_utils.py:64-78 | appends the fallback line and a gather to /handle-transfer, and returns the same response |
| RootRoutes.VoiceWithSpeechIsSilent | routes.py:28-53 | with a SpeechResult only the empty `<Say>`: no gather, no redirect |
| RootRoutes.FirstCallGreets | routes.py:34-51 | a first call gets one gather to /handle-response and ends with a redirect to /voice |
| RootRoutes.IntentOf | routes.py:66-98 | human, payment, insurance, walk-in/appointment/schedule, appointment, reschedule, fallback, in order |
| RootRoutes.BookingUnreachable | routes.py:76-79 | the `'appointment' in speech` branch is never reached |
| RootRoutes.RescheduleUnreachable | routes.py:76-83 | the reschedule branch is never reached |
| RootRoutes.BookingWordsGetWalkInLine | routes.py:76-77 | booking and rescheduling requests get the walk-in line |
| RootRoutes.UnrecognizedOffersTransfer | routes.py:87-98 | the fallback line and exactly one gather, posting to /handle-transfer |
| RootRoutes.TransferConnectsIff | routes.py:112-118 | connect iff a transfer word occurs or the key is 1; otherwise a redirect to /voice |
| RootRoutes.Voice | routes.py:21-53 | the reply is exactly `VoiceVerbs` of the request |
| RootRoutes.HandleResponse | routes.py:55-100 | the reply is exactly `ResponseVerbs` of the speech |
| RootRoutes.HandleTransfer | routes.py:102-120 | the reply is exactly `TransferVerbs` of the speech and keys |

## Left out

- I/O beyond what a reply shows: logging to the console, the `log_error` calls of the routes' `except` paths (app/routes.py:111-113,208-213,219-224,340-345), which run only when a helper raises, the Flask request and response objects, `url_for` (route paths are constants), and the string rendering of TwiML.
- The outer `except` handlers of the route functions, which answer an error message when a library call raises. The failures of the text-to-speech and chat services are modelled as results, and the cache's `stat()` and `unlink()` errors (app/audio_manager.py:76-78,94-100,125-127) as the `IoFaults` parameter of the audio manager; the remaining library calls (TwiML building, string formatting) are taken not to raise.
- Floating point: volumes are whole percentages, cache sizes and limits are whole bytes (`max_size_mb` times 1048576), and the MB figure of `get_cache_stats` is not computed.
- Character classes are modelled for ASCII only (plus the Latin-1 capitals for `str.lower`): `str.isdigit` (the phone filter of app.py:980) keeps `0`-`9` only, where Python also keeps other Unicode digits; `str.strip` (app.py:119,163) and the `\s` of the slot patterns (fixed_voice_bot/app/routes.py:206) take the ASCII characters Python counts as whitespace (space, `\t`-`\r` and `\x1c`-`\x1f`) only, where Python also takes Unicode spaces such as `\x85` and `\xa0`; regular-expression `\w` takes ASCII letters, digits and `_` only.
- Patterns.Search: models the fragment of `re.search` the slot patterns use; an alternation `(?:x|y)` is written as the two patterns it stands for.
- MD5, base64, percent-escaping, the clock, `datetime` parsing and time-zone localisation are oracles; only the properties listed above are assumed of them (an MD5 digest is 32 lower-case hex digits).
- The ElevenLabs, GoHighLevel and OpenAI endpoints are oracles; request headers and voice settings are not modelled.
- ElevenLabs.TtsService.GenerateAudio: the exception path of `requests.post` is modelled as a reply value; the cache file is assumed not to be written partially.
- App.Speech.EnhancedSay / App.Speech.EnhancedGather: the `except` fallback of app.py's `enhanced_say` and `enhanced_gather` (app.py:247-251, 285-292), which answers a Joanna `<Say>` when writing the temporary file raises, is not modelled; the write is taken to succeed.
- FixedTts.ElevenLabsApi.TextToSpeech: a cache write that raises after a 200 reply (fixed_voice_bot/app/elevenlabs_integration.py:94-106) is not modelled; such a failure would return None and could leave a partial file, while the model stores the file and returns a URL on every 200.
- TwilioUtils.HandleAppointmentBooking: on its `except` path (a slot without `formatted_time`, app/twilio_utils.py:141-145) the model answers the appointment-error line and returns False, but does not append the `log_error` entry to the error log.
- ResponseBuilder.EnhancedSay: the exception fallback of `enhanced_say` and `enhanced_gather` is not modelled, since nothing modelled inside them raises.
- App.OpenAi.GenerateResponse: the OpenAI-configured branches of `twilio_intent`, `twilio_appointment_confirm` and `twilio_collect_info` (which depend on the completion text) are not modelled; only their keyword fallbacks are.
- `extract_appointment_info`, `twilio_voice`, `twilio_voice_slash`, `twilio_collect_name`, `generate_voice`, `health_check`, `twilio_test` and `index` in app.py are not modelled: they are glue around an OpenAI call or constant replies.
- The environment variables of app.py and app/elevenlabs_integration.py are constructor parameters; their defaults are recorded as constants.
- fixed_voice_bot/app/twilio_utils.py is not part of this model: the rebuilt routes' booking and rescheduling helpers are represented by what they append and whether they raise (`FixedRoutes.HelperRun`).
- RootRoutes.HandleResponse: routes.py imports the helpers of `app/twilio_utils`; the two branches that would call them are proved unreachable, so no helper is called.
- `get_available_voices` of the rebuilt ElevenLabs class, `log_to_file` of its error handler and the `/log-speech` route are not modelled: they only talk to the network or a log file.
- `send_from_directory` path checks are not modelled: a file name is looked up as given.
- `handle_greeting`, `handle_missed_call` and `handle_fallback` of `app/twilio_utils.py` are not modelled: app/routes.py imports them but never calls them. The Spanish messages of `ERROR_MESSAGES_SPANISH` are not modelled either.
- Concurrency: the module-level dictionaries `audio_files` and `conversation_contexts` are modelled as sequentially updated fields; races between requests are not modelled.
- Behaviour that looks unintended is modelled as written: the root `handle_response` answers booking requests with the walk-in line (routes.py:76-77), so the branch under the comment "Handle appointment scheduling" (routes.py:79-81) is never reached.
