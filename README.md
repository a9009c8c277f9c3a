# video-pipeline, modelled in Dafny

video-pipeline turns conference talk recordings into a searchable index. It is
a chain of AWS Lambda modules:

- the **transcribe** module sends an uploaded audio or video file to AWS
  Transcribe, waits for the job, reshapes its output and stores a
  transcription record;
- the **chunking** module receives the transcript's location and names the
  object its chunks go to;
- the **embedding** module embeds each chunk arriving over SQS and upserts the
  vector with the talk's metadata into a Pinecone index;
- the **question** module answers `POST /query`: it checks an API key and an
  access list of e-mail addresses, embeds the question and returns the
  metadata of the nearest talks.

Around them sit the metadata sanitiser of the transcribe module, the secrets
caches of the question and embedding modules, the script that checks the
question API's OpenAPI 3.0.x description, and the host and key resolution of
the Pinecone client bundled with the question module.

The model follows the source file by file. Pure code (the handlers, the
records and their dict forms, the validators' checks, the configuration
resolution) is written as datatypes, functions and lemmas over a JSON-like
value (`PyJson.Json`) that stands for parsed events and documents, with
Python's exceptions as a `Result` error. Code that changes state step by step
is written imperatively and proved against those functions: the access-list
cache (`AuthUtils.AuthUtil`), the two secrets caches
(`QuestionSecrets.SecretsService`, `EmbeddingSecrets.SecretsService`), the
Pinecone upsert loop, the embedding handler's loop over SQS records, the
OpenAPI validators' error lists, the reshaping loops and the polling loop of
the transcription service, and the sanitiser's loops over fields and
patterns. Every external service (S3, Transcribe, Secrets Manager, OpenAI,
Pinecone), the environment, the clock, `uuid4`, `json.loads`, `csv.reader`
and `urlparse` is a parameter: the model states what the code does with any
answer they give.

The two embedding handlers, `modules/embedding-module/src/handlers/embedding_handler.py`
and `src/handlers/embedding_handler.py`, are the same file; module
`EmbeddingHandler` models both.

The docstring of `sanitize_metadata` (`modules/transcribe-module/src/utils/metadata_utils.py:16-22`) shows '@2024' becoming
'2024'. The code keeps '@', since it is in the allowed class of line 46, and
the test file expects 'Monday @ 9:00 AM' to come through unchanged; the model
follows the code (`MetadataSanitizer.AtSignKept`,
`MetadataSanitizer.MondayAtNineKept`).

## Model

| member | source | states |
|---|---|---|
| MetadataSanitizer.RunEnd | modules/transcribe-module/src/utils/metadata_utils.py:40 | a run of one character class ends at the first character outside the class, and every character before it is in the class (the greedy `+` of the whitespace, control and disallowed passes) |
| MetadataSanitizer.FindChar | modules/transcribe-module/src/utils/metadata_utils.py:38 | the index found holds the character and no earlier index from the start does; None means the character does not occur (`[^>]+>`) |
| MetadataSanitizer.Find | modules/transcribe-module/src/utils/metadata_utils.py:32-36 | a found index is where the closing word occurs (case-insensitively for the script and style passes), inside the text |
| MetadataSanitizer.BlockEnd | modules/transcribe-module/src/utils/metadata_utils.py:32-34 | a script or style block match ends strictly after where it starts and within the text |
| MetadataSanitizer.MatchEnd | modules/transcribe-module/src/utils/metadata_utils.py:30-58 | every pattern's match starting at a position ends after it and within the text, so re.sub makes progress |
| MetadataSanitizer.SubFromKeeps | modules/transcribe-module/src/utils/metadata_utils.py:75 | every character re.sub produces is either a copied character where no match starts or a character of the replacement |
| MetadataSanitizer.NoMatchCopies | modules/transcribe-module/src/utils/metadata_utils.py:75 | where no match starts at any position, re.sub returns the text unchanged |
| MetadataSanitizer.CopyStep | modules/transcribe-module/src/utils/metadata_utils.py:75 | where no match starts at a position, re.sub copies that character and goes on at the next |
| MetadataSanitizer.MatchStep | modules/transcribe-module/src/utils/metadata_utils.py:75 | where a match starts, re.sub writes the replacement and goes on where the match ends |
| MetadataSanitizer.SelfReplacing | modules/transcribe-module/src/utils/metadata_utils.py:75 | where every match re-writes exactly the text it matched, re.sub returns the text unchanged |
| MetadataSanitizer.NoMatchBetween | modules/transcribe-module/src/utils/metadata_utils.py:75 | up to the first match re.sub copies the text, then goes on from that match |
| MetadataSanitizer.NextMatch | modules/transcribe-module/src/utils/metadata_utils.py:75 | re.sub copies up to the next match, writes the replacement and goes on where the match ends |
| MetadataSanitizer.LastMatch | modules/transcribe-module/src/utils/metadata_utils.py:75 | once no further match starts, re.sub copies the rest of the text |
| MetadataSanitizer.OneMatch | modules/transcribe-module/src/utils/metadata_utils.py:75 | a pass whose start character occurs only at its one match replaces exactly that match |
| MetadataSanitizer.SingleMatch | modules/transcribe-module/src/utils/metadata_utils.py:75 | a pass with exactly one match replaces it and keeps the text around it |
| MetadataSanitizer.TwoMatches | modules/transcribe-module/src/utils/metadata_utils.py:75 | a pass with exactly two matches replaces both and keeps the text around and between them |
| MetadataSanitizer.ThreeMatches | modules/transcribe-module/src/utils/metadata_utils.py:75 | a pass with exactly three matches replaces all three and keeps the text around and between them |
| MetadataSanitizer.KeyAbsentSub | modules/transcribe-module/src/utils/metadata_utils.py:30-58 | a pass leaves a text unchanged when a character every one of its matches needs is absent |
| MetadataSanitizer.SingleSpacesKept | modules/transcribe-module/src/utils/metadata_utils.py:40 | the whitespace-run passes (lines 40 and 57) leave a text whose every whitespace is one plain space unchanged |
| MetadataSanitizer.TagPassesKeep | modules/transcribe-module/src/utils/metadata_utils.py:32-38 | the four tag passes leave a text without '<' unchanged |
| MetadataSanitizer.EarlyPassesKeep | modules/transcribe-module/src/utils/metadata_utils.py:32-44 | the passes before the disallowed-character pass leave unchanged a singly spaced text without '<', ':', '/' or '&' |
| MetadataSanitizer.RestorePassesKeep | modules/transcribe-module/src/utils/metadata_utils.py:48-50 | the three restore passes leave a text unchanged when it lacks a letter of each restored word |
| MetadataSanitizer.SpacingPassesKeep | modules/transcribe-module/src/utils/metadata_utils.py:52-55 | the four clean-up passes before the last leave a text without ':', 'M', '&' or '/' unchanged |
| MetadataSanitizer.StagesKeepText | modules/transcribe-module/src/utils/metadata_utils.py:74-75 | when every pass of a range leaves the text unchanged, the loop holds the text across that range |
| MetadataSanitizer.KeptValue | modules/transcribe-module/src/utils/metadata_utils.py:73-82 | a value the pattern list leaves unchanged, with no whitespace at either end and at most 256 long, is sanitised to itself |
| MetadataSanitizer.MondayAtNineKept | modules/transcribe-module/tests/test_metadata_utils.py:39 | 'Monday @ 9:00 AM' is sanitised to itself: the time colon is protected and restored, the space before AM survives and '@' is allowed |
| MetadataSanitizer.EmailKept | modules/transcribe-module/tests/test_metadata_utils.py:36 | 'John.Doe@company.com' is sanitised to itself |
| MetadataSanitizer.SpecialTalkCleaned | modules/transcribe-module/tests/test_metadata_utils.py:37 | '$Special$ Talk #2024' is sanitised to 'Special Talk 2024': '$' and '#' become spaces, the runs of spaces collapse and strip removes the leading one |
| MetadataSanitizer.TrackKept | modules/transcribe-module/tests/test_metadata_utils.py:38 | 'AI/ML & Cloud/DevOps' is sanitised to itself: its slashes and its ampersand are protected, restored and re-spaced as they were |
| MetadataSanitizer.FourFields | modules/transcribe-module/src/utils/metadata_utils.py:63-86 | four allowed fields whose cleaned values are non-empty come out as exactly those four entries |
| MetadataSanitizer.SpecialCharactersCase | modules/transcribe-module/tests/test_metadata_utils.py:33-48 | the special-characters test case: the dictionary of the four values sanitises to the e-mail address, 'Special Talk 2024', the track and the day, and nothing else |
| MetadataSanitizer.StageStep | modules/transcribe-module/src/utils/metadata_utils.py:74-75 | the output of the first n + 1 patterns is pattern n applied to the output of the first n |
| MetadataSanitizer.StagesKeep | modules/transcribe-module/src/utils/metadata_utils.py:74-75 | a character property that every replacement of a range of passes respects survives that range of passes |
| MetadataSanitizer.ControlPassClears | modules/transcribe-module/src/utils/metadata_utils.py:40 | after the control and whitespace pass no control character is left |
| MetadataSanitizer.ColonSlashAmpKeepClear | modules/transcribe-module/src/utils/metadata_utils.py:42-44 | the TIMECOLON, SLASH and AMPERSAND protections bring no control character back |
| MetadataSanitizer.DisallowedPassMakesSafe | modules/transcribe-module/src/utils/metadata_utils.py:46 | after the disallowed-character pass no '<', '>' or control character is left |
| MetadataSanitizer.LaterPassesKeepSafe | modules/transcribe-module/src/utils/metadata_utils.py:48-57 | the restore and clean-up passes bring back no '<', '>' or control character |
| MetadataSanitizer.StageAllIsPatterns | modules/transcribe-module/src/utils/metadata_utils.py:30-58 | running all seventeen passes one by one is the whole pattern list |
| MetadataSanitizer.PatternsMakeSafe | modules/transcribe-module/src/utils/metadata_utils.py:30-58 | whatever the input, the pattern list's output holds no '<', '>' or control character |
| MetadataSanitizer.CategorySlashExample | modules/transcribe-module/src/utils/metadata_utils.py:43 | "AI/ML" has its slash protected as "AISLASHML" |
| MetadataSanitizer.RestoreSlashExample | modules/transcribe-module/src/utils/metadata_utils.py:49 | the restore pass is blind to origin: the literal word SLASH in "SLASHDOT" becomes "/" |
| MetadataSanitizer.TimeColonExample | modules/transcribe-module/src/utils/metadata_utils.py:42 | the colon of "9:00 AM" is protected as TIMECOLON |
| MetadataSanitizer.MeridiemSpaceExample | modules/transcribe-module/src/utils/metadata_utils.py:53 | the space in "9:00 AM" survives the AM/PM pass, whose lookbehind needs 'A' or 'P' before the space |
| MetadataSanitizer.AtSignKept | modules/transcribe-module/src/utils/metadata_utils.py:46 | '@' is in the allowed class and survives the disallowed-character pass |
| MetadataSanitizer.Truncate | modules/transcribe-module/src/utils/metadata_utils.py:81-82 | a value longer than 256 becomes its first 253 characters and "..." (256 in all); a shorter one is unchanged |
| MetadataSanitizer.StripKeeps | modules/transcribe-module/src/utils/metadata_utils.py:78 | strip removes characters only, so a property of every character survives it |
| MetadataSanitizer.TruncateKeeps | modules/transcribe-module/src/utils/metadata_utils.py:81-82 | truncation keeps a safe, stripped value safe and stripped |
| MetadataSanitizer.Clean | modules/transcribe-module/src/utils/metadata_utils.py:73-75 | the text after the pattern list holds no '<', '>' or control character |
| MetadataSanitizer.SanitizeValue | modules/transcribe-module/src/utils/metadata_utils.py:68-82 | a sanitised value is at most 256 long, holds no '<', '>' or control character, and neither starts nor ends with whitespace |
| MetadataSanitizer.SanitizeValueGood | modules/transcribe-module/src/utils/metadata_utils.py:68-82 | every sanitised value meets the output's value predicate |
| MetadataSanitizer.UpdateWellFormed | modules/transcribe-module/src/utils/metadata_utils.py:85-86 | storing a non-empty good value under an allowed key keeps the output well formed |
| MetadataSanitizer.AddItemWellFormed | modules/transcribe-module/src/utils/metadata_utils.py:63-86 | one turn of the loop keeps the output well formed |
| MetadataSanitizer.SanitizeItemsWellFormed | modules/transcribe-module/src/utils/metadata_utils.py:63-86 | every entry of the output has an allowed key and a non-empty, bounded, safe, stripped value |
| MetadataSanitizer.SanitizeItemsKeysFrom | modules/transcribe-module/src/utils/metadata_utils.py:63-86 | every key of the output is the key of some input item |
| MetadataSanitizer.SanitizeItemAt | modules/transcribe-module/src/utils/metadata_utils.py:63-86 | an item's key is in the output exactly when it is allowed and its sanitised value is not empty, and then it maps to that value |
| MetadataSanitizer.SanitizeItemsExactly | modules/transcribe-module/src/utils/metadata_utils.py:5-88 | for a dictionary's items, the output is exactly the allowed items with non-empty sanitised values, each mapped to its sanitised value, and nothing else |
| MetadataSanitizer.SanitizeField | modules/transcribe-module/src/utils/metadata_utils.py:68-82 | the loop over the patterns, strip and truncation compute the sanitised value |
| MetadataSanitizer.AddField | modules/transcribe-module/src/utils/metadata_utils.py:64-86 | the loop body keeps an allowed key with its non-empty sanitised value and leaves the dictionary alone otherwise |
| MetadataSanitizer.SanitizeMetadata | modules/transcribe-module/src/utils/metadata_utils.py:5-88 | None or an empty dictionary gives {}; otherwise the output is the loop's dictionary, and it is well formed |
| TranscriptionService.AltField | modules/transcribe-module/src/services/transcription_service.py:73 | a word item without alternatives yields the default of the field read |
| TranscriptionService.ReshapeItem | modules/transcribe-module/src/services/transcription_service.py:70-77 | an item whose type is not pronunciation or punctuation is skipped; a kept one becomes a dict of exactly type, content, start_time, end_time and confidence, content defaulting to '' and confidence to '0'; only a dict can be read |
| TranscriptionService.ReshapeItems | modules/transcribe-module/src/services/transcription_service.py:64-78 | the loop produces at most one reshaped item per input item |
| TranscriptionService.ReshapeItemsKeepsExactly | modules/transcribe-module/src/services/transcription_service.py:64-78 | the loop succeeds exactly when every item reshapes, and then holds exactly the kept items, reshaped, in input order |
| TranscriptionService.ReshapeAudio | modules/transcribe-module/src/services/transcription_service.py:89-95 | a sentence segment becomes a dict of exactly id, transcript, start_time, end_time and items, transcript defaulting to '' and items to []; only a dict can be read |
| TranscriptionService.ReshapeAudios | modules/transcribe-module/src/services/transcription_service.py:83-96 | the sentence loop succeeds exactly when every segment is a dict, and then reshapes them one for one, in order |
| TranscriptionService.ReshapeItemsShape | modules/transcribe-module/src/services/transcription_service.py:64-78 | every reshaped word item has exactly the five keys |
| TranscriptionService.ProcessTranscriptionSpec | modules/transcribe-module/src/services/transcription_service.py:50-101 | a successful reading comes from a dict document and returns word items and sentence segments each with exactly its five keys |
| TranscriptionService.NoResults | modules/transcribe-module/src/services/transcription_service.py:54-61 | a document without results gives the empty transcript and no segments |
| TranscriptionService.EmptyTranscripts | modules/transcribe-module/src/services/transcription_service.py:55 | an empty transcripts list is an IndexError, not an empty transcript |
| TranscriptionService.UnsizedItemsRaise | modules/transcribe-module/src/services/transcription_service.py:64-66 | truthy items without a length raise len()'s TypeError in the log line before any item is read, and so do truthy audio segments without a length once the items went through (lines 83-85) |
| TranscriptionService.IntItemsRaise | modules/transcribe-module/src/services/transcription_service.py:64-66 | items given as the number 5 give the TypeError "object of type 'int' has no len()" |
| TranscriptionService.CollectItems | modules/transcribe-module/src/services/transcription_service.py:64-78 | the word-item loop computes the reshaped list, stopping at the first item that raises |
| TranscriptionService.CollectAudios | modules/transcribe-module/src/services/transcription_service.py:83-96 | the sentence loop computes the reshaped list, stopping at the first segment that raises |
| TranscriptionService.ProcessTranscription | modules/transcribe-module/src/services/transcription_service.py:35-101 | process_transcription as run, step by step, returns what the reading of the document specifies |
| TranscriptionService.ReshapeItemsStep | modules/transcribe-module/src/services/transcription_service.py:69-78 | one more loop turn appends that item's reshaping |
| TranscriptionService.ReshapeAudiosStep | modules/transcribe-module/src/services/transcription_service.py:88-96 | one more loop turn appends that segment's reshaping |
| TranscriptionService.ReshapeItemsPrefixErr | modules/transcribe-module/src/services/transcription_service.py:69-78 | the word loop's error is that of the first item that raises |
| TranscriptionService.ReshapeAudiosPrefixErr | modules/transcribe-module/src/services/transcription_service.py:88-96 | the sentence loop's error is that of the first segment that raises |
| TranscriptionService.CreateStrategy | modules/transcribe-module/src/services/transcription_service.py:107-122 | every provider, 'aws' in any case or unknown, gets the AWS strategy |
| TranscriptionService.Service.constructor | modules/transcribe-module/src/services/transcription_service.py:128-133 | the output bucket is TRANSCRIPTION_OUTPUT_BUCKET or None, the region TRANSCRIBE_REGION or 'us-east-1', and the strategy the factory's |
| TranscriptionService.Service.SetStrategy | modules/transcribe-module/src/services/transcription_service.py:135-142 | the strategy is replaced and the bucket and region are unchanged |
| TranscriptionService.SplitExt | modules/transcribe-module/src/services/transcription_service.py:162 | os.path.splitext: root and extension concatenate to the path, and the extension is empty or a dot followed by no dot and no slash |
| TranscriptionService.ExtensionShape | modules/transcribe-module/src/services/transcription_service.py:162 | the text from the last dot of the last component is a well-formed extension |
| TranscriptionService.Basename | modules/transcribe-module/src/services/transcription_service.py:204 | os.path.basename is a suffix of the path and holds no slash |
| TranscriptionService.MediaFormat | modules/transcribe-module/src/services/transcription_service.py:162-165 | the media format is the extension without its dot, lower-cased, with no dot and no slash |
| TranscriptionService.MediaType | modules/transcribe-module/src/services/transcription_service.py:167-174 | the media type is video exactly for mp4, avi, mov, mkv and webm, and audio for every other format, known or not |
| TranscriptionService.MediaTypeIgnoresCase | modules/transcribe-module/src/services/transcription_service.py:162-174 | the classification is case-insensitive: the format is already lower case |
| TranscriptionService.RawOutputKey | modules/transcribe-module/src/services/transcription_service.py:186 | the raw output key is raw_transcriptions/ + job name + .json, so the key the job writes is the key the strategy reads |
| TranscriptionService.RawOutputKeyInjective | modules/transcribe-module/src/services/transcription_service.py:50 | different job names have different raw output keys |
| TranscriptionService.OutputKey | modules/transcribe-module/src/services/transcription_service.py:204 | the returned key is under transcriptions/, ends in .json and its stem holds no slash |
| TranscriptionService.StemHasNoSlash | modules/transcribe-module/src/services/transcription_service.py:204 | the stem of a base name holds no slash |
| TranscriptionService.OutputKeyShape | modules/transcribe-module/src/services/transcription_service.py:204 | a slash-free stem gives a key of the stated shape |
| TranscriptionService.BasenameOfPath | modules/transcribe-module/src/services/transcription_service.py:204 | the base name of dir/name is name |
| TranscriptionService.OutputKeyIgnoresDirectory | modules/transcribe-module/src/services/transcription_service.py:204 | the directory part of the input key does not change the output key |
| TranscriptionService.WaitFromCharacterised | modules/transcribe-module/src/services/transcription_service.py:229-257 | from any attempt the loop stops at the first COMPLETED or FAILED status with the matching outcome and message, and times out only when no answer was terminal |
| TranscriptionService.WaitCharacterised | modules/transcribe-module/src/services/transcription_service.py:214-257 | at most max_attempts requests; Completed after a COMPLETED answer, a failure carrying FailureReason or 'Unknown error' after a FAILED one, a timeout message only when none was terminal |
| TranscriptionService.WaitTimesOut | modules/transcribe-module/src/services/transcription_service.py:231-257 | with no terminal answer the loop times out after exactly max_attempts requests |
| TranscriptionService.NoPolls | modules/transcribe-module/src/services/transcription_service.py:229-231 | a non-positive max_attempts makes no request and times out |
| TranscriptionService.WaitForTranscription | modules/transcribe-module/src/services/transcription_service.py:214-257 | the polling loop as run returns the outcome and request count the specification gives |
| TranscriptionService.ProcessMediaAsWrittenNeverSaves | modules/transcribe-module/src/services/transcription_service.py:193-201 | as written, process_media never saves: a completed job whose output was read always ends in the TypeError for audio_segments |
| TranscriptionService.ProcessMediaAsWritten | modules/transcribe-module/src/services/transcription_service.py:144-212 | process_media as written: a failed start, a job that does not complete and an output that cannot be read each give their own error, and a failed upload never gives a key |
| TranscriptionService.ResultArgsAccepted | modules/transcribe-module/src/services/transcription_service.py:193-201 | the record with audio_segments accepts the seven keyword arguments process_media passes and keeps the transcript, the media type and both segment lists |
| TranscriptionService.ProcessMedia | modules/transcribe-module/src/services/transcription_service.py:144-212 | the corrected process_media, building the record that has audio_segments: it saves exactly when the job starts, completes, its output is read and the upload succeeds; then it returns the key derived from the base name and uploads a document with the original key, the transcript, the media type, and the word and sentence segments it was given |
| TranscriptionService.ProcessMediaDocumentRoundTrip | modules/transcribe-module/src/services/transcription_service.py:193-205 | in the corrected process_media, the uploaded document of a completed job reads back with from_dict as the record that was built |
| TranscriptionService.UploadedSegmentsReadBack | modules/transcribe-module/src/services/transcription_service.py:193-205 | in the corrected process_media, the sentence segments process_transcription extracted are what `.get('audio_segments', [])` and from_dict read back from the uploaded document, and the word segments likewise |
| TranscriptionService.ProcessMediaSaves | modules/transcribe-module/src/services/transcription_service.py:193-208 | a completed job with an accepted record uploads that record's to_dict under the output key |
| TranscriptionService.RecordRoundTrip | modules/transcribe-module/src/services/transcription_service.py:193-205 | a record with a non-empty job name survives to_dict and from_dict |
| TranscriptionResults.New | modules/transcribe-module/src/models/transcription_result.py:4-21 | the constructor succeeds exactly when every keyword is a parameter and the three required ones are given; it fills job_name with None, media_type with 'audio' and segments with [] by default, a falsy segments value becomes []; an unknown keyword, checked first, or a missing argument is a TypeError |
| TranscriptionResults.AudioSegmentsRejected | modules/transcribe-module/src/models/transcription_result.py:4 | a call passing audio_segments is a TypeError whatever its other arguments |
| TranscriptionResults.ToDict | modules/transcribe-module/src/models/transcription_result.py:23-45 | the dict always holds the four fields original_file, transcription_text, timestamp and media_type, holds job_name exactly when it is truthy and segments exactly when they are non-empty, and nothing else |
| TranscriptionResults.FromDict | modules/transcribe-module/src/models/transcription_result.py:47-65 | only a dict can be read; a missing media_type becomes 'audio' and missing segments become [] |
| TranscriptionResults.RoundTrip | modules/transcribe-module/src/models/transcription_result.py:23-65 | from_dict(to_dict(r)) gives r back, with a falsy job_name turned into None |
| TranscriptionResults.RoundTripExact | modules/transcribe-module/src/models/transcription_result.py:23-65 | the round trip is exact precisely when job_name is truthy or None |
| IntendedTranscriptionResults.New | modules/transcribe-module/tests/test_transcription_service.py:440-449 | the record with audio_segments: the constructor succeeds exactly when every keyword is one of its seven parameters and the three required ones are given; audio_segments and segments keep a truthy value and default to [] |
| IntendedTranscriptionResults.ToDict | modules/transcribe-module/tests/test_transcription_service.py:451-462 | the dict always holds the four plain fields, and holds job_name, segments and audio_segments exactly when they are truthy, with the record's values |
| IntendedTranscriptionResults.FromDict | modules/transcribe-module/tests/test_transcription_service.py:493-499 | only a dict can be read; a missing media_type becomes 'audio', and missing segments or audio_segments become [] |
| IntendedTranscriptionResults.RoundTrip | modules/transcribe-module/tests/test_transcription_service.py:451-473 | from_dict(to_dict(r)) gives r back, audio segments included, with a falsy job_name turned into None |
| IntendedTranscriptionResults.ExtendsSixFieldRecord | modules/transcribe-module/src/models/transcription_result.py:4-21 | for the same arguments without audio_segments, the record agrees with the six-parameter record on all six fields |
| ProjectTranscriptionResults.ToDict | projects/transcribe-module/src/models/transcription_result.py:17-28 | the dict holds exactly the three fields with the record's values |
| ProjectTranscriptionResults.FromDict | projects/transcribe-module/src/models/transcription_result.py:30-45 | only a dict can be read; each field is the key's value or None when missing |
| ProjectTranscriptionResults.RoundTrip | projects/transcribe-module/src/models/transcription_result.py:17-45 | from_dict(to_dict(r)) gives r back |
| ProjectTranscriptionResults.RoundTripDict | projects/transcribe-module/src/models/transcription_result.py:17-45 | a dict holding the three keys comes back restricted to them |
| ProjectTranscriptionResults.ExtraKeysIgnored | projects/transcribe-module/src/models/transcription_result.py:41-45 | a key outside the three fields does not change the record read |
| LambdaEvents.Raise | modules/transcribe-module/src/utils/error_handler.py:18-19 | a caught exception is reported by its type name and its text |
| LambdaEvents.In | modules/transcribe-module/src/handlers/transcribe_handler.py:30-32 | `in` succeeds exactly on a dict, a list or a string, and then tests key membership, element membership or substring |
| LambdaEvents.Location | modules/transcribe-module/src/handlers/transcribe_handler.py:55-57 | the bucket and key can be read only from a non-empty list whose first element is a dict |
| LambdaEvents.LocationOfRecord | modules/transcribe-module/src/handlers/transcribe_handler.py:55-57 | a list that starts with an S3 record yields that record's bucket name and object key |
| LambdaEvents.OnlyFirstRecordRead | modules/transcribe-module/src/handlers/transcribe_handler.py:55 | the records after the first change nothing |
| LambdaEvents.LocationWithoutS3 | modules/transcribe-module/src/handlers/transcribe_handler.py:55-57 | a first record without an s3 entry gives None for both bucket and key |
| TranscribeHandler.HandleError | modules/transcribe-module/src/utils/error_handler.py:7-28 | a 500 whose body holds the exception's text and the message, and no detail |
| TranscribeHandler.Handle | modules/transcribe-module/src/handlers/transcribe_handler.py:12-97 | every answer is a 200, a 400 or a 500, and exactly the 200s carry a detail entry |
| TranscribeHandler.RequestParametersFirst | modules/transcribe-module/src/handlers/transcribe_handler.py:30-39 | an EventBridge S3 event's requestParameters name the object, whatever else the event holds |
| TranscribeHandler.RequestParametersIncomplete | modules/transcribe-module/src/handlers/transcribe_handler.py:36-37 | requestParameters without a bucketName or a key raise a KeyError naming the first one missing |
| TranscribeHandler.DetailRecordsFirst | modules/transcribe-module/src/handlers/transcribe_handler.py:40-42 | non-empty detail.records win over Records |
| TranscribeHandler.RecordsFallback | modules/transcribe-module/src/handlers/transcribe_handler.py:44-46 | without detail, or with empty detail.records, the records are those of Records |
| TranscribeHandler.NoRecordsRejected | modules/transcribe-module/src/handlers/transcribe_handler.py:48-52 | an event with no records is a 400 "No records found in event" |
| TranscribeHandler.MissingLocationRejected | modules/transcribe-module/src/handlers/transcribe_handler.py:59-63 | a first record with a missing or empty bucket or key is a 400 "Missing bucket or key information" |
| TranscribeHandler.RecordProcessed | modules/transcribe-module/src/handlers/transcribe_handler.py:65-97 | a record with a bucket and a key is processed; the answer is the completed response or the 500 of the exception raised |
| TranscribeHandler.CompletedBody | modules/transcribe-module/src/handlers/transcribe_handler.py:86-91 | the body of a successful answer has exactly four keys and names the source bucket, the source key and the transcript key |
| TranscribeHandler.CompletedDetailReadBack | modules/transcribe-module/src/handlers/transcribe_handler.py:75-85 | the detail.records of a successful answer read back as the output bucket from the environment and the transcript key |
| TranscribeHandler.NotIterableEvent | modules/transcribe-module/src/handlers/transcribe_handler.py:30 | an event that is None, a number or a boolean fails the `in` test and gives a 500 naming its type |
| ProjectTranscribeHandler.Handle | projects/transcribe-module/src/handlers/transcribe_handler.py:12-64 | every answer is a 200, a 400 or a 500, and none carries a detail entry |
| ProjectTranscribeHandler.ModuleHandlerExtendsProject | projects/transcribe-module/src/handlers/transcribe_handler.py:27-61 | on an event without detail, the module's handler answers with the project's status and body, and differs only by the detail of a 200 |
| ProjectTranscribeHandler.DetailIgnored | projects/transcribe-module/src/handlers/transcribe_handler.py:27-32 | an EventBridge event without Records is a 400 |
| Chunks.NewChunk | modules/chunking-module/src/models/chunk.py:5-13 | a chunk built without metadata gets an empty metadata dict |
| Chunks.NewResult | modules/chunking-module/src/models/chunk.py:16-25 | a result built from its four descriptive fields has no chunks and empty metadata |
| Chunks.ChunkToDict | modules/chunking-module/src/models/chunk.py:40-46 | a chunk serialises to a dict with exactly the keys start_time, end_time, content, index and metadata |
| Chunks.ToDict | modules/chunking-module/src/models/chunk.py:27-49 | the dict has exactly the six result keys, carries each descriptive field and the metadata unchanged, and has one chunk entry per chunk |
| Chunks.ChunkRoundTrip | modules/chunking-module/src/models/chunk.py:40-46 | reading a chunk's dict back gives the same chunk |
| Chunks.RoundTrip | modules/chunking-module/src/models/chunk.py:27-49 | reading a result's dict back gives the same result: no field is lost and the chunks keep their order |
| Chunks.ChunkAt | modules/chunking-module/src/models/chunk.py:39-48 | the k-th serialised chunk carries the k-th chunk's index, content, start and end |
| Chunks.NewResultToDict | modules/chunking-module/src/models/chunk.py:24-25 | a freshly built result serialises with an empty chunk list and empty metadata |
| ChunkingService.ProcessMedia | modules/chunking-module/src/services/chunking_service.py:14-29 | the output key is the source key between the prefix "chunks/" and the suffix "-chunks.json" |
| ChunkingService.ProcessMediaInjective | modules/chunking-module/src/services/chunking_service.py:29 | different source keys get different chunk keys, whatever the buckets |
| ChunkingHandler.HandleError | modules/chunking-module/src/utils/error_handler.py:7-34 | a 500 whose body reports the exception's type name, the message and the exception's text |
| ChunkingHandler.Records | modules/chunking-module/src/handlers/chunking_handler.py:35-41 | reading the records succeeds only on a dict event |
| ChunkingHandler.Handle | modules/chunking-module/src/handlers/chunking_handler.py:14-82 | every answer is a 200 or a 500 |
| ChunkingHandler.NoneEventRejected | modules/chunking-module/src/handlers/chunking_handler.py:29-30 | a None event gives a 500 reporting a ValueError "Event cannot be None" |
| ChunkingHandler.RecordsFirst | modules/chunking-module/src/handlers/chunking_handler.py:35 | non-empty Records are used as they are |
| ChunkingHandler.DetailFallback | modules/chunking-module/src/handlers/chunking_handler.py:38-41 | without non-empty Records, the records are those of the detail dict, defaulting to an empty list |
| ChunkingHandler.NoFileAcknowledged | modules/chunking-module/src/handlers/chunking_handler.py:71-78 | an event without records is acknowledged with a 200 that echoes the event |
| ChunkingHandler.MissingLocationAcknowledged | modules/chunking-module/src/handlers/chunking_handler.py:43-48 | a first record without a bucket or key is acknowledged, while the transcribe handler answers the same records with a 400 |
| ChunkingHandler.RecordProcessed | modules/chunking-module/src/handlers/chunking_handler.py:48-69 | a record with a bucket and a key is chunked and answered with the source, the output bucket from the environment and the output key; an exception from the service becomes a 500 |
| ChunkingHandler.TranscriptionHandsOverToChunking | modules/chunking-module/src/handlers/chunking_handler.py:38-69 | the answer of a successful transcription, passed on as the next event, makes the chunking handler process the transcript in the bucket the transcribe handler wrote it to |
| QuestionHandler.MatchesBodyIsFullMatch | modules/question-module/src/handlers/question_handler.py:65-66 | splitting at the first '@' and the last '.' finds a match of the e-mail pattern exactly when the pattern matches the whole text |
| QuestionHandler.ValidateEmail | modules/question-module/src/handlers/question_handler.py:55-66 | an address is accepted exactly when the pattern matches it, the final `$` also matching before one trailing newline |
| QuestionHandler.AcceptedHasOneAt | modules/question-module/src/handlers/question_handler.py:65 | an accepted address holds exactly one '@' |
| QuestionHandler.TrailingNewlineAccepted | modules/question-module/src/handlers/question_handler.py:65-66 | an address followed by one newline is accepted exactly when the address alone matches |
| QuestionHandler.ShortTopLevelRejected | modules/question-module/src/handlers/question_handler.py:65 | a top-level label of one letter is rejected |
| QuestionHandler.CreateResponse | modules/question-module/src/handlers/question_handler.py:383-391 | the response carries the status, the JSON content type and the body |
| QuestionHandler.ErrorResponse | modules/question-module/src/handlers/question_handler.py:413-431 | validation errors answer 400 and authorisation errors 401 with their message; configuration and unexpected errors answer 500 "Internal server error"; processing errors answer 500 "Error processing request" |
| QuestionHandler.ValidateApiKey | modules/question-module/src/handlers/question_handler.py:289-301 | the key passes exactly when the stored key is present and the x-api-key header equals it; a missing key on either side is "Missing API key" |
| QuestionHandler.ApiKeyValid | modules/question-module/src/handlers/question_handler.py:68-87 | the earlier boolean check accepts exactly the headers the raising check accepts |
| QuestionHandler.ValidateQuestionRequest | modules/question-module/src/handlers/question_handler.py:38-45 | a request is valid exactly when the question is a non-blank str and the e-mail a str the pattern accepts, and the question is checked first |
| QuestionHandler.ParseAndValidate | modules/question-module/src/handlers/question_handler.py:303-334 | every failure is a validation or authorisation error, and an accepted request has a non-blank question and an authorised address the pattern accepts |
| QuestionHandler.SetupServices | modules/question-module/src/handlers/question_handler.py:336-346 | the services are set up exactly when both SDK keys are present and non-empty, and otherwise raise "Failed to retrieve required API keys" |
| QuestionHandler.MatchMetadata | modules/question-module/src/handlers/question_handler.py:376 | the metadata list exists exactly when every match has metadata, and then holds each match's metadata in order |
| QuestionHandler.ProcessQuestion | modules/question-module/src/handlers/question_handler.py:348-381 | every failure becomes a processing error, missing SDK keys included; a result holds only pinecone_matches |
| QuestionHandler.Handle | modules/question-module/src/handlers/question_handler.py:393-431 | every answer has the JSON content type and a status of 200, 400, 401 or 500 |
| QuestionHandler.RunWithValidKey | modules/question-module/src/handlers/question_handler.py:400-411 | with a valid key the answer is decided by the request check and then by process_question |
| QuestionHandler.ApiKeyCheckedFirst | modules/question-module/src/handlers/question_handler.py:401-402 | a request without a valid key is a 401 whatever its body |
| QuestionHandler.NoHeadersUnauthorized | modules/question-module/src/handlers/question_handler.py:402 | an event without headers is a 401 "Missing API key" |
| QuestionHandler.RequestErrorsReported | modules/question-module/src/handlers/question_handler.py:404-419 | with a valid key, a failed request check answers 400 or 401 with that check's message |
| QuestionHandler.UnauthorisedEmail | modules/question-module/src/handlers/question_handler.py:330-332 | a well-formed request from an address not on the list is a 401 naming the address |
| QuestionHandler.UnauthorisedRequest | modules/question-module/src/handlers/question_handler.py:303-334 | a body with a valid question and a well-formed but unlisted address fails the request check with "Email not authorized: " and the address |
| QuestionHandler.ValidBodyDecidedByAccess | modules/question-module/src/handlers/question_handler.py:326-334 | once the body is a dict with a valid question and e-mail, only the access list decides |
| QuestionHandler.MissingKeysReportedAsProcessingError | modules/question-module/src/handlers/question_handler.py:379-381 | missing SDK keys reach the client as 500 "Error processing request", because process_question re-wraps the configuration error |
| QuestionHandler.ConfigurationClauseUnreachable | modules/question-module/src/handlers/question_handler.py:421-423 | no error reaching the except clauses is a configuration error |
| QuestionHandler.AnswerHoldsMatchMetadata | modules/question-module/src/handlers/question_handler.py:355-377 | a valid request answers 200 with the metadata of every match, in the order of the matches |
| QuestionHandler.ProcessedMatches | modules/question-module/src/handlers/question_handler.py:355-377 | a query whose matches all carry metadata gives pinecone_matches as their metadata list |
| QuestionHandler.MetadataOfMatches | modules/question-module/src/handlers/question_handler.py:376 | the metadata of a response is read from its matches list |
| QuestionHandler.ValidateRequest | modules/question-module/src/handlers/question_handler.py:89-122 | the check needs a dict; it passes exactly when the message is empty, and a pass means both fields are present, the question is non-blank and the address is well-formed and authorised |
| QuestionHandler.MissingFieldsReportedFirst | modules/question-module/src/handlers/question_handler.py:102-106 | missing fields are reported before anything else |
| QuestionHandler.AuthorizationCheckedLast | modules/question-module/src/handlers/question_handler.py:117-122 | a well-formed request fails only by authorisation, with "Email not authorized" |
| AuthUtils.BucketOfHost | modules/question-module/src/utils/auth_util.py:40 | the bucket is the prefix of the host up to, and not including, its first dot, and holds no dot |
| AuthUtils.KeyOfPath | modules/question-module/src/utils/auth_util.py:41 | the key is the path with all its leading slashes, and only those, removed |
| AuthUtils.AccessListMembers | modules/question-module/src/utils/auth_util.py:50-51 | an address is on the list exactly when some non-empty CSV row has it, stripped and lower-cased, in its first column |
| AuthUtils.EntriesTrimmed | modules/question-module/src/utils/auth_util.py:51 | no entry of the list begins or ends with whitespace |
| AuthUtils.PaddedAddressRejected | modules/question-module/src/utils/auth_util.py:79-80 | an address queried with surrounding whitespace is never authorised, because the query is lower-cased but not stripped |
| AuthUtils.AuthUtil.constructor | modules/question-module/src/utils/auth_util.py:12-20 | the list starts empty with no refresh time and is loaded once; a missing URL or a failed read leaves it empty |
| AuthUtils.AuthUtil.LoadAccessList | modules/question-module/src/utils/auth_util.py:28-62 | without a URL or on a failed read nothing changes; otherwise the list becomes the parsed rows and the refresh time becomes now |
| AuthUtils.AuthUtil.IsAuthorized | modules/question-module/src/utils/auth_util.py:64-83 | the list is reloaded exactly when the cache is stale, and the answer is whether the lower-cased address is on the resulting list |
| AuthUtils.AuthUtil.RefreshAccessList | modules/question-module/src/utils/auth_util.py:85-88 | a forced reload has the same effect as a load |
| AuthUtils.StaleWindow | modules/question-module/src/utils/auth_util.py:22-26 | after a load at time t the cache is stale exactly after t + 300 seconds |
| AuthUtils.LoadRefreshes | modules/question-module/src/utils/auth_util.py:46-54 | a successful read replaces the list by the entries of the rows and stamps the current time |
| QuestionSecrets.SecretName | modules/question-module/src/utils/secrets.py:29 | the document is named after ENVIRONMENT, which defaults to dev |
| QuestionSecrets.UseEnvFallback | modules/question-module/src/utils/secrets.py:30 | the fallback is on when USE_ENV_FALLBACK is unset, and otherwise exactly when its lower-cased value is "true" |
| QuestionSecrets.LoadSpec | modules/question-module/src/utils/secrets.py:39-58 | nothing happens once loaded; a successful load merges the document into the cache and sets the flag; a failure leaves both unchanged and propagates unless it is a ClientError with the fallback on |
| QuestionSecrets.SecretsGlobals.constructor | modules/question-module/src/utils/secrets.py:17-21 | at import the shared cache is empty, nothing is loaded and there is no service |
| QuestionSecrets.SecretsGlobals.GetSecretsService | modules/question-module/src/utils/secrets.py:115-120 | the first call creates the service and every later call returns the same one, leaving the cache alone |
| QuestionSecrets.SecretsService.constructor | modules/question-module/src/utils/secrets.py:26-30 | a service takes its document name and fallback setting from the environment and shares the module's cache |
| QuestionSecrets.SecretsService.LoadSecrets | modules/question-module/src/utils/secrets.py:39-58 | the shared cache, the flag and whether the exception propagates are those of the load specification |
| QuestionSecrets.SecretsService.GetSecret | modules/question-module/src/utils/secrets.py:60-95 | the value and the shared state afterwards are those of the lookup specification: cache, then store, then a non-empty environment variable, never raising |
| QuestionSecrets.SecretsService.GetApiKey | modules/question-module/src/utils/secrets.py:97-99 | the lookup of video-pipeline-api-key |
| QuestionSecrets.SecretsService.GetAccessListUrl | modules/question-module/src/utils/secrets.py:101-103 | the lookup of access_list_url |
| QuestionSecrets.SecretsService.InvalidateCache | modules/question-module/src/utils/secrets.py:105-113 | the shared cache is emptied and the loaded flag cleared |
| QuestionSecrets.CachedKeyAnswered | modules/question-module/src/utils/secrets.py:71-73 | a cached key is answered from the cache whatever the store and the environment hold, and nothing changes |
| QuestionSecrets.LoadedOnce | modules/question-module/src/utils/secrets.py:46-47 | once loaded, the store is not read again and the flag stays set |
| QuestionSecrets.FailedLoadRetried | modules/question-module/src/utils/secrets.py:55-58 | a failed load leaves the flag clear, so the next lookup tries the store again |
| QuestionSecrets.SuccessfulLoadKept | modules/question-module/src/utils/secrets.py:50-53 | a successful load sets the flag and keeps every stored secret, and a key in the document is answered from it |
| QuestionSecrets.EnvironmentFallback | modules/question-module/src/utils/secrets.py:83-91 | the environment answers exactly when the fallback is on and the upper-cased variable is non-empty, and that value is then cached |
| QuestionSecrets.RaisingLoadGivesNone | modules/question-module/src/utils/secrets.py:93-95 | a load that raises gives None, whatever the environment holds |
| QuestionSecrets.SharedCache | modules/question-module/src/utils/secrets.py:17-18 | two services built on the same globals read each other's cached values |
| EmbeddingSecrets.EnvFallback | modules/embedding-module/src/services/secrets_service.py:54-61 | the fallback gives a non-empty upper-cased variable when enabled, and None otherwise |
| EmbeddingSecrets.SecretsService.constructor | modules/embedding-module/src/services/secrets_service.py:20-24 | a new service starts with an empty cache of its own and the same name and fallback rules as the question module |
| EmbeddingSecrets.SecretsService.GetSecret | modules/embedding-module/src/services/secrets_service.py:33-72 | the value and the cache afterwards are those of the lookup specification |
| EmbeddingSecrets.SecretsService.GetOpenaiApiKey | modules/embedding-module/src/services/secrets_service.py:74-76 | the lookup of openai_api_key |
| EmbeddingSecrets.SecretsService.GetPineconeApiKey | modules/embedding-module/src/services/secrets_service.py:78-80 | the lookup of pinecone_api_key |
| EmbeddingSecrets.SecretsService.GetOpenaiOrgId | modules/embedding-module/src/services/secrets_service.py:82-84 | the lookup of openai_org_id |
| EmbeddingSecrets.SecretsService.GetOr | modules/embedding-module/src/services/secrets_service.py:86-96 | the lookup, with the default in place of None or an empty value |
| EmbeddingSecrets.SecretsService.GetOpenaiBaseUrl | modules/embedding-module/src/services/secrets_service.py:86-88 | the lookup of openai_base_url, defaulting to https://api.openai.com/v1 |
| EmbeddingSecrets.SecretsService.GetPineconeEnvironment | modules/embedding-module/src/services/secrets_service.py:90-92 | the lookup of pinecone_environment, defaulting to us-east-1 |
| EmbeddingSecrets.SecretsService.GetPineconeIndexName | modules/embedding-module/src/services/secrets_service.py:94-96 | the lookup of pinecone_index_name, defaulting to talk-embeddings |
| EmbeddingSecrets.FetchedOnce | modules/embedding-module/src/services/secrets_service.py:46-48 | after a fetch the document is cached under the secret's name and the store is not asked again |
| EmbeddingSecrets.FetchedDictAnswers | modules/embedding-module/src/services/secrets_service.py:50 | a fetched dict answers every key itself, a missing key being None with no fallback |
| EmbeddingSecrets.FailedFetchNotCached | modules/embedding-module/src/services/secrets_service.py:51-72 | a failed fetch is not cached and falls back to the environment |
| EmbeddingSecrets.FallbackNotCached | modules/embedding-module/src/services/secrets_service.py:54-59 | values from the environment are never cached; only a fetched document is |
| EmbeddingSecrets.DefaultWhenMissing | modules/embedding-module/src/services/secrets_service.py:88 | a None or empty secret gives the default |
| PineconeStore.MetadataDict | modules/embedding-module/src/services/pinecone_service.py:180-190 | the metadata dict has exactly the nine talk fields |
| PineconeStore.MetadataRoundTrip | modules/embedding-module/src/services/pinecone_service.py:20-31 | the metadata dict carries every field of the talk metadata unchanged |
| PineconeStore.VerifyStorageStatus | modules/embedding-module/src/services/pinecone_service.py:83-110 | the check passes exactly when the statistics were read and the dimension is 1536, and then returns them; every failure is a PineconeServiceError prefixed "Error verifying storage status: " |
| PineconeStore.EnsureIndexExists | modules/embedding-module/src/services/pinecone_service.py:112-145 | a listed index is left alone; otherwise it is created with dimension 1536, the cosine metric and the configured region; every failure is prefixed "Error ensuring index exists: " |
| PineconeStore.Initialize | modules/embedding-module/src/services/pinecone_service.py:44-81 | construction succeeds exactly when a key is configured, the index is ensured and the dimension checks out; the environment defaults to us-east-1 and the index name to talk-embeddings; every failure is prefixed "Failed to initialize Pinecone service: " |
| PineconeStore.InputError | modules/embedding-module/src/services/pinecone_service.py:170-174 | the input passes exactly when the three lists are non-empty and of equal length, and emptiness is reported before unequal lengths |
| PineconeStore.Zip | modules/embedding-module/src/services/pinecone_service.py:177-192 | one tuple per id |
| PineconeStore.PineconeService.constructor | modules/embedding-module/src/services/pinecone_service.py:62-63 | the service holds the resolved key, environment and index name |
| PineconeStore.PineconeService.Connect | modules/embedding-module/src/services/pinecone_service.py:44-81 | a service is made exactly when initialisation succeeds, holding its settings; otherwise the initialisation error is raised |
| PineconeStore.PineconeService.Upsert | modules/embedding-module/src/services/pinecone_service.py:147-220 | the tuples are built in one loop and the outcome is that of the upsert specification: what was sent and the response or the error |
| PineconeStore.UpsertFailure | modules/embedding-module/src/services/pinecone_service.py:215-220 | an exception of the index is rewrapped with the invalid-input prefix exactly when it is a ValueError, subclasses included, and with the upsert-error prefix otherwise |
| PineconeStore.SdkFailureWrapped | modules/embedding-module/src/services/pinecone_service.py:195-220 | when the index raises on well-formed input, the vectors were sent, the statistics are not read, and the error is the rewrapped exception |
| PineconeStore.EmptyInputRefused | modules/embedding-module/src/services/pinecone_service.py:170-171 | empty input is refused before the lengths are compared, and nothing is sent |
| PineconeStore.UnequalInputRefused | modules/embedding-module/src/services/pinecone_service.py:173-174 | non-empty lists of different lengths are refused, and nothing is sent |
| PineconeStore.SentInOrder | modules/embedding-module/src/services/pinecone_service.py:177-198 | the k-th tuple sent is the k-th id with the k-th vector and the k-th metadata's fields |
| PineconeStore.SuccessReport | modules/embedding-module/src/services/pinecone_service.py:200-213 | a success implies the dimension checked out, and reports the number of inputs, the namespace and the total from the statistics |
| PineconeStore.FailedCheckAfterSend | modules/embedding-module/src/services/pinecone_service.py:195-201 | a dimension mismatch found after the upsert fails the call with the doubly prefixed message, although the vectors were already sent |
| PineconeStore.ListedIndexNotCreated | modules/embedding-module/src/services/pinecone_service.py:119-141 | a listed index is not created, and construction then depends only on the dimension check |
| PineconeStore.ConcurrentCreationTolerated | modules/embedding-module/src/services/pinecone_service.py:135-139 | a failed creation is tolerated exactly when its message mentions "already exists" in any case |
| PineconeStore.DefaultsApplied | modules/embedding-module/src/services/pinecone_service.py:62-63 | without configuration the service uses us-east-1 and the talk-embeddings index |
| EmbeddingHandler.EntryOf | modules/embedding-module/src/handlers/embedding_handler.py:41-62 | every entry is a dict whose status is "success" or "error" |
| EmbeddingHandler.RunStopsAtError | modules/embedding-module/src/handlers/embedding_handler.py:66-72 | once an exception leaves the loop, the records after it change nothing |
| EmbeddingHandler.Handle | modules/embedding-module/src/handlers/embedding_handler.py:13-90 | the loop over the records gives the answer of the handler's specification: a 200 with the entries, or a 500 with the text of the exception that left the loop |
| EmbeddingHandler.NoRecordsEmptyBatch | modules/embedding-module/src/handlers/embedding_handler.py:33-34 | an event without Records is answered with a 200 and no entries |
| EmbeddingHandler.InitFailureFatal | modules/embedding-module/src/handlers/embedding_handler.py:29-30 | a failure constructing the services is a 500 carrying its text, whatever the event |
| EmbeddingHandler.OneEntryPerRecord | modules/embedding-module/src/handlers/embedding_handler.py:33-72 | when every body parses to a dict, the loop finishes with exactly one entry per record, the k-th being the entry of the k-th body |
| EmbeddingHandler.RunGivesEntries | modules/embedding-module/src/handlers/embedding_handler.py:34-62 | when every body parses to a dict, the loop carries the last body and the per-record entries in order |
| EmbeddingHandler.DictRecordStep | modules/embedding-module/src/handlers/embedding_handler.py:37-62 | a body that parses to a dict adds its entry and becomes the body an error is reported under |
| EmbeddingHandler.MissingFieldsReported | modules/embedding-module/src/handlers/embedding_handler.py:44-51 | a body without text or chunk_id is reported under its chunk_id or 'unknown', and no service is asked |
| EmbeddingHandler.SuccessOnlyAfterBothCalls | modules/embedding-module/src/handlers/embedding_handler.py:53-62 | an entry is a success exactly when both fields are there and both the embedding and the upsert returned |
| EmbeddingHandler.ServiceFailureReported | modules/embedding-module/src/handlers/embedding_handler.py:66-72 | a failing embedding is reported with its text and the loop goes on |
| EmbeddingHandler.FirstBodyInvalidFatal | modules/embedding-module/src/handlers/embedding_handler.py:66-69 | a first body that does not parse makes the whole batch a 500, because message_body was never bound |
| EmbeddingHandler.LaterBodyInvalidReportsPrevious | modules/embedding-module/src/handlers/embedding_handler.py:66-72 | a later body that does not parse is reported under the chunk_id of the previous body that parsed |
| EmbeddingHandler.UpsertAsCalled | modules/embedding-module/src/services/pinecone_service.py:147-219 | the service's upsert, given the handler's three arguments in its positions, always raises |
| EmbeddingHandler.AsCalledResponseHasNoLen | modules/embedding-module/src/handlers/embedding_handler.py:54-62 | a record with text and a str chunk id whose embedding succeeded is reported as an error with "Error upserting vectors: object of type 'EmbeddingResponse' has no len()", because len() of the response passed as ids raises |
| EmbeddingHandler.NoRecordSucceedsAsWritten | modules/embedding-module/src/handlers/embedding_handler.py:57 | with the real service wired in as the handler calls it, no record is ever reported as a success |
| EmbeddingHandler.CorrectedCallSendsEmbedding | modules/embedding-module/src/handlers/embedding_handler.py:54-57 | the corrected call sends exactly one vector, whose values are the response's `.embedding` list, under the chunk id with the text as metadata |
| EmbeddingHandler.CorrectedCallSucceeds | modules/embedding-module/src/handlers/embedding_handler.py:54-62 | with the upsert called as intended, a record with text and chunk_id is a success once the index accepts the vector made from the response's `.embedding` |
| PineconeConfig.NormalizeHost | modules/question-module/layer/python/pinecone/config/config.py:10-17 | None gives ""; a host gets "https://" in front unless it already starts with "https://" or "http://", in which case it is kept as it is |
| PineconeConfig.NormalizeIdempotent | modules/question-module/layer/python/pinecone/config/config.py:10-17 | normalising a normalised host changes nothing |
| PineconeConfig.NormalizeFromNone | modules/question-module/layer/python/pinecone/config/config.py:11-17 | normalisation is not idempotent from None: None gives "", and "" gives a bare scheme |
| PineconeConfig.UpperCaseSchemeDoubled | modules/question-module/layer/python/pinecone/config/config.py:13-17 | the scheme test is case-sensitive, so an upper-case scheme gets a second one in front |
| PineconeConfig.ResolveApiKey | modules/question-module/layer/python/pinecone/config/config.py:59 | a non-empty key argument wins; otherwise the key is PINECONE_API_KEY from the environment, if set |
| PineconeConfig.Build | modules/question-module/layer/python/pinecone/config/config.py:48-80 | a missing or empty key is reported before a missing host, the build succeeds exactly when both are present, the host is normalised and the other settings pass through with source_tag taken from the extra arguments |
| PineconeConfig.ArgumentKeyWins | modules/question-module/layer/python/pinecone/config/config.py:59 | with a key argument the environment changes nothing |
| PineconeConfig.EmptyHostRejected | modules/question-module/layer/python/pinecone/config/config.py:60-69 | an empty host counts as missing and is never normalised into a bare scheme |
| OpenApiValidator.MissingMembers | modules/question-module/scripts/validate-openapi.py:35-37 | exactly the absent fields are reported, each under the check's prefix |
| OpenApiValidator.MissingExactly | modules/question-module/scripts/validate-openapi.py:49-51 | a listed field is reported exactly when the node lacks it |
| OpenApiValidator.AppendMissing | modules/question-module/scripts/validate-openapi.py:81-83 | the loop appends the message of each absent field, in the order of the field list |
| OpenApiValidator.ValidateOpenapiStructure | modules/question-module/scripts/validate-openapi.py:29-53 | the messages are those of the structure specification: the absent top-level fields, then the version, then the absent info fields, or the exception a value of the wrong shape raises |
| OpenApiValidator.ValidatePaths | modules/question-module/scripts/validate-openapi.py:56-93 | the messages are those of the paths specification |
| OpenApiValidator.FirstUnhashable | modules/question-module/scripts/validate-openapi.py:122 | the first list or dict in a required list, which a set cannot hold, or none when there is none |
| OpenApiValidator.ValidateComponents | modules/question-module/scripts/validate-openapi.py:96-131 | the messages are those of the components specification |
| OpenApiValidator.CatchKeyError | modules/question-module/scripts/validate-openapi.py:150-151 | a KeyError becomes one message naming the key; any other exception passes through |
| OpenApiValidator.RequestExamples | modules/question-module/scripts/validate-openapi.py:139-149 | the request side reports at most one message |
| OpenApiValidator.ResponseExamples | modules/question-module/scripts/validate-openapi.py:154-160 | the response side reports at most one message |
| OpenApiValidator.ValidateExamples | modules/question-module/scripts/validate-openapi.py:134-164 | at most one message per side |
| OpenApiValidator.PathOnDicts | modules/question-module/scripts/validate-openapi.py:140-142 | along dicts a chain of lookups either reaches a dict or stops at a missing key |
| OpenApiValidator.ExamplesNeverRaiseOnDicts | modules/question-module/scripts/validate-openapi.py:134-164 | a document made of dicts never makes the examples check raise, whatever keys are missing |
| OpenApiValidator.ExitStatus | modules/question-module/scripts/validate-openapi.py:167-215 | the exit status is 0 or 1 |
| OpenApiValidator.ValidateDocument | modules/question-module/scripts/validate-openapi.py:183-215 | the script runs the four validators in order, appending their lists, and exits as the exit-status specification says |
| OpenApiValidator.ExitStatusFollowsErrors | modules/question-module/scripts/validate-openapi.py:203-215 | a document that validates without raising exits with 1 exactly when some validator reported an error or the summary raises |
| OpenApiValidator.EmptyDocumentStructure | modules/question-module/scripts/validate-openapi.py:34-37 | an empty document reports the four top-level fields, in order, and nothing else of the structure |
| OpenApiValidator.VersionChecked | modules/question-module/scripts/validate-openapi.py:40-43 | a str version is accepted exactly when it starts with 3.0; a YAML number raises |
| OpenApiValidator.NoPathsNoErrors | modules/question-module/scripts/validate-openapi.py:60-61 | without paths there is nothing to report about them |
| OpenApiValidator.MissingEndpointOneError | modules/question-module/scripts/validate-openapi.py:66-75 | a missing /query or POST is one error and stops the path checks |
| OpenApiValidator.MissingSchemasSkipsRest | modules/question-module/scripts/validate-openapi.py:106-108 | without schemas the components give one error, even when securitySchemes is missing too |
| OpenApiValidator.RequiredComparedAsSet | modules/question-module/scripts/validate-openapi.py:122-123 | the required list is compared as a set: order and repetition do not matter, and nothing else may appear |

## Left out

- Logging, `traceback.format_exc`, `time.sleep` between polls, and the boto3, OpenAI and Pinecone clients themselves: their answers are parameters of the model.
- The S3 helpers, the transcription loader, the OpenAI service, `question_service.py` and the local scripts: they are I/O plumbing. `projects/transcribe-module/src/services/transcription_service.py` is not part of this model; its output key follows the rule of `TranscriptionService.OutputKey`.
- `ConfigBuilder.build_openapi_config`: it depends on a factory that is not part of this model.
- `\w` and `\d` are ASCII letters, digits and `_` in the model, while Python also matches other Unicode letters and digits. `str.lower`/`str.upper` are ASCII-only. `\s` and `str.strip` use Python's whole whitespace set.
- MetadataSanitizer.SanitizeItemsWellFormed and the other sanitiser lemmas take the dictionary as a list of items in iteration order. Python's dict order is insertion order; the model states the result for any order.
- YAML mapping keys are taken to be strings (`PyJson.Json` dicts are keyed by `string`). `yaml.safe_load` reads an unquoted response code such as `200:` as the int 200, and for such a document the test `'200' not in responses` (modules/question-module/scripts/validate-openapi.py:86-91) reports "Missing response definition for status code: 200" although the response is written; the model cannot express that document.
- Loading the OpenAPI file is an `Option<Json>`: `None` stands for a missing file or a YAML error. `set()` iteration order in the components check is a parameter.
- Constructing the Pinecone client is taken to succeed. The `kwargs.pop("api_key")` and `kwargs.pop("host")` branches of `ConfigBuilder.build` are not modelled, because those names are named parameters and never reach `kwargs`.
- A non-empty dict or string where a list of records or segments is expected is not iterated element by element. Python would iterate over its keys or characters and fail on the first `.get`; the model gives that AttributeError directly.
- The UnboundLocalError text of the embedding handler uses the Python 3.11 wording.
- The project transcribe handler's own `error_handler.py` is not part of this model. Its 500 response is taken to be the transcribe module's, `TranscribeHandler.HandleError`.
- `question_handler.py` defines `process_question` (lines 193 and 348) and `lambda_handler` (lines 249 and 393) twice, and Python rebinds those names. Only the later definitions are modelled. `create_error_response`, `create_success_response` and `parse_request_body` (lines 128-191) are defined once, but the later handler does not call them (it answers through `create_response`, line 383), so they are not modelled. Of the earlier group, `validate_request` and `validate_api_key` are modelled.
- QuestionHandler.ConfigurationClauseUnreachable: the ConfigurationError clause of `lambda_handler` is modelled, and it is proved that no error ever reaches it.
- Times are integer seconds, and `datetime.now` is a parameter. Float fields (times, confidences, embeddings) are opaque values on which no arithmetic is done.
- TranscriptionService.ProcessTranscription: the download of `raw_transcriptions/<job>.json` is a parameter. The model starts from the downloaded document, and `TranscriptionService.RawOutputKey` states the key it is read from.
- TranscriptionService.ProcessMedia takes the answers of `start_transcription_job`, the status polls, the strategy, the clock and the upload as parameters. It does not model the file URI or the request parameters sent to Transcribe.

## Findings

| source | as written | input that shows it | evidently intended | confidence | as-written member | corrected member |
|---|---|---|---|---|---|---|
| modules/transcribe-module/src/services/transcription_service.py:193-201 | process_media passes `audio_segments=` to `TranscriptionResult`, whose constructor (modules/transcribe-module/src/models/transcription_result.py:4) has no such parameter, so a job that completes always ends in a TypeError and nothing is saved | any key whose Transcribe job reports COMPLETED and whose output is read | `TranscriptionResult` gets an `audio_segments` field, as the repository's own test of the record (modules/transcribe-module/tests/test_transcription_service.py:440-499) and the chunking module's loader expect: the constructor accepts it, `to_dict()` emits it and `from_dict` reads it back with [] as default; process_media then saves the processed segments | not executed | TranscriptionService.ProcessMediaAsWrittenNeverSaves | TranscriptionService.UploadedSegmentsReadBack |
| modules/embedding-module/src/handlers/embedding_handler.py:57 | the handler calls `upsert_embeddings(chunk_id, embedding, metadata)`, but the method's parameters (modules/embedding-module/src/services/pinecone_service.py:147-153) are vectors, ids and metadata, so the string id is taken for the vector list and the embedding for the id list | a record with text and chunk_id "c1" whose embedding succeeds: `create_embedding` returns an `EmbeddingResponse` (modules/embedding-module/src/services/openai_service.py:12-17), which has no length, so `len(ids)` raises and the record is reported with "Error upserting vectors: object of type 'EmbeddingResponse' has no len()" | pass `[embeddings.embedding]` as the vector list and `[chunk_id]` as the id list | not executed | EmbeddingHandler.AsCalledResponseHasNoLen | EmbeddingHandler.CorrectedCallSucceeds |
