# LLavaImageTagger core, modelled in Dafny

LLavaImageTagger (`llmii`) walks a directory of images. For each image it asks a
vision language model served over HTTP for a caption, then asks the same model
for structured metadata (title, keywords, summary, subject). The prompt for that
second request is built from the file's EXIF tags and the caption. The tool
writes the results back into the file as IPTC/XMP tags and keeps a per-file
record in a TinyDB table. A Qt front end shows the processed images, with
navigation through the history of results.

This project models that pipeline and the front end's result browser, and
proves properties of the model:

- **`LlmProcessor`** (`llm_processor.dfy`) covers:
  - the nine prompt templates;
  - choosing a template for the connected model's name (normalise, substring
    match, first maximum by key length, Alpaca when nothing matches, no
    template for an empty name);
  - prompt composition and the `KCP` session key;
  - the operation-name check before an API call.
- **`Cleaning`** (`cleaning.dfy`) covers:
  - `clean_string` (newline removal, quote folding, `\\` pair removal,
    truncation after the last period);
  - `clean_json` (fenced block or brace span, newline flattening, repair and
    parse, falling back to the text).
- **`FileProcessing`** (`file_processor.dfy`) covers:
  - the EXIF filter and the metadata prompt builder;
  - the XMP tag selection and the `set_tags` call it leads to;
  - image source preparation and the basic file record;
  - `FileProcessor.process_file`, as a class whose `mime_type` and `caption`
    fields are updated in place.
- **`Database`** (`database.dfy`) is the `DatabaseHandler`: an in-memory
  sequence of records with TinyDB's upsert (a field merge) and the basename
  lookup of `file_needs_update`.
- **`Indexing`** (`indexing.dfy`) is `IndexManager.index_files`, a loop over
  candidate files. It is proved equal to a left fold `Run` of a per-file
  transition `Step`, and the pipeline's promises are proved about `Run`.
- **`Gui`** (`gui.dfy`) covers:
  - the history of processed images with its `current_position` cursor
    (`-1` = most recent);
  - the four navigation buttons and the "Image p of n" label;
  - the reset in `run_indexer`;
  - `KeywordWidget.set_keywords`, which lays keywords out five to a row.
- **Supporting modules:**
  - `Values` (`values.dfy`) models the Python values the pipeline handles: JSON
    values, truthiness, `in` and subscripting with their `TypeError`/`KeyError`.
  - `Text` (`text.dfy`) models the string methods it uses.
  - `Configuration` holds the `Config` flags.
  - `Wrappers` holds `Option` and `Result`.

**What is an input instead of code:**
- the HTTP service's answers (`Service.interrogate`, `Service.generate`, the
  model name);
- `json.dumps`, `json.loads`, `repair_json` and `str()` (fields of `JsonLib`);
- exiftool's tag list and whether exiftool could be run;
- the image file's embedded preview and re-encoding;
- file-system facts (relative path, size, times, hash);
- the four random digits of the session key;
- whether the user pressed stop before a file.

Python exceptions that abort the run are modelled as the `Err` side of a
`Result`.

## Model

| member | source | states |
|---|---|---|
| LlmProcessor.Normalize | llmii.py:168-169 | the normal form is no longer than the name and holds only `[a-z0-9]` |
| LlmProcessor.NormalizeSingle | llmii.py:168-169 | one character normalises to its lower-case form when that is in `[a-z0-9]` and to nothing otherwise; with NormalizeConcat this determines the normal form of every name |
| LlmProcessor.NormalizeKeepsNames | llmii.py:168-169 | a name made only of `[a-z0-9]` is its own normal form: no surviving character is dropped or reordered |
| LlmProcessor.NormalizeConcat | llmii.py:168-169 | normalising distributes over concatenation |
| LlmProcessor.NormalizeIdempotent | llmii.py:168-171 | a normalised name is its own normal form, so the model name normalised a second time in the match is unchanged |
| LlmProcessor.NormalizeIgnoresCase | llmii.py:168-169 | names equal up to letter case normalise alike |
| LlmProcessor.NormalizeIgnoresPunctuation | llmii.py:168-169 | a character outside `[a-z0-9]` can be dropped anywhere without changing the normal form |
| LlmProcessor.NormalizeLower | llmii.py:171 | lower-casing the name before normalising changes nothing |
| LlmProcessor.BestMatch | llmii.py:178-186 | `max(..., key=..., default)`: None exactly when no candidate is flagged; otherwise a flagged candidate with the largest key, the earliest among equal keys |
| LlmProcessor.MatchFlags | llmii.py:173-176 | flag j is set exactly when some alias of template j, normalised, is a substring of the normalised name |
| LlmProcessor.Keys | llmii.py:180 | the ranking key of each template is the normalised length of its first alias |
| LlmProcessor.Select | llmii.py:178-188 | the chosen index is the first maximum among the matching templates, or 0 (Alpaca) when none matches |
| LlmProcessor.SelectionUnique | llmii.py:178-188 | at most one index satisfies the selection rule, so the choice is determined by the name |
| LlmProcessor.TemplatesWellFormed | llmii.py:46-103 | the nine templates each have at least one alias |
| LlmProcessor.GetModel | llmii.py:163-188 | no template exactly when the model name is missing or empty; otherwise the template the selection rule picks among the nine |
| LlmProcessor.GetPrompt | llmii.py:190-196 | the prompt is the user marker, the instruction, the content and the assistant marker, in that order; without a template the call fails with a TypeError |
| LlmProcessor.Genkey | llmii.py:198-200 | the key is "KCP" followed by exactly the four drawn digits |
| LlmProcessor.DigitChar | llmii.py:200 | a drawn digit prints as a decimal digit character |
| LlmProcessor.ResolveApiCall | llmii.py:107-114 | an unknown operation fails with ValueError naming it; a known one goes to the service URL followed by the operation's path, by POST exactly for tokencount, generate, check and interrogate |
| LlmProcessor.ProcessorCallsResolve | llmii.py:22-31 | every operation the processor issues is known, and captioning and generation share one endpoint |
| LlmProcessor.NewProcessor | llmii.py:19-105 | the processor carries the configured instruction and URL, the session key "KCP" followed by the four drawn digits in order, the template GetModel selects for the model name, and no template exactly when the name is missing or empty |
| Cleaning.RemoveBackslashPairs | llmii.py:268 | the result is no longer than the text, adds no character, and holds no `\\` pair |
| Cleaning.RemoveBackslashPairsFixed | llmii.py:268 | text without a `\\` pair is left unchanged |
| Cleaning.QuoteFoldingIsIdentity | llmii.py:267 | the quote class holds only the straight quote, so folding quotes changes nothing |
| Cleaning.TruncateAtLastPeriod | llmii.py:269-271 | the result is a prefix ending at the last period, or the whole text when there is no period |
| Cleaning.TruncateFixed | llmii.py:269-271 | text already ending in its last period is left unchanged |
| Cleaning.CleanString | llmii.py:263-273 | strings are cleaned, dictionaries are cleaned as their JSON text, and any other value is returned unchanged |
| Cleaning.CleanTextProperties | llmii.py:265-272 | a cleaned text has no newline and no `\\` pair; if it has a period, it ends there and is the longest such prefix of the substituted text |
| Cleaning.CleanTextIdempotent | llmii.py:263-273 | cleaning a cleaned text changes nothing |
| Cleaning.CleanStringIdempotent | llmii.py:263-273 | `clean_string` applied twice is applied once |
| Cleaning.FencedBlock | llmii.py:284-289 | the text of the first complete fenced json block, stripped; None exactly when there is no complete fence |
| Cleaning.BraceSpan | llmii.py:291-293 | the span from the first `{` to the last `}`; None exactly when no `{` comes before a `}` |
| Cleaning.FenceFree | llmii.py:284-288 | text with no "```json" block closed by "```" yields no fenced block |
| Cleaning.RepairInputFenced | llmii.py:284-288 | when a fenced JSON block exists, the repair input is the stripped text of the first one |
| Cleaning.RepairInputBraces | llmii.py:289-291 | with no fenced block, the repair input is the span from the first `{` to the last `}` |
| Cleaning.RepairInputPlain | llmii.py:284-293 | with neither a fenced block nor a brace pair, the text passes through unchanged |
| Cleaning.RepairText | llmii.py:295-296 | the text handed to the repairer is the extracted text with every newline turned into a space, and nothing else changed |
| Cleaning.ParseOrText | llmii.py:298-302 | the parsed value when the repaired text parses, else the text itself |
| Cleaning.CleanJson | llmii.py:275-302 | None becomes the empty string; a dict is round-tripped through JSON text and parsed back, or else repaired as text; a string is repaired and parsed or returned as text; any other value fails as the regular-expression search would |
| Cleaning.CleanJsonUnparsedIsOneLine | llmii.py:294-302 | a string answer never fails, and an unparsable one comes back on one line |
| FileProcessing.FilterTags | llmii.py:439-445 | a tag survives exactly when its value is not binary and its printed form is shorter than 1000 characters |
| FileProcessing.ToMap | llmii.py:440-444 | the dictionary holds exactly the surviving tag names, and the last entry's name maps to its value |
| FileProcessing.ToMapLastWins | llmii.py:440-444 | every name maps to the value of its last entry, so a later tag overwrites an earlier one |
| FileProcessing.ExifRecord | llmii.py:434-449 | a failed read gives the empty record; otherwise the single key `exif_metadata` holding exactly the surviving tags, each with the value of its last surviving entry |
| FileProcessing.CleanKey | llmii.py:456 | the clean key holds no colon |
| FileProcessing.CleanKeyShape | llmii.py:456 | the clean key is the part of the tag name after its last colon: a suffix without colons, preceded by a colon unless it is the whole name |
| FileProcessing.ListingAppend | llmii.py:455-459 | the listing of two runs of tags is the concatenation of their listings |
| FileProcessing.ListingShape | llmii.py:455-459 | a tag whose clean key is reserved contributes nothing; any other contributes "key is value" and a newline, in place |
| FileProcessing.EntryText | llmii.py:458-459 | the line one tag appends to the prompt |
| FileProcessing.MetadataPrompt | llmii.py:451-464 | the prompt starts with "Metadata:" and ends in a non-space character |
| FileProcessing.MetadataPromptWithoutCaption | llmii.py:461-464 | without a truthy caption the prompt is the listing with trailing whitespace removed |
| FileProcessing.MetadataPromptWithCaption | llmii.py:461-464 | a truthy caption that does not end in whitespace is appended after the listing as the last line, and nothing is stripped |
| FileProcessing.FileProcessor.CreateMetadataPrompt | llmii.py:451-464 | the loop builds exactly the prompt the listing defines |
| FileProcessing.TagEntry | llmii.py:378-388 | a tag is taken only when its flag is set and its key is in the answer; a text answer containing the key, a list containing it, or a non-container answer raises TypeError |
| FileProcessing.FileProcessor.AddTag | llmii.py:378-388 | one conditional assignment: the dictionary gains the tag exactly when TagEntry gives a value, and the error propagates |
| FileProcessing.XmpTags | llmii.py:377-391 | the tag dictionary holds only the five tag names, each exactly when its flag is set and the answer has its key, with that value; the caption tag exactly when caption writing is on and the caption is truthy |
| FileProcessing.XmpTagsOfDict | llmii.py:377-388 | for a dictionary answer the selection never fails and mirrors the four keys |
| FileProcessing.XmpTagsOfText | llmii.py:377-391 | for a text answer the selection fails exactly when an enabled key occurs in the text, and otherwise holds at most the caption |
| FileProcessing.XmpWrite | llmii.py:374-408 | no write under dry run, without the tool, or when selection raised; otherwise the file and the selected tags, with `-P -overwrite_original` exactly when overwrite is set |
| FileProcessing.FileProcessor.BuildXmpTags | llmii.py:377-391 | the rule-by-rule fill gives exactly the dictionary, or the exception, that XmpTags describes |
| FileProcessing.FileProcessor.UpdateXmpTags | llmii.py:374-408 | the method issues exactly the write XmpWrite describes for the current caption |
| FileProcessing.PrepareImage | llmii.py:337-348 | JPEG and PNG go as the file; any other type fails with the exiftool error when the tool cannot run; otherwise a non-empty embedded preview wins, else the re-encoded image, and a decode failure is the remaining error |
| FileProcessing.ExtensionShape | llmii.py:421 | the lower-cased suffix is empty or starts with a dot |
| FileProcessing.BasicMetadata | llmii.py:411-423 | the record has the seven basic keys, the basename as filename, the given relative path, and an extension that is empty or starts with a dot |
| FileProcessing.ProcessedRecord | llmii.py:329 | the processed part holds exactly `llm_metadata` and `Caption` |
| FileProcessing.CaptionStep | llmii.py:314-319 | captioning fails exactly when the image cannot be prepared (exiftool failing or an undecodable file) or there is no template; otherwise the cleaned answer to the image prompt |
| FileProcessing.MetadataStep | llmii.py:320-329 | metadata generation keeps the caption, fails exactly when cleaning the answer fails, stores as `llmMetadata` the cleaned answer to the metadata prompt built from the EXIF listing and the caption, and leads to exactly the write XmpWrite describes |
| FileProcessing.Process | llmii.py:312-329 | processing fails exactly when captioning or metadata generation fails; a success carries the cleaned caption |
| FileProcessing.ProcessStoresReply | llmii.py:312-329 | a success needs a template and a caption, and returns the caption, the cleaned reply to the metadata prompt as `llm_metadata`, and the write XmpWrite describes for that reply |
| FileProcessing.ProcessWithoutTemplate | llmii.py:190-191 | with no template, processing a preparable image raises TypeError |
| FileProcessing.ProcessWrites | llmii.py:390-405 | nothing is written under dry run, and a written caption tag is the caption |
| FileProcessing.FileProcessor.constructor | llmii.py:306-308 | the processor keeps its configuration and LLM client |
| FileProcessing.FileProcessor.ProcessFile | llmii.py:312-329 | the result is Process; `mime_type` is set first; `caption` changes exactly when captioning succeeded |
| Database.Upsert | llmii.py:471-473 | records matching the path are merged with the new fields, the new fields winning; with no match the record is appended |
| Database.UpsertStores | llmii.py:471-473 | after an upsert some record has the path and all the new fields |
| Database.UpsertPreservesOthers | llmii.py:471-473 | other records keep their place and content, and at most the new record is added |
| Database.UpsertIdempotent | llmii.py:471-473 | storing the same record twice is storing it once |
| Database.UpsertKeepsPathsUnique | llmii.py:471-473 | upserts keep relative paths unique |
| Database.Search | llmii.py:479 | the result holds exactly the records whose `relative_path` matches, and is empty exactly when none does |
| Database.NeedsUpdate | llmii.py:475-485 | a file needs an update exactly when no record's `relative_path` is its basename |
| Database.UpToDateAfterUpsert | llmii.py:471-485 | a file whose basename was just stored no longer needs an update |
| Database.SubdirectoryRecordNeverMatches | llmii.py:477-479 | a record stored under a path with a directory part never makes any file up to date |
| Database.DatabaseHandler.constructor | llmii.py:468-469 | the handler opens with the table's records |
| Database.DatabaseHandler.InsertOrUpdate | llmii.py:471-473 | a record without `relative_path` raises KeyError and changes nothing; otherwise the table becomes the upsert |
| Database.DatabaseHandler.FileNeedsUpdate | llmii.py:475-485 | the answer is NeedsUpdate of the current records; the modification time is ignored |
| Indexing.Combined | llmii.py:522 | the combined record carries the file's relative path, the LLM metadata and the caption |
| Indexing.Checked | llmii.py:507-508 | the stop check is counted exactly when a check function was given |
| Indexing.StepSkipped | llmii.py:510-531 | a non-image or up-to-date file only passes the stop check |
| Indexing.StepFailed | llmii.py:519-527 | a failing file ends the run with its exception after being processed |
| Indexing.StepSucceeded | llmii.py:519-525 | a processed file is stored unless dry run, yielded, and its write recorded |
| Indexing.RunAppend | llmii.py:506 | running over two runs of files is running over the first then the second |
| Indexing.HaltedRunIsFinal | llmii.py:505-531 | after an exception no further file is touched |
| Indexing.StopComesFirst | llmii.py:507-508 | a stop request ends the run before the file is even inspected |
| Indexing.NonImageUntouched | llmii.py:512-531 | a file whose type is not `image/*` is neither processed, stored, yielded nor written |
| Indexing.ProcessedExactlyWhenSelected | llmii.py:512-519 | a file is processed exactly when it is an image and force_rehash is set or it needs an update |
| Indexing.StepRecord | llmii.py:516-527 | the stored and yielded record is basic, then EXIF, then processed metadata, later keys winning; a failure stores and yields nothing |
| Indexing.DryRunStoresNothing | llmii.py:523-524 | under dry run the table is never changed |
| Indexing.OnlyImagesProcessed | llmii.py:512-519 | every processed file is a candidate of image type |
| Indexing.RunCounts | llmii.py:505-531 | one stop check per file while the run lasts, none without a check function; the yielded files are at most the processed ones; both lists only grow |
| Indexing.IndexManager.constructor | llmii.py:489-492 | the manager keeps its configuration, table and file processor |
| Indexing.IndexManager.ProcessSelected | llmii.py:516-527 | processing one selected file updates the table and the outputs as StepRecord says |
| Indexing.StepSelected | llmii.py:516-527 | for a selected image, Step counts the check, records the file as processed and then fails or stores as the processing result says |
| Indexing.IndexManager.IndexImage | llmii.py:510-531 | after the stop check, the type and update tests and the processing of one file are exactly Step |
| Indexing.IndexManager.IndexFile | llmii.py:507-531 | one iteration of the loop is exactly Step |
| Indexing.IndexManager.IndexFiles | llmii.py:505-531 | the loop's table, yielded records, checks, processed files, writes and exception are exactly those of Run from the initial table |
| Gui.RowCount | src/llmii_gui.py:531-553 | there is always a first row, and the rows hold n keywords five to a row without an empty row |
| Gui.LayoutShape | src/llmii_gui.py:531-566 | keyword i is in row i/5 at column i%5; every row but the last holds five; the last is non-empty when there are keywords |
| Gui.LayoutSnoc | src/llmii_gui.py:544-566 | one more keyword opens a new row exactly at every fifth keyword after the first, otherwise extends the last row |
| Gui.LayoutKeepsOrder | src/llmii_gui.py:544-566 | reading the rows in order gives back the keywords: none lost, none repeated, order kept |
| Gui.KeywordWidget.constructor | src/llmii_gui.py:494-496 | a new panel has no keywords and no rows |
| Gui.KeywordWidget.Clear | src/llmii_gui.py:520-526 | clearing removes every row and the keywords |
| Gui.KeywordWidget.SetKeywords | src/llmii_gui.py:528-569 | the loop leaves the keywords and exactly the row layout Layout describes |
| Gui.AfterAppend | src/llmii_gui.py:857-862 | a cursor at `-1` (or any cursor once the history has one entry) is `-1` afterwards and so keeps following the newest entry; any other cursor is kept and keeps showing the same entry; validity is preserved |
| Gui.FirstPosition | src/llmii_gui.py:897-901 | on a non-empty history the cursor becomes 0 and shows the first entry; no-op on an empty one |
| Gui.LastPosition | src/llmii_gui.py:934-938 | on a non-empty history the cursor becomes `-1` and shows the newest entry; no-op on an empty one |
| Gui.PrevPosition | src/llmii_gui.py:903-916 | shows one entry back, never before the first; no-op on an empty history, at 0, and at `-1` with a single entry |
| Gui.NextPosition | src/llmii_gui.py:918-932 | shows one entry forward, never past the newest; an explicit cursor never lands on the newest index (that is `-1`) |
| Gui.ButtonsFor | src/llmii_gui.py:940-968 | all buttons off and "No images processed" on an empty history; the label position is the displayed entry plus one and lies in 1..size |
| Gui.ButtonsEnableMoves | src/llmii_gui.py:940-968 | each button is enabled exactly when pressing it would show a different entry |
| Gui.ButtonRules | src/llmii_gui.py:955-968 | next/last enabled exactly when the cursor is explicit and before the last index; first/prev exactly when there are two entries and the cursor is not at 0 |
| Gui.FilenameText | src/llmii_gui.py:891-892 | the label reads nothing when blank; otherwise the part of the path after its last `/`: a suffix of the path with no `/`, preceded by a `/` unless it is the whole path |
| Gui.CaptionText | src/llmii_gui.py:893 | an empty caption reads "No caption generated"; any other is shown as is |
| Gui.ImageIndexerGui.constructor | src/llmii_gui.py:649-675 | the browser starts with an empty history at `-1`, all buttons off, the blank panel, the API not ready |
| Gui.ImageIndexerGui.UpdateApiStatus | src/llmii_gui.py:833-846 | readiness follows the status report |
| Gui.ImageIndexerGui.UpdateNavigationButtons | src/llmii_gui.py:940-968 | the buttons become ButtonsFor the history and cursor |
| Gui.ImageIndexerGui.DisplayImage | src/llmii_gui.py:867-895 | the entry's file name, caption and keyword layout are shown and the buttons refreshed |
| Gui.ImageIndexerGui.UpdateImagePreview | src/llmii_gui.py:849-865 | exactly one entry is appended; the cursor is AfterAppend; the new entry is shown exactly when the browser followed the newest; the browser invariant holds |
| Gui.ImageIndexerGui.NavigateFirst | src/llmii_gui.py:897-901 | the cursor is FirstPosition, the history unchanged, and the screen shows the entry under the cursor |
| Gui.ImageIndexerGui.NavigatePrev | src/llmii_gui.py:903-916 | the cursor is PrevPosition, the history unchanged, and the screen shows the entry under the cursor |
| Gui.ImageIndexerGui.NavigateNext | src/llmii_gui.py:918-932 | the cursor is NextPosition, the history unchanged, and the screen shows the entry under the cursor |
| Gui.ImageIndexerGui.NavigateLast | src/llmii_gui.py:934-938 | the cursor is LastPosition, the history unchanged, and the screen shows the entry under the cursor |
| Gui.ImageIndexerGui.RunIndexer | src/llmii_gui.py:970-986 | without a ready API nothing changes and no run starts; otherwise the history, cursor, buttons and panel are reset first |
| Gui.ImageIndexerGui.ClearPreview | src/llmii_gui.py:982-986 | the preview is blank: no file name, "No caption generated yet", an empty keyword panel |
| Values.PyIn | llmii.py:378-388 | `key in x`: a dict tests its keys, a string whether the key occurs in it as a substring, a list its items; None, numbers and booleans raise TypeError |
| Values.PyGetItem | llmii.py:379 | `x[key]` succeeds exactly on a dict holding the key; a dict without it raises KeyError, anything else TypeError |
| Text.RStrip | llmii.py:464 | `rstrip`: the longest prefix that does not end in whitespace, only whitespace removed |
| Text.LStrip | llmii.py:289 | `lstrip`: the longest suffix that does not start with whitespace, only whitespace removed |
| Text.FindFrom | llmii.py:285-286 | the first occurrence of a pattern at or after a position |
| Text.Contains | llmii.py:175-176 | substring test: some position holds the pattern |
| Text.FirstIndexOf | llmii.py:292 | the first occurrence of a character, none when it is absent |
| Text.LastIndexOf | llmii.py:269 | `rfind`: the last occurrence of a character, none when it is absent |
| Text.ReplaceEach | llmii.py:266-268 | `re.sub` over a character class: the result has only the replacement or characters outside the class |
| Text.ReplaceEachPointwise | llmii.py:266-267 | a one-character replacement works position by position and keeps the length |
| Text.ReplaceEachIdentity | llmii.py:267 | replacing a character by itself changes nothing |
| Text.ReplaceEachAbsent | llmii.py:266 | text without any class character is unchanged |
| Text.AfterLast | llmii.py:456 | `split(c)[-1]` holds no `c` |
| Text.AfterLastShape | llmii.py:456 | `split(c)[-1]` is a suffix of the text, preceded by `c` when it is not the whole text |
| Text.Suffix | llmii.py:421 | `Path.suffix` is empty, or a suffix of the name that starts with a dot, has at least two characters and is shorter than the name |
| Text.SuffixFromLastDot | llmii.py:421 | a non-empty suffix starts at the last dot; it is empty exactly when the name has no dot, ends in a dot, or its only dot is the first character |
| Text.Lower | llmii.py:168 | lower-casing keeps the length and lowers each letter |

## Left out

- HTTP transport, JSON payload fields and sampling parameters (llmii.py:112-160): the service's answers are function inputs (`Service`), and transport failures, which the source turns into `None`, are answers like any other.
- Replies without a result: a reply whose JSON lacks "results" or holds an empty list raises KeyError or IndexError at llmii.py:119, which the handler at llmii.py:125 does not catch, so the run ends; the model's `Service` always answers with a value and does not represent that failure.
- `json.dumps`, `json.loads`, `repair_json`, `str()` of a value: uninterpreted fields of `JsonLib`; the model does not fix their output.
- `_get_max_context_length` and `_get_token_count`: the values are never used by the pipeline.
- The template key follows the code: the ranking key is the normalised length of the template's first alias (llmii.py:180), not of the alias that matched.
- `prepare_image_for_api` never returns `None` in the source, so the "not a supported image type" skip in `process_file` (llmii.py:315-317) is unreachable; a file whose embedded preview is absent and that cannot be decoded is modelled as an `ImageDecodeError` that ends the run, as the raised exception would.
- `process_image` scaling and JPEG re-encoding (llmii.py:355-372): image arithmetic; its result is the `reencoded` input.
- `_calculate_file_hash`, `path.stat()`, `time.ctime`, `pathlib` normalisation and `relative_to`: file-system facts are inputs in `FileFacts`.
- exiftool: its tag list and whether it can run are inputs; a failure to read tags for `prepare_image_for_api` is the `ExifToolError` exception. `update_xmp_tags` catches every exception, so a raising write is modelled as a write call that is simply issued or not.
- The `clean_metadata` dictionary built in `create_metadata_prompt` (llmii.py:453, 457): it is never read.
- Text.Lower: lower-cases ASCII letters only; Python's Unicode case mapping is not modelled.
- Text.Basename: splits on `/` only, as `os.path.basename` does on POSIX systems; on Windows it also splits on `\`, which is not modelled.
- `crawl_directory` (llmii.py:494-503) and `mimetypes.guess_type`: the files and their types are the candidate list given to `IndexFiles`.
- `main`'s console output and callback wiring (llmii.py:533-565), `Config.from_args` argument parsing, and all printing.
- `check_paused_or_stopped` (src/llmii_gui.py:483-491): the busy-wait while paused is concurrency; the check is modelled only by whether the user asked to stop before each file.
- Threads, Qt signals, settings load/save, widget construction and styling in the front end; the image decoding in `display_image` (src/llmii_gui.py:869-889) is reduced to recording which entry is shown.
- The front end's `run_indexer` after the reset (config transfer, thread start, src/llmii_gui.py:988-1040): the fields it sets are not read by the pipeline, which is not connected to the browser here.
