# JosefGPT retrieval core in Dafny

A model of the core of the "ai-book-agent" service, a question-answering agent over a personal library. The model covers five pieces.

- **Ingestion** (`ingest_books.py`): the service walks source directories for PDF, EPUB and text files. It extracts their text and splits it into chunks. It embeds the chunks and stores them in a vector collection. Each chunk is keyed by its source (`<base>/<relative path>`).
- **Retrieval** (`app/query_engine.py`): a query finds the nearest chunks. These become context records with a clamped similarity score.
- **Prompting and answering** (`app/query_engine.py`): the contexts are rendered into a numbered prompt. The prompt goes to a chat generator. The sources are summarised, first occurrence winning, and a `Sources:` footer is added when the answer lacks one.
- **Generation** (`app/llm.py`): the deterministic offline generator is modelled, with the table that chooses it over the OpenAI backend.
- **Configuration** (`app/config.py`): the settings are parsed from the environment.

The vector index is the in-memory `FakeCollection`/`FakeClient` pair of `tests/test_end_to_end.py`, modelled as Dafny classes. The end-to-end test is a verified scenario.

Modules, one file each:

| file | module | models |
|---|---|---|
| wrappers.dfy | Wrappers | `Option` and `Result` (with `Raised` for an exception) |
| strings.dfy | PyStr | the Python `str` operations the core uses: `strip`, `lower`, `in`, `find`, `split`, `join`, whitespace `split()`, `int()` |
| config.dfy | Config | `_bool`, `_int`, `_float`, `_split_paths`, `Settings` |
| index.dfy | Index | `FakeCollection`, `FakeClient` and its class-level registry |
| llm.dfy | Llm | `OfflineChatLLM.generate`, `get_chat_llm` |
| query_engine.dfy | QueryEngine | `_distance_to_score`, `retrieve_context`, `_format_prompt_context`, `_summarise_sources`, `build_user_prompt`, `answer_with_context` |
| ingest.dfy | Ingest | `iter_source_files`, `extract_text`, `embed_chunks`, `source_key`, `ingest_file`, `ingest_all` |
| scenario.dfy | EndToEnd | `test_ingest_and_answer` |

The code follows a common pattern. Each loop of the source that builds or updates state is a `method` with a `while` loop: `Llm.ReadRoles`, `Llm.CollectSnippets`, `Llm.AppendBullets`, `QueryEngine.RetrieveContext`, `QueryEngine.FormatPromptContext`, `QueryEngine.SummariseSources`, `Ingest.IngestFiles` and `Index.FakeCollection.Add`. Each such method is proved equal to a specification function, and the source's promises are lemmas about that function. Two examples:
- `Llm.Generate` equals `Join("\n", OfflineParts(messages))`.
- `Ingest.IngestFiles` equals `FilesStored`, `ChunksStored` and `AfterRun` over the per-file plans.

The other loops only compute a value, so they are functions. The nested loops of `iter_source_files` are the recursive function `Ingest.SourceFiles`. The comprehensions of the fake collection's `delete` and `query` are the function `Index.Without` and sequence comprehensions in `Index.FakeCollection.Query`.

The collection's mutation is modelled by the `FakeCollection` class, its `entries` field and `modifies` clauses.

## Model

| member | source | states |
|---|---|---|
| Config.Bool | app/config.py:14-17 | An unset variable gives the default. |
| Config.BoolOfNormal | app/config.py:17 | A value that `strip()` and `lower()` leave alone is true exactly when it is "1", "true", "yes" or "on". |
| PyStr.PlainWordNormal | app/config.py:17 | Values of lower-case letters and digits are left alone by `strip()` and `lower()`. |
| Config.BoolIgnoresDefault | app/config.py:15-17 | Once the variable is set, the default plays no part. |
| Config.BoolIgnoresPadding | app/config.py:17 | Surrounding whitespace does not change the reading. |
| Config.BoolIgnoresCase | app/config.py:17 | Letter case does not change the reading. |
| Config.Int | app/config.py:20-24 | An unset variable gives the default. |
| Config.IntOfRendering | app/config.py:22 | A variable holding `str(n)` reads back as `n`. |
| Config.IntWithoutDigits | app/config.py:21-24 | A value with no digit fails to parse and gives the default. |
| Config.CleanParts | app/config.py:37-38 | Keeping the non-empty stripped parts never adds parts. |
| Config.CleanPartsClean | app/config.py:37-38 | Every kept part is non-empty and already stripped. |
| Config.SplitPaths | app/config.py:34-38 | A missing or empty value gives the defaults. Otherwise every path is non-empty, stripped and free of commas. |
| Config.CleanPartsKeepOut | app/config.py:37-38 | Stripping and dropping parts introduces no character that was absent. |
| Config.CleanPartsOfClean | app/config.py:37-38 | Parts that are already clean are kept unchanged and in order. |
| Config.CleanPartsOfBlank | app/config.py:37-38 | Blank parts are all dropped. |
| Config.SplitPathsOfJoin | app/config.py:37-38 | Clean, comma-free directories joined with "," split back into exactly those directories, in order. |
| Config.SplitPathsOfSeparators | app/config.py:35-38 | A non-empty value of only commas and whitespace gives an empty list, not the defaults. |
| Config.Float | app/config.py:27-31 | An unset variable gives the default. |
| Config.Load | app/config.py:41-63 | Defaults hold for the unset variables: top_k 6, max_tokens 900, llm_mode "auto", source dirs books/texts/data. The suffix lists are fixed, and the text suffixes are a subset of the supported ones. The API key is None exactly when unset. |
| Config.LoadDefaults | app/config.py:41-63 | An empty environment gives exactly the documented default record. |
| Config.LoadTopK | app/config.py:46 | `TOP_K=str(n)` gives top_k `n`. |
| Index.Zip | tests/test_end_to_end.py:10 | The record count is the shortest input's length, and record k combines the k-th items. |
| Index.Without | tests/test_end_to_end.py:23-25 | No kept entry has the source, every kept entry comes from the input, and none is added. |
| Index.WithoutAppend | tests/test_end_to_end.py:23-25 | Filtering distributes over concatenation, so the kept entries stay in order. |
| Index.WithoutOthers | tests/test_end_to_end.py:23-25 | Entries of other sources are all kept. |
| Index.WithoutOwn | tests/test_end_to_end.py:23-25 | Entries of the source are all removed. |
| Index.WithoutTwice | tests/test_end_to_end.py:20-25 | Deleting the same source twice equals deleting it once. |
| Index.WithoutCommutes | tests/test_end_to_end.py:20-25 | Deletions of two sources commute. |
| Index.Of | tests/test_end_to_end.py:23-25 | The entries of one source and the entries `Without` it together number all entries. |
| Index.OfAppend | tests/test_end_to_end.py:23-25 | Selecting one source distributes over concatenation. |
| Index.OfAll | tests/test_end_to_end.py:23-25 | Entries all of the source are selected whole. |
| Index.OfNone | tests/test_end_to_end.py:23-25 | Entries none of which has the source give nothing. |
| Index.OfWithout | tests/test_end_to_end.py:23-25 | Deleting one source leaves every other source's entries unchanged. |
| Index.Head | tests/test_end_to_end.py:28 | Python slice `[:n]`: a prefix of length min(n, len), where a negative n counts from the end. |
| Index.FakeCollection.constructor | tests/test_end_to_end.py:5-7 | A new collection has its key and no entries. |
| Index.FakeCollection.Add | tests/test_end_to_end.py:9-18 | The zipped records are appended after the untouched existing entries. |
| Index.FakeCollection.Delete | tests/test_end_to_end.py:20-25 | A non-empty source removes exactly its entries, keeping the rest in order. An empty or missing source changes nothing. |
| Index.FakeCollection.Query | tests/test_end_to_end.py:27-38 | Gives one list each of documents, metadatas, ids and distances over the stored prefix, in order. The k-th distance is `k*0.1`. |
| Index.FakeCollection.QueryDistancesIncrease | tests/test_end_to_end.py:32 | Query distances strictly increase. |
| Index.Registry.constructor | tests/test_end_to_end.py:42 | The class-level registry starts empty. |
| Index.FakeClient.constructor | tests/test_end_to_end.py:44-45 | A client records its path and shares the registry. |
| Index.FakeClient.GetOrCreateCollection | tests/test_end_to_end.py:47-51 | Gives the registry's collection for (path, name), creating an empty one only when absent. The same key always gives the same object, for every client sharing the registry. |
| Llm.LastWins | app/llm.py:24-29 | A later message of a role overrides earlier ones. |
| Llm.OtherRoleKeeps | app/llm.py:24-29 | A message of another role leaves a role's content unchanged. |
| Llm.Before | app/llm.py:36 | The text before the first separator does not contain it. |
| Llm.After | app/llm.py:34-36 | The text after the first separator is a suffix of the input. |
| Llm.SnippetsShape | app/llm.py:39-42 | There are at most as many snippets as chunks. Each is non-empty, single-spaced and at most 220 characters. |
| Llm.SnippetShape | app/llm.py:40-42 | One chunk yields at most one snippet, and it is non-empty, single-spaced and at most 220 characters. |
| Llm.Bullets | app/llm.py:52-53 | One "- " line per snippet, in order. |
| Llm.Generate | app/llm.py:21-57 | The offline reply is the answer lines joined by newlines. It depends only on the messages. |
| Llm.ReadRoles | app/llm.py:22-29 | The loop keeps the last user content and the last system content. |
| Llm.ReadUserContent | app/llm.py:31-43 | The loop gives the specified highlights and the normalised question. |
| Llm.CollectSnippets | app/llm.py:39-42 | The loop collects the normalised, truncated, non-empty chunks in order. |
| Llm.SnippetsSnoc | app/llm.py:39-42 | Snippets of one more chunk extend the earlier snippets. |
| Llm.AssembleParts | app/llm.py:45-56 | Gives the header, system line, question line, highlight lines and guidance, in that order. |
| Llm.OpeningParts | app/llm.py:45-49 | Gives the header, then the system line only for non-empty system content, then the question line only for a non-empty question. |
| Llm.AppendHighlights | app/llm.py:50-53 | A non-empty snippet list adds the title and at most three bullets. An empty one adds nothing. |
| Llm.AppendBullets | app/llm.py:52-53 | The loop appends one bullet per shown snippet. |
| Llm.Tagged | app/llm.py:45-56 | Selecting the lines that start with a given character never adds lines. |
| Llm.TaggedAppend | app/llm.py:45-56 | Selecting by first character distributes over concatenation. |
| Llm.TaggedBullets | app/llm.py:53 | Bullets are exactly the lines starting with '-'. |
| Llm.TaggedOne | app/llm.py:45-56 | One line is kept exactly when it starts with the character. |
| Llm.TaggedGroups | app/llm.py:45-56 | Selection splits over the three line groups. |
| Llm.TaggedSystemLines | app/llm.py:46-47 | The system group holds only lines starting with 'S'. |
| Llm.TaggedQuestionLines | app/llm.py:48-49 | The question group holds only lines starting with 'Q'. |
| Llm.TaggedHighlightLines | app/llm.py:50-53 | The '-' lines of the highlight group are the bullets of the shown snippets. |
| Llm.BodyLines | app/llm.py:45-56 | The reply lines are the fixed header, a body and the fixed guidance line. |
| Llm.SystemFocusLine | app/llm.py:46-47 | The "System focus:" line appears exactly when the last system content is non-empty, and holds it stripped. |
| Llm.QuestionLine | app/llm.py:43-49 | The "Question:" line appears exactly when the normalised question is non-empty. |
| Llm.HighlightBullets | app/llm.py:33-53 | There are at most three highlight bullets. Each is a non-empty, single-spaced chunk of at most 220 characters, taken in order. |
| Llm.ShownSnippets | app/llm.py:39-52 | At most three snippets are shown, and each is non-empty, single-spaced and at most 220 characters. |
| Llm.JoinFrame | app/llm.py:57 | Joined lines start with the first line and end with the last. |
| Llm.JoinOpens | app/llm.py:57 | A join of two or more lines starts with the first line and the separator. |
| Llm.JoinCloses | app/llm.py:57 | A join of two or more lines ends with the separator and the last line. |
| Llm.OfflineFrame | app/llm.py:45-57 | Every offline reply starts with the header line and ends with the guidance line. |
| Llm.NoContextMarker | app/llm.py:32-43 | Without "Context:" there are no highlights, and the question is the whole user content, normalised. |
| Llm.SelectChatLlm | app/llm.py:79-92 | An OpenAI backend uses the configured model. |
| Llm.SelectionTable | app/llm.py:82-92 | "offline" always gives the offline generator, whatever the key. "openai"/"auto" with a key give OpenAI when construction succeeds. On a failed construction "auto" falls back and "openai" raises. No key, or any other mode, gives the offline generator. |
| Llm.ModeIgnoresCase | app/llm.py:82 | Mode matching ignores letter case. |
| Llm.BlankModeIsOffline | app/llm.py:82-92 | A whitespace-only mode selects the offline generator. |
| PyStr.CollapseIdempotent | app/llm.py:40-43 | Whitespace normalisation is idempotent. |
| PyStr.CollapseShorter | app/llm.py:40 | Whitespace normalisation never lengthens text. |
| PyStr.StripEmptyIffAllSpace | ingest_books.py:98 | `strip()` gives "" exactly for all-whitespace text. |
| PyStr.ParseNatString | app/config.py:22 | `int(str(n)) == n` for every natural n. |
| PyStr.ParseIntNeedsDigit | app/config.py:21-24 | A string without a digit does not parse as an integer. |
| QueryEngine.DistanceToScore | app/query_engine.py:27-30 | A number d gives `clamp(1 - d, 0, 1)`, which lies in [0, 1]. A non-number gives no score. |
| QueryEngine.ScoreAntitone | app/query_engine.py:29 | A larger distance never gives a larger score. |
| QueryEngine.Retrieved | app/query_engine.py:35-64 | A query exception gives no contexts. Otherwise there is one context per document. |
| QueryEngine.RetrievedRecords | app/query_engine.py:44-63 | Context k holds document k. Its metadata is `{}` and its id None when those lists are short. It has a score exactly when it has a numeric distance, and the score is in [0, 1]. |
| QueryEngine.RetrieveContext | app/query_engine.py:33-64 | The loop builds exactly the specified contexts. |
| QueryEngine.Blocks | app/query_engine.py:71-73 | Block k is "[Source k+1]" and a newline, then the stripped text of context k. |
| QueryEngine.FormatPromptContext | app/query_engine.py:67-74 | The loop gives the fixed no-context sentence for no contexts. Otherwise it gives the blocks joined by "\n---\n". |
| QueryEngine.BlocksSnoc | app/query_engine.py:71-73 | Each loop step appends the next numbered block. |
| QueryEngine.PromptContextHoldsBlocks | app/query_engine.py:70-74 | The rendered context contains every numbered block. |
| QueryEngine.BuildPrompt | app/query_engine.py:100-102 | Gives the specified user prompt. |
| QueryEngine.PromptShape | app/query_engine.py:102 | The prompt is "Context:", a newline, the rendered context, a blank line, then "Question: " and the question. |
| QueryEngine.PromptRoundTrip | app/llm.py:33-43 | The offline parser recovers from a prompt built by `build_user_prompt` (app/query_engine.py lines 100-102) the rendered context and the normalised question, whenever the context lacks "Question:". |
| QueryEngine.ParsePrompt | app/llm.py:33-43 | Parsing the prompt layout splits it at the two markers. |
| QueryEngine.SpacedQuestion | app/llm.py:43 | The space after "Question:" is lost in normalisation. |
| QueryEngine.NoContextFacts | app/query_engine.py:69 | The no-context sentence is one line of proper words and fits one snippet. |
| QueryEngine.EmptyContextHighlight | app/llm.py:33-42 | With no contexts (app/query_engine.py lines 68-69), the offline parser finds exactly one highlight, the no-context sentence. |
| QueryEngine.EmptyContextAnswer | app/llm.py:50-53 | With no contexts, the offline reply's only bullet is the no-context sentence. |
| QueryEngine.MessagesContent | app/query_engine.py:120-124 | The generator sees the system prompt and the user prompt. |
| QueryEngine.OfflineAnswerEchoes | app/query_engine.py:119-124 | The offline reply's question line echoes the normalised question. Its system line is the system prompt. |
| QueryEngine.SingleHighlight | app/llm.py:39-42 | A one-line, dash-free context body gives one snippet. |
| QueryEngine.Preview | app/query_engine.py:86-88 | It contains no newline and has length at most n+3. It equals the stripped, newline-replaced text when that fits. Otherwise it ends in "..." after a prefix of at most n characters of that text. |
| QueryEngine.PreviewCut | app/query_engine.py:86-88 | A long preview is exactly `p[:n].rstrip()` followed by "...": the cut is a prefix of the first n characters of the newline-replaced text, everything it drops from them is whitespace, and it is empty or ends in a non-space. |
| QueryEngine.CutFacts | app/query_engine.py:88 | The right-stripped cut is a prefix of at most n characters, followed by "...". |
| QueryEngine.SummariseSources | app/query_engine.py:77-97 | The loop with its `seen` set builds exactly the specified summaries. |
| QueryEngine.Origins | app/query_engine.py:80-85 | Every origin indexes a context. |
| QueryEngine.SeenMembers | app/query_engine.py:81-85 | The seen set holds exactly the non-empty sources of the contexts. |
| QueryEngine.SummariesFromFirstContexts | app/query_engine.py:78-97 | Summary i comes from the first context naming its source, taking chunk, score and preview from it. Summaries keep first-occurrence order. Every first occurrence gives a summary. |
| QueryEngine.OriginsBuildSummaries | app/query_engine.py:89-96 | Summary i is built from the context at origin i. |
| QueryEngine.OriginsAreFirst | app/query_engine.py:83-85 | Every origin is the first context naming its source. |
| QueryEngine.OriginsIncrease | app/query_engine.py:80 | Origins strictly increase. |
| QueryEngine.OriginsComplete | app/query_engine.py:83-85 | Every first naming context is an origin. |
| QueryEngine.SummariesDistinctSources | app/query_engine.py:79-85 | Summary sources are pairwise distinct, and they are exactly the non-empty sources of the contexts. |
| QueryEngine.SummarySources | app/query_engine.py:79-85 | The summary sources form the seen set. |
| QueryEngine.SummariesDistinct | app/query_engine.py:83-85 | No source is summarised twice. |
| QueryEngine.UnnamedSkipped | app/query_engine.py:83-84 | A context without a source adds no summary. |
| QueryEngine.SourceNames | app/query_engine.py:130 | Gives the summaries' sources, in order. |
| QueryEngine.AnswerExtendsRaw | app/query_engine.py:129-133 | The answer starts with the raw answer. It equals it exactly when "Sources" already occurs or there are no summaries. |
| QueryEngine.AnswerMentionsSources | app/query_engine.py:129-131 | With summaries, the answer always mentions "Sources". |
| QueryEngine.WithSourcesIdempotent | app/query_engine.py:129-133 | Adding the footer twice equals adding it once. |
| QueryEngine.FooterLines | app/query_engine.py:130 | The footer lists the first at most five sources, one per line, in order. |
| QueryEngine.AnswerWithContext | app/query_engine.py:105-147 | A None override falls back to the configured default. The result holds the retrieved contexts, the built prompt, the generator's reply, the summaries, the footer rule, and the generator's mode and model. |
| QueryEngine.AddSourcesFooter | app/query_engine.py:128-133 | Gives the raw answer with the footer rule applied. |
| Ingest.RFind | ingest_books.py:40 | Finds the last occurrence of a character, or reports there is none. |
| Ingest.Suffix | ingest_books.py:40 | `Path.suffix` is "" or a dot followed by a dot-free, non-empty tail ending the name, shorter than the name. |
| Ingest.SuffixOfStem | ingest_books.py:40 | "stem.ext" has suffix ".ext". |
| Ingest.LowerSet | ingest_books.py:19-20 | The lowercased suffix set holds exactly the lowercased suffixes. |
| Ingest.Candidates | ingest_books.py:30-36 | A walk yields at most its listed paths. |
| Ingest.CandidatesExact | ingest_books.py:30-36 | A path is yielded exactly when it is a file with a supported lowercased suffix and no leading dot. |
| Ingest.SourceFilesExact | ingest_books.py:26-36 | A pair is yielded exactly when its base is an existing listed directory containing the path as a candidate. |
| Ingest.MissingDirectory | ingest_books.py:28-29 | A directory that does not exist contributes nothing. |
| Ingest.ExtractText | ingest_books.py:39-64 | Only an unreadable text file raises. An unsupported suffix gives "". |
| Ingest.EmbedChunks | ingest_books.py:81-83 | No chunks give no embeddings. |
| Ingest.SourceKey | ingest_books.py:92-93 | A key exists exactly when the base is a prefix of the path, and then it is non-empty. |
| Ingest.KeyOfDirectChild | ingest_books.py:92-93 | A direct child's key is base name, "/", file name. It ends with the file name. |
| Ingest.KeysDistinct | ingest_books.py:92-93 | Different relative paths under one base get different keys. |
| Ingest.ChunkMetadata | ingest_books.py:111 | Chunk k's metadata is its source and index k. |
| Ingest.ChunkIds | ingest_books.py:112 | Chunk k's id is `src#k`. |
| Ingest.PlanFor | ingest_books.py:96-114 | A file that would be stored has non-empty chunks and a valid key. |
| Ingest.IngestFile | ingest_books.py:96-114 | Returns the count of its plan. The collection becomes the plan's result: deletion then insertion for a stored file, unchanged otherwise. |
| Ingest.NothingToStore | ingest_books.py:98-104 | Blank text, or no chunks, returns 0 and leaves the collection unchanged. |
| Ingest.StoredRecords | ingest_books.py:106-114 | After storing, the records of `src` are exactly the n new ones, with ids `src#0..n-1` and chunk numbers `0..n-1`. Other sources' records are unchanged. |
| Ingest.IngestIdempotent | ingest_books.py:107-113 | Ingesting the same file twice leaves the same records as ingesting it once. |
| Ingest.Plans | ingest_books.py:129-131 | One plan per candidate file, in order. |
| Ingest.CountersBounded | ingest_books.py:135-137 | Stored files are at most the candidates and at most the stored chunks. |
| Ingest.NothingCounted | ingest_books.py:130-137 | A failed or empty file adds to neither counter and changes no record. |
| Ingest.RunStep | ingest_books.py:130-137 | One loop step adds 1 and its chunk count for a stored file, and applies its plan to the collection. |
| Ingest.IngestFiles | ingest_books.py:127-138 | The loop's counters are the stored files and stored chunks of the plans. The collection is every plan applied in order. Failing files are skipped and later files still processed. |
| Ingest.IngestAll | ingest_books.py:117-141 | Explicit sources take precedence over the defaults. The run uses the registry's "josef_knowledge" collection. `scanned` is the candidate count, and `files` and `chunks` are the loop's counters, so no candidates give all zeros. Files never exceed scanned or chunks. The registry gains at most the "josef_knowledge" key of the client's path, and every other collection is the same object with the same entries. It requires every listed path to lie below its directory, as `rglob` guarantees. |
| Ingest.OnlyUnreadableFails | ingest_books.py:96-106 | For a file below its directory, the plan fails exactly when extracting its text raises, which happens only for a text-suffix file that cannot be read. |
| EndToEnd.Embed | tests/test_end_to_end.py:95-97 | The patched embedder gives one vector per chunk. |
| EndToEnd.SampleFacts | tests/test_end_to_end.py:57-61 | The sample text has the expected words, no 'Q' or '-', and at most 150 characters. |
| EndToEnd.SampleSourceFiles | tests/test_end_to_end.py:55-61 | The source directory yields exactly the sample file. |
| EndToEnd.SampleKeyFacts | tests/test_end_to_end.py:107 | The sample's key ends with "sample.txt". |
| EndToEnd.SampleRun | tests/test_end_to_end.py:100-102 | Ingesting the sample stores one file with one chunk. |
| EndToEnd.RetrieveOne | tests/test_end_to_end.py:27-38 | One stored entry is retrieved by `retrieve_context` with distance 0 and score 1. |
| EndToEnd.SampleAnswerQuotes | tests/test_end_to_end.py:104-105 | The offline reply quotes the retrieved "Automation" text. |
| EndToEnd.SampleSources | tests/test_end_to_end.py:106-107 | The first source summary ends with "sample.txt". |
| EndToEnd.TestSettings | tests/test_end_to_end.py:64-72 | The test's environment loads as offline mode, the embeddings path and top_k 6. |
| EndToEnd.OfflineSelected | tests/test_end_to_end.py:68-69 | "offline" mode selects the offline generator of `get_chat_llm` even with a key set. |
| EndToEnd.SampleAnswer | tests/test_end_to_end.py:104-107 | The answer built from the sample contains "Automation", and its first source ends with "sample.txt". |
| EndToEnd.SampleWalksBelow | tests/test_end_to_end.py:55-61 | The sample file lies below the source directory, so the sample file system meets what `rglob` guarantees. |
| EndToEnd.IngestSample | tests/test_end_to_end.py:100-102 | Ingesting into a fresh registry stores the one sample entry and counts one file and one chunk. |
| EndToEnd.AnswerSample | tests/test_end_to_end.py:104-108 | Answering over the ingested sample quotes "Automation", names "sample.txt" first and reports "offline". |
| EndToEnd.IngestAndAnswerText | tests/test_end_to_end.py:54-108 | For any text like the sample, files is 1, chunks > 0, the answer contains "Automation", the first source ends with "sample.txt", and the mode is "offline". |
| EndToEnd.IngestAndAnswer | tests/test_end_to_end.py:54-108 | The test's assertions hold for its own sample text. |

## Left out

- Lowercasing is ASCII-only and whitespace is Python's `isspace` set. Unicode case mapping and non-ASCII digits are not modelled. Every comparison the core makes is against ASCII literals.
- `Config.IntOfRendering`: covers non-negative literals only. Signed literals (`int("-5")`) are parsed by the model but have no round-trip lemma.
- `Config.Float`: `float()` is a parameter (`parseFloat`). IEEE floating point is not modelled. Distances, scores and temperatures are Dafny `real`.
- `Path` is a sequence of components. `Path.expanduser`, path normalisation and `as_posix` beyond joining components with "/" are not modelled.
- The PDF, EPUB and text readers are given as data (`FileContent`). Their parsing and the lenient UTF-8 re-read are not modelled.
- The text splitter and the embedder are function parameters. Chunk boundaries, the overlap rule and embedding values are not modelled.
- Ingest.EmbedChunks: states only the empty-input rule. The backend choice (OpenAI or the local encoder) is a parameter.
- Exceptions from the splitter and the embedder are not modelled. For files below their directory, which `Ingest.IngestAll` requires, the only failing file is therefore an unreadable text file, and a failure skips it. A listed path outside its directory, for which `relative_to` would raise and abort the whole run, is excluded by that requires, because `rglob` never yields one.
- The rglob walk order and the existence of directories are given as data (`FileSystem.walks`).
- The real chromadb client, nearest-neighbour search and persistence are not modelled. The index is the in-memory collection of the test file. The embeddings path is the client's `path`.
- The sentence encoder of the query is not modelled. The fake collection ignores the query embedding.
- `OpenAIChatLLM.generate` is a network call. Its reply is the parameter `remoteReply`, stripped as the source does. Whether the OpenAI client's construction succeeds is the parameter `initSucceeds`.
- Module-level singletons and `lru_cache` (`settings`, `collection`, `llm`, `get_settings`, `get_chat_llm`) are passed as parameters.
- A message's content that is present but `None` is not modelled. Absent content reads as "".
- `_distance_to_score` also accepts Python `bool`, because `bool` subclasses `int`. The model's distances are numbers or non-numbers.
- `preview_chars` is a `nat`. The source's default behaviour for negative values is not modelled.
- `print`, `tqdm` progress output, `load_dotenv` and the interactive `__main__` loops are left out.
- The UI, CLI, HTTP and Weaviate modules (app/ui.py, app/cli.py, main.py, agent_retriever_http_fix.py) are not part of this model.
- EndToEnd.IngestAndAnswerText: requires that the splitter keeps the short sample text as one chunk. The real splitter's 1000-character chunk size does this.
- Llm.CollectSnippets appends `Snippet(chunk)`, the normalised, truncated chunk or nothing. The normalisation is the function `Snippet`.
