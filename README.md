# AI Document Search: a Dafny model

This project models the core of a Streamlit document question-answering app in Dafny.
Users upload PDFs or text files. The app splits them into chunks and fingerprints the chunks with MD5.
It rebuilds a FAISS vector store only when that fingerprint changes.
Questions are answered through a chain of language-model providers (Gemini first, then xAI's Grok).
On a rate-limit style failure the chain rotates to the next provider.
The model covers six parts:

- **Provider pool** (`ModelManager`): the fixed `MODEL_POOL`, the process-wide active index, rotation, reset, and `get_llm`'s dispatch and validation.
- **Failover loop** (`RagChain`): `ask`. It makes at most one attempt per provider, classifies exceptions by substring, rotates on transient ones, re-raises any other, and returns a fixed sentinel when every provider is exhausted.
- **Embedding cache** (`Embeddings`): the chunk fingerprint, `create_vectorstore`'s check-then-build-then-record sequence on a directory, and `vectorstore_exists`.
- **The page** (`App`): the same fingerprint check by `hash_chunks`. It wipes and rebuilds the store and rewrites its record. It builds the de-duplicated list of cited sources with one-based pages, parses suggested questions from a model reply, and produces the plain-text chat export. It keeps the question counter and the transcript.
- **Multi-query retrieval** (`MultiQuery`): filtering and renumbering of rewritten query lines with a fallback to the original question, and first-occurrence merging of the retrieved chunks by content.
- **File hashing** (`HashUtils`): `hash_files`, a SHA-256 digest over file contents read in sorted path order.

Code that changes state step by step is modelled in imperative Dafny:

- The pool is a class with a mutable index.
- `ask`, the query parser, the merging loop and `hash_files` are methods with loops.
- The vector-store directory is a class whose field the build methods change.
- The Streamlit session state is a class.

Each such method is proved equal to a specification function. Lemmas then prove the source's promises about that function.

Foreign behaviour is passed in as a parameter:

- **Hashes:** MD5 and SHA-256 are function-typed parameters (`md5`, `sha256`).
- **Provider attempts:** what each attempt of `ask` yields is a script of per-attempt outcomes (`Attempt`). An outcome is an answer or an exception's text, then the cited chunks or an exception's text.
- **Embedding and saving:** how building and saving a FAISS index ends is a `BuildOutcome`.
- **Similarity search:** it is a ranking function.
- **Files:** the files `hash_files` reads are a map from path to bytes.

Behaviour the model keeps from the code:

- `rotate_model` returns nothing; it does not return the newly active configuration.
- The cache check compares the fingerprint only and never the embedding model. `ModelNotChecked` states this.
- `create_vectorstore` does not wipe the directory itself. `app.py` removes it before calling `create_vectorstore`, and then overwrites the record with one that has no `"model"` entry.
- On a cache hit `create_vectorstore` returns nothing. The page loads the store separately when `index.faiss` exists.

## Model

| member | source | states |
|---|---|---|
| `ModelManager.ProviderPool.constructor` | utils/model_manager.py:15-26 | the pool is `MODEL_POOL` (gemini/gemini-2.5-flash, then xai/grok-beta) with the primary selected, and the index invariant holds |
| `ModelManager.ProviderPool.ActiveConfig` | utils/model_manager.py:33-34 | the active configuration is the pool entry at the index, so it is always one of the pool's entries |
| `ModelManager.ProviderPool.Rotate` | utils/model_manager.py:41-47 | the index becomes `(i + 1) mod len(MODEL_POOL)` and stays within the pool; the entries are never changed |
| `ModelManager.ProviderPool.Reset` | utils/model_manager.py:57-59 | the index becomes 0 whatever it was, so a second reset changes nothing |
| `ModelManager.NextIndex` | utils/model_manager.py:44-47 | incrementing and wrapping at the pool size is `(i + 1) mod n` and stays below `n` |
| `ModelManager.RotationsWrap` | utils/model_manager.py:44-47 | up to `n` rotations from `i` land on `i + k`, or `i + k - n` once it passes the end |
| `ModelManager.RotationsMod` | utils/model_manager.py:44-47 | `k <= n` rotations from `i` land on `(i + k) mod n` |
| `ModelManager.FullCycle` | utils/model_manager.py:44-47 | `len(MODEL_POOL)` consecutive rotations return the index to where it started |
| `ModelManager.GetLlm` | utils/model_manager.py:66-96 | gemini gets a client without any key check; xai with an unset or empty `XAI_API_KEY` raises the RuntimeError text; xai with a key gets a client on `https://api.x.ai/v1`; any other provider raises `Unknown model provider: <name>` |
| `ModelManager.GeminiIgnoresKey` | utils/model_manager.py:75-80 | the gemini result is the same whatever the xAI key is |
| `ModelManager.ModelPoolErrors` | utils/model_manager.py:15-24 | on the shipped pool `get_llm` fails exactly on the xai entry with a missing key, and only with the missing-key error |
| `RagChain.AttemptError` | utils/rag_chain.py:59-68 | an attempt raises inside the `try` exactly when generation or the second retrieval fails |
| `RagChain.IsTransient` | utils/rag_chain.py:70-78 | definition: the lower-cased exception text contains `resource_exhausted`, `quota`, `rate limit` or `429`; the examples below state both outcomes |
| `RagChain.ConfiguredAlong` | utils/rag_chain.py:44 | definition: `get_llm` succeeds on each of the first `k` providers a run from `index` visits |
| `RagChain.Failover` | utils/rag_chain.py:37-93 | the loop stays within the pool and uses at most one rotation per provider; the final index is the start rotated by the number of rotations; the sentinel is returned exactly when all attempts were used |
| `RagChain.Ask` | utils/rag_chain.py:35-93 | the while loop with its early returns, `rotate_model` calls and `continue` ends with the result, final pool index and back-off count of `Failover` from the pool's starting index |
| `RagChain.RotationsAreTransient` | utils/rag_chain.py:70-84 | the attempts counter only advances on an exception classified as transient |
| `RagChain.AnsweredIsFirstSuccess` | utils/rag_chain.py:59-66 | an answer is the generated text and cited chunks of the first attempt that did not raise, returned while that attempt's provider is still selected |
| `RagChain.RaisedIsFatal` | utils/rag_chain.py:70-86 | a provider exception escapes only if it is not transient, and it is the exception of the attempt the loop stopped at |
| `RagChain.FatalFirstAttempt` | utils/rag_chain.py:86 | a non-transient failure of the first attempt is re-raised with no rotation and no further attempt |
| `RagChain.TransientPrefix` | utils/rag_chain.py:79-84 | when the first `k` providers visited can be configured, `k` transient failures cause exactly `k` rotations, one before each retry |
| `RagChain.ShippedPoolPrimaryConfigured` | utils/model_manager.py:15-24 | without an xAI key the shipped pool can be configured for its first attempt (gemini) and not for its second (xai) |
| `RagChain.SuccessAfterTransients` | utils/rag_chain.py:59-84 | when the `k + 1` providers visited can be configured, after `k` transient failures a success returns that attempt's answer and leaves the index advanced by `k` mod N; `k = 0` covers gemini answering with no xAI key |
| `RagChain.AllTransientExhausts` | utils/rag_chain.py:88-93 | when every provider visited can be configured and every attempt is transient, `ask` returns the fixed rate-limit sentinel with no chunks, does not raise, and ends on its starting provider |
| `RagChain.ExhaustedReturnsToStart` | utils/rag_chain.py:88-93 | the sentinel is only ever returned after every attempt failed transiently, and then the index is back at its start |
| `RagChain.MissingKeyAfterRateLimit` | utils/rag_chain.py:44 | `get_llm` runs outside the `try`: after a rate limit on gemini, a missing xAI key escapes unclassified with the pool left on xai |
| `RagChain.CitationErrorsClassified` | utils/rag_chain.py:62-86 | at any attempt, an exception from the second retrieval call drives the loop exactly like a generation exception with the same text |
| `RagChain.SameErrors` | utils/rag_chain.py:59-86 | the loop reads an attempt only through the exception it raises, or through its answer and chunks when it raises none |
| `RagChain.TransientExamples` | utils/rag_chain.py:70-78 | classification is case-insensitive: "Quota exceeded" and "HTTP 429 Too Many Requests" are transient |
| `RagChain.FatalExample` | utils/rag_chain.py:70-78 | "Invalid API key" mentions no marker and is re-raised |
| `Embeddings.CombinedAppend` | utils/embeddings.py:15-16 | the fingerprinted text of two batches one after the other is the two texts concatenated |
| `Embeddings.HashDocuments` | utils/embeddings.py:15-17 | definition: MD5 of the page contents joined with no separator; the three lemmas around it state what it ignores |
| `Embeddings.HashIgnoresMetadata` | utils/embeddings.py:15-17 | batches with the same page contents get the same fingerprint whatever their metadata |
| `Embeddings.HashIgnoresBoundaries` | utils/embeddings.py:15-17 | chunk boundaries are invisible: `["ab","c"]` and `["a","bc"]` get the same fingerprint |
| `Embeddings.VectorstoreExistsIff` | utils/embeddings.py:88-89 | a path is a vector store exactly when the directory exists and holds the record, the index or any other entry |
| `Embeddings.VectorstoreExists` | utils/embeddings.py:88-89 | definition: the directory exists and `os.listdir` reports something; `VectorstoreExistsIff` states it in terms of the directory's entries |
| `Embeddings.WellFormed` | utils/embeddings.py:88-89 | definition: no other entry of the directory is named like the record or the index files, as on a real file system |
| `Embeddings.Storage.CreateVectorstore` | utils/embeddings.py:32-66 | the directory is created if missing; an unreadable record raises; a matching fingerprint returns without work; otherwise the index is built and saved and only then the record `{hash, model}` is written, and a failed embedding or save raises with the record untouched |
| `Embeddings.CreateEffect` | utils/embeddings.py:32-66 | definition of `create_vectorstore`'s result and directory, which `CreateVectorstore` is proved to compute; the lemmas below state its properties |
| `Embeddings.CreateKeepsWellFormed` | utils/embeddings.py:32-66 | `create_vectorstore` adds no entry besides the record and index files, so the directory stays one a file system can hold |
| `Embeddings.CacheHitDoesNoWork` | utils/embeddings.py:41-48 | on a matching record nothing is computed or written, whatever the backend and the model name |
| `Embeddings.ModelNotChecked` | utils/embeddings.py:46 | a record written for another embedding model still counts as a hit |
| `Embeddings.RebuiltWritesRecord` | utils/embeddings.py:50-66 | a build happens only on a miss, and saves an index of exactly these chunks and a record naming the fingerprint and model; other entries stay |
| `Embeddings.CreateIdempotent` | utils/embeddings.py:41-66 | after a call that returned, a second call with the same chunks does no work and changes nothing, whatever model it names |
| `Embeddings.FailureKeepsRecord` | utils/embeddings.py:52-66 | a failed build leaves the previous record as it was; a failed embedding changes nothing at all |
| `App.HashChunksAgrees` | app.py:140-142 | the page fingerprints a batch exactly as `create_vectorstore` does |
| `App.HashChunks` | app.py:140-142 | definition: MD5 of the page contents joined with no separator; `HashChunksAgrees` ties it to `_hash_documents` |
| `App.ProcessDocuments` | app.py:178-211 | the rebuild flag, the wipe, the `create_vectorstore` call and the record overwrite end with the result and directory given by `ProcessEffect` |
| `App.ProcessEffect` | app.py:178-211 | definition of the page's processing step: an unreadable record fails, a matching record reuses the store untouched, otherwise the directory is wiped, `create_vectorstore` runs on nothing, and on success the record becomes `{"hash"}`; `ReusedIff` to `ProcessTwiceReuses` state its properties |
| `App.ProcessKeepsWellFormed` | app.py:178-211 | processing never leaves an extra entry named like the record or the index files |
| `App.ReusedIff` | app.py:181-189 | the store is reused exactly when the record file exists and its `"hash"` equals the new fingerprint, including rebuilding when the file is missing; reuse changes nothing |
| `App.DecisionsAgree` | app.py:181-189 | the page and `create_vectorstore` reach the same reuse and unreadable-record decisions on the same directory |
| `App.RebuildReplacesDirectory` | app.py:195-206 | a rebuild leaves only the new index under the default model and a record `{"hash": new_hash}` with no `"model"` entry |
| `App.FailedRebuildLosesStore` | app.py:199-203 | because the directory is wiped first, a rebuild whose embedding fails leaves no record and no index to load |
| `App.ProcessTwiceReuses` | app.py:178-211 | processing the same chunks again after a successful step reuses the store and changes nothing |
| `App.UniqueSources` | app.py:327-332 | the loop over the cited chunks builds the table `SourceTableOf` describes |
| `App.SourceTableKeys` | app.py:327-332 | the listed keys are the chunks' keys `f"{src}-{display_page}"`, each once, in order of first occurrence; exactly the listed keys have entries |
| `App.SourcesDistinct` | app.py:327-332 | no key is listed twice, there are at most as many entries as cited chunks, and a key is listed exactly when some chunk has it |
| `App.LastEntryWins` | app.py:332 | a repeated key shows the source and page of the last chunk with that key |
| `App.KeyOf` | app.py:329-332 | definition: `f"{src}-{display_page}"` with the `Unknown` and `N/A` defaults; `MissingMetadata` and `KeyCollision` state its edge cases |
| `App.DisplayPage` | app.py:331 | definition: a page whose `str` is all digits becomes `int(page) + 1`, any other is kept; `DisplayPageOneBased` and `NegativePageUnchanged` state both branches |
| `App.DisplayPageOneBased` | app.py:331 | a zero-based page `n`, stored as a number or as its digits, is shown as `n + 1` |
| `App.NegativePageUnchanged` | app.py:331 | a negative page number is not all digits and is shown unchanged |
| `App.MissingMetadata` | app.py:329-330 | a chunk without source and page is listed as `Unknown` / `N/A` under the key `Unknown-N/A` |
| `App.KeyCollision` | app.py:332 | different sources can share a key ("a" page "x-y", "a-x" page "y"), and then only the later one is listed |
| `App.Suggestions` | app.py:256-262 | at most five suggestions, none containing `-`, each stripped |
| `App.CandidatesAppend` | app.py:258-261 | lines are processed independently and their suggestions keep the reply's order |
| `App.CandidateOfLine` | app.py:259-261 | a blank line gives nothing; any other line gives exactly its text with the dashes removed and then stripped |
| `App.DashLineGivesEmpty` | app.py:259-261 | blankness is checked before dashes are removed, so a line `-` gives the empty suggestion |
| `App.SuggestionsArePrefix` | app.py:262 | the suggestions are the first five candidates, and there are five exactly when at least five lines qualify |
| `App.ExportChatAppend` | app.py:91-94 | each message adds its `ROLE: content` line after a blank line, except the first, so the export has one entry per message in order |
| `App.ExportChatTurn` | app.py:91-94 | a handled question adds `USER: <question>` then `ASSISTANT: <answer>` to the export, after a blank line unless the transcript was empty |
| `App.ExportChatTxt` | app.py:91-94 | definition: the `ROLE: content` lines of the messages joined by blank lines; `ExportChatAppend` and `ExportChatTurn` state how it grows |
| `App.Session.ProcessUploads` | app.py:149-172 | with uploads, the transcript and suggestions are wiped, the file, page and chunk counts recorded and the store checked; without uploads nothing happens |
| `App.Session.EnsureSuggestions` | app.py:282-290 | suggestions are computed once per processing, from the model's reply, and are an empty list when generating them raised; nothing else changes |
| `App.Session.HandleQuestion` | app.py:312-344 | an empty question changes nothing; otherwise the counter goes up by exactly one before `ask`, and unless `ask` raises exactly two messages, user then assistant, are appended and the de-duplicated sources returned |
| `MultiQuery.Renumbered` | multiquery_retriever.py:60-61 | a line that starts with a digit and contains a dot becomes the stripped text after its first dot; any other line is returned unchanged; the result is a piece of the line and stays stripped |
| `MultiQuery.IsNumbered` | multiquery_retriever.py:60 | definition: the line's first character is a digit and the line contains a dot |
| `MultiQuery.Excluded` | multiquery_retriever.py:50-57 | definition: the stripped line is empty, starts with `-`, starts with "here are" once lower-cased, or contains "improvement" once lower-cased; `ParsedLine` and `NothingParsedIff` state its effect |
| `MultiQuery.Parsed` | multiquery_retriever.py:46-63 | every query comes from a line that is not excluded once stripped, as that line renumbered |
| `MultiQuery.ParsedOrigin` | multiquery_retriever.py:46-63 | a parsed query is the renumbered form of some line that is not excluded |
| `MultiQuery.Queries` | multiquery_retriever.py:66-67 | the query list is never empty |
| `MultiQuery.ParseQueries` | multiquery_retriever.py:43-67 | the loop with its `continue`s, the renumbering and the fallback returns `Queries` of the reply |
| `MultiQuery.ParsedAppend` | multiquery_retriever.py:63 | surviving lines keep their original relative order |
| `MultiQuery.ParsedLine` | multiquery_retriever.py:47-63 | an excluded line (blank, starting with `-`, starting with "here are" in any case, or containing "improvement" in any case) contributes nothing; any other line contributes exactly its renumbered text |
| `MultiQuery.NothingParsedIff` | multiquery_retriever.py:66-67 | the fallback `[query]` is taken exactly when every line is excluded |
| `MultiQuery.QueriesAreClean` | multiquery_retriever.py:47-61 | every parsed query is stripped and mentions "improvement" in no case |
| `MultiQuery.NumberedLine` | multiquery_retriever.py:60-61 | a line made of one digit, a dot, a space and a stripped text, such as "1. Who is Dhoni?", becomes exactly that text |
| `MultiQuery.NumberOnlyLine` | multiquery_retriever.py:60-61 | the line "1." becomes the empty query, and that empty query is kept in the list |
| `MultiQuery.Top` | multiquery_retriever.py:80 | a search returns the first two chunks of the ranking, or all of them if fewer |
| `MultiQuery.Retrieved` | multiquery_retriever.py:79-81 | at most two chunks are retrieved per query |
| `MultiQuery.MergeResults` | multiquery_retriever.py:81-85 | the inner loop over one query's results extends the merged chunks to `FirstByContent` of everything retrieved so far, and keeps `seen` equal to the merged chunks' contents |
| `MultiQuery.RetrieveAll` | multiquery_retriever.py:76-85 | the loop over the queries, with the inner loop and the `seen` set, returns the merged chunks `AllDocs` describes |
| `MultiQuery.FirstByContentContents` | multiquery_retriever.py:82-85 | the merged chunks' contents are the retrieved contents, each once, in order of first retrieval |
| `MultiQuery.FirstByContentKeepsFirst` | multiquery_retriever.py:82-85 | each merged chunk is the first retrieved chunk with its content, by query and then by rank |
| `MultiQuery.AllDocsDistinct` | multiquery_retriever.py:76-85 | no two merged chunks share a page content, and there are at most `2 * len(queries)` of them |
| `HashUtils.SortedPaths` | utils/hash_utils.py:8 | `sorted` returns the same paths, duplicates kept, in ascending code-point order |
| `HashUtils.SortedUnique` | utils/hash_utils.py:8 | a multiset of paths has only one sorted arrangement |
| `HashUtils.HashFiles` | utils/hash_utils.py:4-12 | the loop returns the digest of the contents concatenated in sorted order, or fails on the first sorted path that cannot be opened |
| `HashUtils.HashOf` | utils/hash_utils.py:4-12 | definition: the SHA-256 digest of the file contents concatenated in sorted path order, or the first sorted path with no file; `HashOrderIndependent` and `HashFailsIff` state its properties |
| `HashUtils.Hasher.Update` | utils/hash_utils.py:10 | the bytes fed so far are extended by exactly the new data |
| `HashUtils.Hasher.HexDigest` | utils/hash_utils.py:12 | the digest is the SHA-256 oracle applied to every byte fed, in order |
| `HashUtils.HashOrderIndependent` | utils/hash_utils.py:8 | listing the same paths in any order gives the same result |
| `HashUtils.HashFailsIff` | utils/hash_utils.py:9 | the call fails exactly when some listed path has no file, and it names such a path |
| `HashUtils.HashNoFiles` | utils/hash_utils.py:6-12 | an empty list gives the SHA-256 digest of empty input |
| `HashUtils.HashDuplicate` | utils/hash_utils.py:8-10 | a path listed twice has its contents hashed twice |
| `HashUtils.HashTwoFiles` | utils/hash_utils.py:8-10 | `["b", "a"]` hashes the contents of "a" then of "b", with nothing between them |
| `Text.ContainsIff` | utils/rag_chain.py:73-76 | Python's `in` on strings holds exactly when the text occurs at some position |
| `Text.Strip` | multiquery_retriever.py:47 | `strip()` returns text with no whitespace at either end, and is empty exactly when the text is all whitespace |
| `Text.StripPiece` | multiquery_retriever.py:47 | the stripped text is the piece of the text that starts right after its leading whitespace |
| `Text.StripRest` | multiquery_retriever.py:47 | everything after that piece is whitespace |
| `Text.StripUnique` | multiquery_retriever.py:47 | any stripped piece of the text that starts after its leading whitespace and is followed only by whitespace is `Strip`'s result, so these contracts pin `strip()` down completely |
| `Text.StripIdempotent` | multiquery_retriever.py:47 | stripping a stripped text changes nothing |
| `Text.JoinSplit` | app.py:256 | joining the pieces of `split("\n")` with the separator gives back the text |
| `Text.DecimalRoundTrip` | app.py:331 | `int(str(n)) == n` for every natural number |
| `Seqs.FirstOccurrencesOrder` | app.py:327-332 | first-occurrence de-duplication keeps elements in the order of their first occurrences |

## Left out

- Streamlit widgets, CSS, tabs, spinners, the bar chart and the download buttons are not modelled. They are presentation only; the prefilled-question button is one of them.
- The upload-saving loop (app.py:158-160), `utils/reset.py` with the "Clear & Reset App" button, and `utils/loader.py` are not modelled. They are file deletions and library loader calls.
- `utils/splitter.py` is not part of this model. Chunks are an input sequence.
- Loading the vector store is not modelled. It is a FAISS call inside a bare `except`, so `HandleQuestion` takes whether a store was loaded as a parameter.
- `export_chat_json` is not modelled. It is `json.dumps`.
- The demo scripts are not modelled. They call library APIs and print.
- MD5, SHA-256, UTF-8 encoding, the embedding backend, FAISS and the language models are parameters, not algorithms.
- `Text.Lower`: case mapping covers ASCII letters only, because Python's full Unicode case mapping is not modelled. (`Text.Upper` and `Text.IsDigit` below are limited the same way.)
- `Text.Upper`: ASCII letters only, for the same reason.
- `Text.IsDigit`: only ASCII digits count. Python's `isdigit` also accepts other Unicode digits, which `int()` may reject.
- Logging `print` calls are not modelled. They produce output only.
- `time.sleep(2)` is not modelled. It is timing only; `Ask` counts the pauses in a ghost out-parameter.
- `last_error` is not modelled. It is assigned but never read.
- `RagChain.Ask` requires a script with at least one outcome per provider. This is how the model supplies the outcome of every attempt the loop can make.
- The contents of `doc_hash.json` are modelled as only its `"hash"` and `"model"` entries, or as unreadable. Unreadable covers a file `json.load` rejects and JSON that is not an object, where `.get` raises.
- Concurrency is not modelled. The module-level index and the directory wipes are unsynchronised in the source; the model is single-threaded.
- `reset_model` is modelled, but nothing in the program calls it.
