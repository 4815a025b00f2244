# Memory pipeline of a retrieval-augmented chat assistant

A Dafny model of the memory pipeline in `src/chat.py`: the embedding function
given to the vector store, document ingestion (`process_and_add_documents`),
chat-turn recording (`add_chat_to_memory`), memory retrieval
(`retrieve_chat_memory`) and the query pipeline (`rag_pipeline`).

The collaborators the pipeline calls are parameters of the model, never
modelled themselves:

- the text splitter is a function `(SplitterConfig, string) -> seq<string>`,
  called with the fixed configuration chunk size 500, overlap 50;
- the embedding model is a function from a batch to a sequence of vectors;
- the language model is a function `string -> string`;
- the store's answer to a query is a function from the query request to a
  `QueryResult` (a falsy value, or a `documents` list);
- the clock reading `time.time()` is a `real` parameter.

The store itself is the append-only log of the `(id, text)` pairs handed to
`collection.add`, in order, so "what a write does" means "what it appends".
Python values that the code inspects with `isinstance` are
`PyValues.Value = Str | List | Other`.

Files:

- `values.dfy` (`PyValues`): the value universe, `ValueError`/`TypeError`, `Result`.
- `decimal.dfy` (`Decimal`): Python's `str()` of an integer as used in f-string ids,
  with a parser and the round trip that makes ids injective.
- `vector_store.dfy` (`VectorStore`): fragments, add requests, the log store.
- `embedding.dfy` (`Embedding`): `ChromaDBEmbeddingFunction.__call__`.
- `ingestion.dfy` (`Ingestion`): chunk ids and `process_and_add_documents`.
- `chat_memory.dfy` (`ChatMemory`): turn text and id, recording, flattening.
- `rag.dfy` (`Rag`): `str.join`, the prompt template, `rag_pipeline`.

Behaviour of the code worth knowing:

- a non-string, non-list embedding input raises `ValueError` with the code's
  message, not a dedicated configuration error;
- chat ids are `chat_<whole seconds>`, so two turns in one second share an id
  (`ChatMemory.ChatIdCollision` proves exactly when); nothing in the code
  guarantees fresh ids;
- recent memory is fetched with a similarity query for the empty string;
- one chat turn is stored as one concatenated entry, and that entry does not
  determine the turn when the query itself contains the assistant delimiter
  (`ChatMemory.ChatEntryAmbiguous`);
- a memory item that is not a string makes `" \n".join` raise `TypeError`
  before the model is called and before anything is written
  (`Rag.FailedJoinMakesNoModelCall`).

## Model

| member | source | states |
|---|---|---|
| `Embedding.Normalize` | src/chat.py:23-27 | a string becomes the one-element batch holding it, a list is the batch unchanged, any other input is refused with the code's ValueError message; success exactly for strings and lists |
| `Embedding.NormalizeIdempotent` | src/chat.py:23-27 | a normalised batch, passed again as a list, normalises to itself |
| `Embedding.Call` | src/chat.py:23-28 | the call succeeds exactly when the input is a string or a list; the model receives the normalised batch and its output is returned as is; otherwise a ValueError |
| `Embedding.RefusedInputMakesNoModelCall` | src/chat.py:26-27 | for a refused input the outcome does not depend on the embedding model at all, so the model is never consulted |
| `Embedding.StringIsBatchOfOne` | src/chat.py:24-25 | embedding a string is the same as embedding the one-element list holding it |
| `Decimal.NatToString` | src/chat.py:67 | the decimal rendering of an index is a non-empty digit string that starts with 0 only for zero, and zero is the single digit `0` |
| `Decimal.ParseNatToString` | src/chat.py:67 | reading a rendered index back gives the index |
| `Decimal.NatToStringInjective` | src/chat.py:67 | two indices render alike exactly when they are equal |
| `Decimal.IntToString` | src/chat.py:76 | the rendering of an integer starts with a minus sign exactly when it is negative; after the sign come the digits of its absolute value, read back exactly, with a leading 0 only for zero, when the digits are the single `0` |
| `Decimal.IntToStringInjective` | src/chat.py:76 | two integers render alike exactly when they are equal |
| `Ingestion.ChunkId` | src/chat.py:67 | a chunk id is the document prefix, then `_chunk_`, then digits that read back as the chunk's index, with a leading 0 only for index 0, whose id ends in exactly `_chunk_0` |
| `Ingestion.ChunkIds` | src/chat.py:67 | the id list has one id per chunk and id i is the prefix, `_chunk_`, then i |
| `Ingestion.ChunkIdInjective` | src/chat.py:67 | two chunk ids of one document agree exactly when their indices agree |
| `Ingestion.ChunkIdsDistinct` | src/chat.py:67 | the ids generated for one document are pairwise distinct |
| `Ingestion.IngestCalls` | src/chat.py:56-71 | ingestion issues at most one add request, and one exactly when the content is non-empty and the splitter (500/50) yields chunks; that request carries the chunks in order with id i for chunk i |
| `Ingestion.EmptyContentSkipsSplitter` | src/chat.py:58-62 | with empty content the outcome is the same whatever the splitter is, so no splitting happens and nothing is written |
| `Ingestion.ProcessAndAddDocuments` | src/chat.py:56-71 | empty content or no chunks leaves the store unchanged; otherwise the old store is kept as a prefix and exactly the pairs (chunk id i, chunk i) follow in index order |
| `Ingestion.IngestedIdsDistinct` | src/chat.py:67-71 | the fragments one ingestion appends carry pairwise distinct ids |
| `VectorStore.Fragments` | src/chat.py:71 | an add request pairs id i with document i, one fragment per id |
| `VectorStore.Add` | src/chat.py:71 | an add keeps every earlier entry and appends exactly the request's pairs, in order |
| `ChatMemory.ChatEntry` | src/chat.py:75 | the stored turn is `User: `, the query, ` \nAssistant: ` (space before the newline), the response, each at its fixed position |
| `ChatMemory.ResponseRoundTrip` | src/chat.py:75 | given the query, the response is recovered from the stored entry |
| `ChatMemory.ChatEntryAmbiguous` | src/chat.py:75 | two different turns can produce the same stored entry when a query contains the assistant delimiter |
| `ChatMemory.TruncateSeconds` | src/chat.py:76 | `int()` of the clock reading is the integer toward zero, within one second of the reading |
| `ChatMemory.ChatId` | src/chat.py:76 | a chat id is `chat_` followed by the whole second of the clock reading: for a non-negative reading the digits read back as a number within one second below it and start with 0 only for readings below 1; every reading strictly between -1 and 1 gives exactly `chat_0`; a minus sign appears exactly for readings at or below -1, followed by digits without a leading 0 that read back as the magnitude of the reading truncated toward zero |
| `ChatMemory.ChatIdCollision` | src/chat.py:76 | two turns receive the same id exactly when their clock readings truncate to the same second |
| `ChatMemory.SameSecondTurnsCollide` | src/chat.py:76 | a documented example of `ChatIdCollision`: two concrete turns half a second apart within one second get the same id |
| `ChatMemory.RecordTurnCall` | src/chat.py:75-77 | recording a turn is one add request with a single id, the chat id of the clock reading, and a single document, the turn text |
| `ChatMemory.AddChatToMemory` | src/chat.py:73-77 | recording grows the store by exactly one entry at the end, with the chat id and the turn text, from which query and response can be read back |
| `ChatMemory.MemoryQuery` | src/chat.py:81 | the request `retrieve_chat_memory` sends: the single empty query text and the requested result count; no contract of its own, it is the argument the pipeline's store answer is applied to in `Rag.Memory` |
| `ChatMemory.DocumentsOf` | src/chat.py:82 | the documents list of a truthy answer, empty for a falsy one; no contract of its own, its meaning is fixed by `RetrieveChatMemory` and `EmptyAnswerEmptyMemory` |
| `ChatMemory.Flatten` | src/chat.py:85-91 | the reference flattening (each item spliced, appended or dropped, in item order); no contract of its own, its meaning is fixed by `FlattenAppend`, `FlattenMembership` and `FlattenFixpoint` |
| `ChatMemory.RetrieveChatMemory` | src/chat.py:79-92 | the loop over the answer's documents yields the reference flattening; a falsy answer yields an empty list |
| `ChatMemory.FlattenAppend` | src/chat.py:85-91 | flattening distributes over concatenation, so relative order is preserved |
| `ChatMemory.FlattenOfStrings` | src/chat.py:85-91 | a flat list of strings flattens to itself |
| `ChatMemory.FlattenMembership` | src/chat.py:86-90 | a value is in the flat list exactly when it is a string item or an element of a list item; other items are dropped |
| `ChatMemory.GroupedFlattensToStrings` | src/chat.py:84-91 | an answer made of lists of strings (and bare strings) flattens to strings only |
| `ChatMemory.FlattenIdempotentOnGroups` | src/chat.py:84-91 | flattening such an answer a second time changes nothing |
| `ChatMemory.FlattenWeight` | src/chat.py:86-90 | flattening never grows the constructor count and shrinks it whenever some item is not a string |
| `ChatMemory.FlattenFixpoint` | src/chat.py:85-91 | flattening leaves a list unchanged exactly when every item is a string |
| `ChatMemory.EmptyAnswerEmptyMemory` | src/chat.py:82 | a falsy answer or an answer without documents gives empty memory |
| `Rag.Join` | src/chat.py:97 | Python's `sep.join` on strings; no contract of its own, its meaning is fixed by `JoinEnds`, `JoinLength` and `JoinConcat` |
| `Rag.JoinEnds` | src/chat.py:97 | the joined context begins with the first memory entry and ends with the last |
| `Rag.JoinLength` | src/chat.py:97 | the joined context is as long as its entries plus one separator per adjacent pair |
| `Rag.JoinConcat` | src/chat.py:97 | joining two non-empty runs is joining each with one separator between them |
| `Rag.FirstNonStr` | src/chat.py:97 | the index found is that of a non-string item with only strings before it, i.e. the first one |
| `Rag.JoinValues` | src/chat.py:97 | join succeeds exactly when every item is a string, giving the joined texts; otherwise a TypeError naming the first non-string item (by `FirstNonStr`) and its type name cut at 80 characters, as CPython's join reports it |
| `Rag.JoinErrorMessage` | src/chat.py:97 | join's TypeError message is `sequence item `, the decimal item index, `: expected str instance, `, at most the first 80 characters of the type name (as `%.80s` cuts), then ` found` |
| `Rag.Memory` | src/chat.py:96 | the memory the pipeline reads: the flattened answer to the default query of 5 results; no contract of its own, `ChatMemory.RetrieveChatMemory` fixes its meaning, and `RagPipeline`'s success condition and prompt are stated through it |
| `Rag.PromptSuffix` | src/chat.py:99 | the template after the context block, `\nUser: q\nAssistant:`; no contract of its own, its meaning is fixed by `BuildPrompt` and `FirstQueryPrompt` |
| `Rag.BuildPrompt` | src/chat.py:96-99 | empty memory gives exactly `\nUser: q\nAssistant:`; otherwise the prompt is the memory joined by ` \n` followed by that same suffix; it fails only with a TypeError, exactly when some memory item is not a string |
| `Rag.PromptOfOneMore` | src/chat.py:97-99 | one more memory entry extends the context by a separator and that entry, before the same suffix |
| `Rag.RagPipeline` | src/chat.py:94-103 | the answer is the model's output for the built prompt, unchanged; exactly one add request is issued, which appends one entry with the chat id and the turn text and keeps the old store; it fails, writing nothing, exactly when memory holds a non-string |
| `Rag.FailedJoinMakesNoModelCall` | src/chat.py:96-100 | when memory holds a non-string the run fails the same way whatever the model is, so the model is never asked and nothing is written |
| `Rag.RecordedTurnHoldsQueryAndResponse` | src/chat.py:100-102 | the entry a successful run appends holds the query and the returned answer at their fixed places |
| `Rag.PipelineSucceedsOnStoreShape` | src/chat.py:96-99 | when the store answers with lists of strings the pipeline always succeeds |
| `Rag.FirstQueryPrompt` | src/chat.py:96-100 | with a falsy store answer the prompt is the bare template and the answer is the model's output for it |

## Left out

- `read_pdf` (src/chat.py:41-54): temporary-file I/O and PDF page extraction in a foreign library.
- The text splitter's internals (src/chat.py:61-62): a foreign library; only its configuration (500, 50) is fixed, and no chunk size or overlap law is claimed.
- The store's persistence, its own embedding of documents, similarity ranking, and what a query for the empty string returns (src/chat.py:17, src/chat.py:35-39, src/chat.py:81): foreign behaviour over float vectors; the answer to a query is a parameter.
- What the store library does with an id it already holds, for instance the second of two chat turns recorded in one second: foreign behaviour; the store here is the log of add requests.
- A query result whose `documents` entry is None or not a list: the default query always includes documents, so `documents` is a sequence of values.
- The embedding model and the language model (src/chat.py:30-32, src/chat.py:105-107): network services, kept as total function parameters, so their failures and timeouts are not modelled.
- `time.time()`: a float, modelled as a `real`; the embedding vectors are sequences of `real`.
- The `print` warnings (src/chat.py:59, src/chat.py:64, src/chat.py:66, src/chat.py:69): logging only.
- The `n_results` argument (src/chat.py:79): it only reaches the store's query; the pipeline passes the default of 5.
- The Streamlit user interface and session state (src/chat.py:109-141).
- Rag.JoinValues: the type name in the TypeError message is cut at 80 characters, where CPython cuts at 80 bytes of UTF-8; the two agree for ASCII type names, which is what Python's built-in and ordinary class names are.
- `test/chat.py`: user interface and streaming glue around foreign services.
