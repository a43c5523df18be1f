# Semantic question matcher: knowledge base, index and decision policy

This project models the core of a small question-answering service (`app.py`). The service
keeps a knowledge base of question/answer pairs. It also keeps an index of the question texts
and their sentence embeddings, parallel to the entries. To answer a question, it scores the
question against every indexed embedding by cosine similarity. It picks the first
highest-scoring entry and accepts it only when the score is at least 0.7. A new pair is
learned by appending it, writing the knowledge-base file and rebuilding the whole index.

Modules:

- `Wrappers`: `Option` and `Result`.
- `KnowledgeStore`: `Entry` and the knowledge-base `Document`. It has the parts of the document
  the core uses: the `questions` member and the other top-level members, kept as JSON text.
  Loading works over an abstract outcome of reading the file: `NotFound`, `DecodeError`,
  `ReadFailed` (any other error while opening or decoding it) or `Parsed(doc)`.
- `SimilarityIndex`: the embedding model as an opaque `Embedder`, made of an `encode`
  function and a `cosSim` function. Also the index rebuild (`EmbedQuestions`) and the `size`
  of the embedding matrix.
- `MatchEngine`: the threshold, the first-occurrence `argmax` of the similarity tensor and
  `FindBestMatch`.
- `Service`: the reply to a question as a function (`Answer`), and the process state as the
  class `Engine`. The class has the knowledge base, the question list, the embeddings and
  the model. `Start` builds it, `Ask` reads it and `Learn` changes it.

The global state works like this. `Engine.Valid` says that the index is the rebuild of the
first `indexed` entries. `Engine.Consistent` says that it covers all of them. The index can
fall behind the entries because the source appends the new entry before it writes the file
(app.py:79-80). When the write raises, the handler stops with the entry still in memory, and
the question list and embeddings stay as they were. `Learn` takes the outcome of the write as
its `saved` parameter. With `saved` false, the model keeps exactly that state. Until the next
successful learn, `Ask` answers only from the indexed entries
(`AnswerSeesOnlyIndexedEntries`). Writing the file before changing memory would keep the
entries and the index in step. The code appends first, and the model follows the code.

One would expect that after `learn(q, a)`, asking `q` answers `a`. The code does so when
`q`'s embedding is non-empty, its self-similarity is at least 0.7, and every earlier entry
scores strictly lower (`LearnThenAsk`). An earlier entry with the same question text wins the
tie, so a match for `q` never comes from the new entry (`NewEntryLosesToSameQuestion`).
Relearning a question with a new answer therefore goes on returning the old answer
(`RelearnKeepsFirstAnswer`). The model follows the code.

## Model

| member | source | states |
|---|---|---|
| `KnowledgeStore.Load` | app.py:14-24 | a missing file or invalid JSON gives exactly `{"questions": []}`; any other read or decode failure is not caught and gives no knowledge base; a document without `questions` gets an empty list and keeps its other members; any other document is kept as it is |
| `KnowledgeStore.SaveThenLoad` | app.py:14-29 | any knowledge base with a `questions` member, written to the file and loaded back, comes back unchanged |
| `SimilarityIndex.EmbedQuestions` | app.py:32-37 | the rebuilt index is aligned with the entries: question `i` is entry `i`'s question and row `i` is its encoding; the matrix is absent (`None`) exactly when there are no entries |
| `SimilarityIndex.DescriptionIsRebuild` | app.py:32-37 | any index aligned with the entries has the same questions and rows as the rebuild, so the index is fully derived from the entries |
| `SimilarityIndex.RebuildAfterAppend` | app.py:79-84 | rebuilding after one append extends the question list and the matrix by exactly the new question and its encoding, so both grow by one and stay index-aligned |
| `SimilarityIndex.Size` | app.py:41 | the matrix `size` is zero exactly when every row is empty |
| `MatchEngine.ArgMax` | app.py:45 | the chosen position holds the maximal score and no earlier position holds it (the tensor argmax's first occurrence) |
| `MatchEngine.FirstMaxIsArgMax` | app.py:45-46 | a position is the first maximal one exactly when it is ArgMax's, so the tie-break is determined |
| `MatchEngine.FindBestMatch` | app.py:40-49 | with no questions, no matrix or an empty matrix the result is `(None, 0)`; otherwise a match is accepted exactly when some score is at least 0.7 (0.7 itself is accepted), its index is in range and is the first with the highest score, and it carries that score; every rejection is `(None, 0)` |
| `Service.Answer` | app.py:57-68 | a missing or empty question is refused; otherwise the reply is the accepted entry's answer with its score, or `"Sorry, I didn't understand that."` with similarity 0; the similarity is 0 or at least 0.7 |
| `Service.AskOnEmptyBase` | app.py:32-42 | on an empty knowledge base every question gets the fallback answer with similarity 0 |
| `Service.AnswerSeesOnlyIndexedEntries` | app.py:63-65 | with an index over the first `n` entries, the reply does not depend on the entries after them |
| `Service.LearnedQuestionIsMatched` | app.py:79-84 | after learning `q`, asking `q` is accepted with a score at least `q`'s self-similarity, provided its embedding is non-empty and its self-similarity reaches 0.7 |
| `Service.LearnThenAsk` | app.py:79-84 | if every earlier question scores strictly below `q`'s self-similarity, asking `q` right after learning `(q, a)` answers `a` with that score |
| `Service.RelearnKeepsFirstAnswer` | app.py:45-46 | learning `(q, a)` after `(q, b)` still answers `b`, because the first of the tied entries is chosen |
| `Service.NewEntryLosesToSameQuestion` | app.py:45-46 | when an earlier entry already has the question `q`, a match for `q` after learning `(q, a)` is an earlier entry, and the reply is that entry's answer |
| `Service.Engine.constructor` | app.py:52-53 | the state right after start-up holds the loaded knowledge base with an index over all of its entries |
| `Service.Start` | app.py:52-53 | start-up fails exactly when reading the file fails in a way other than a missing file or invalid JSON; otherwise it holds the loaded knowledge base, indexed in full |
| `Service.Engine.Ask` | app.py:57-68 | the reply is `Answer` over the current entries and index |
| `Service.Engine.Learn` | app.py:72-86 | a missing or empty question or answer is refused and changes nothing. Otherwise exactly one entry is appended at the end and earlier entries stay unchanged. After a successful write the file holds the new knowledge base, loading it again gives that knowledge base, and the index covers every entry. After a failed write the entry stays in memory while the file and index stay as they were. The index is always the rebuild of a prefix of the entries |

## Left out

- The HTTP layer: routes, request JSON parsing, `jsonify`, CORS, status codes and `app.run`. A refused request is a `BadRequest` carrying the source's message. An exception is a `Failure`.
- The health-check route returns a constant string and touches no state.
- File I/O and `json.load`/`json.dump`. Loading takes the outcome of reading the file. Saving is the ghost field `persisted` plus the `saved` outcome given to `Learn`. A failed write is modelled as leaving the file as it was. A file truncated by a write that fails halfway is not modelled.
- The sentence-transformer model and `util.cos_sim` are the opaque functions of `Embedder`. Nothing is assumed about their values, so the similarity is not bounded to [0, 1]. Scores are exact reals, so floating-point rounding and NaN scores are not modelled.
- Documents whose top level is not a JSON object are not modelled. Neither are entries missing `question` or `answer`. In the source a missing `question` raises at start-up and a missing `answer` raises when that entry is matched. Here entries are typed.
- A `questions` member that is not a list is not modelled. An empty object or string passes start-up and every ask gets the fallback. The first learn then raises on the append.
- Members of an entry other than `question` and `answer` are not modelled. The source keeps them and writes them back on every save, but `Entry` has only the two fields.
- Request fields are modelled as absent or a string. In the source, a falsy non-string value (`0`, `false`, `[]`, `{}`) is refused like an absent field. A truthy non-string question reaches the encoder; in learn that happens only after the entry has been appended and saved. A truthy non-string answer is stored and later returned unchanged. None of this is modelled, because a field is an `Option<string>`.
- Failures of the encoder are not modelled.
- Concurrent requests are not modelled. The source rebinds the global question list and embeddings without a lock.
- Service.Answer: requires that the index has no more rows than there are entries. With more rows than entries, the source can raise an index error at app.py:65. Engine.Valid guarantees this for every call the service makes.
