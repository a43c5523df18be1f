/** The in-memory index: the question texts and their embeddings, parallel to the entries. */
module SimilarityIndex {
  import opened Wrappers
  import opened KnowledgeStore

  /** An embedding vector. */
  type Vector = seq<real>

  /** The sentence-embedding model, opaque here: a deterministic encoder and the cosine
      similarity of two embeddings. */
  datatype Embedder = Embedder(encode: string -> Vector, cosSim: (Vector, Vector) -> real)

  /** The derived index: the question texts and, unless there are none, their embedding matrix. */
  datatype Index = Index(questions: seq<string>, embeddings: Option<seq<Vector>>)

  /** The rows of the embedding matrix; an absent matrix has none. */
  function Rows(ix: Index): seq<Vector>
  {
    if ix.embeddings.None? then [] else ix.embeddings.value
  }

  /** The question texts of the entries, in order. */
  function QuestionTexts(entries: seq<Entry>): seq<string>
  {
    seq(|entries|, i requires 0 <= i < |entries| => entries[i].question)
  }

  /** The index describes exactly these entries: question i is entry i's question and, when
      the matrix is present, row i is the encoding of that question. */
  ghost predicate DescribesEntries(ix: Index, entries: seq<Entry>, model: Embedder)
  {
    && |ix.questions| == |entries|
    && (forall i :: 0 <= i < |entries| ==> ix.questions[i] == entries[i].question)
    && |Rows(ix)| == |entries|
    && (forall i :: 0 <= i < |entries| ==> Rows(ix)[i] == model.encode(entries[i].question))
  }

  /** Rebuilds the index from scratch. It is aligned with the entries, and the matrix is
      absent exactly when there are no entries. */
  function EmbedQuestions(entries: seq<Entry>, model: Embedder): (ix: Index)
    ensures DescribesEntries(ix, entries, model)
    ensures ix.embeddings.None? <==> entries == []
  {
    var questions := QuestionTexts(entries);
    if |questions| == 0 then Index(questions, None)
    else Index(questions, Some(seq(|questions|, i requires 0 <= i < |questions| => model.encode(questions[i]))))
  }

  /** A description of the entries is unique: it is the rebuilt index (up to an absent matrix
      standing for an empty one). */
  lemma DescriptionIsRebuild(ix: Index, entries: seq<Entry>, model: Embedder)
    requires DescribesEntries(ix, entries, model)
    ensures ix.questions == EmbedQuestions(entries, model).questions
    ensures Rows(ix) == Rows(EmbedQuestions(entries, model))
  {
  }

  /** Rebuilding after appending one entry extends the questions and the matrix by exactly
      that entry's question and its encoding. */
  lemma RebuildAfterAppend(entries: seq<Entry>, e: Entry, model: Embedder)
    ensures EmbedQuestions(entries + [e], model).questions == EmbedQuestions(entries, model).questions + [e.question]
    ensures Rows(EmbedQuestions(entries + [e], model)) == Rows(EmbedQuestions(entries, model)) + [model.encode(e.question)]
  {
  }

  /** The number of numbers in the matrix (numpy's `size`); it is zero exactly when every row
      is empty, so a matrix with at least one non-empty row has rows to score. */
  function Size(rows: seq<Vector>): (n: nat)
    ensures n == 0 <==> forall i :: 0 <= i < |rows| ==> |rows[i]| == 0
  {
    if |rows| == 0 then 0 else Size(rows[..|rows| - 1]) + |rows[|rows| - 1]|
  }
}
