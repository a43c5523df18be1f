/** The ask and learn operations over the knowledge base and its index. */
module Service {
  import opened Wrappers
  import opened KnowledgeStore
  import opened SimilarityIndex
  import opened MatchEngine

  /** The answer given when no known question matches. */
  const Fallback: string := "Sorry, I didn't understand that."
  const NoQuestionMessage: string := "No question provided"
  const MissingFieldsMessage: string := "Both question and answer are required"
  const LearnedMessage: string := "New knowledge added successfully!"

  /** A reply to a question: the answer and the similarity it was chosen with. */
  datatype Reply = Reply(answer: string, similarity: real)

  /** A rejected request field, or a knowledge-base file that could not be written. */
  datatype Error = BadRequest(message: string) | SaveFailed

  /** A request field is given when it is present and is not the empty string. */
  predicate Provided(field: Option<string>)
  {
    field.Some? && field.value != ""
  }

  /** The reply to a question, given the entries and the index built from (a prefix of) them.
      A missing or empty question is refused; otherwise the reply is the answer of the
      accepted best match with its score, or the fallback answer with similarity 0. */
  function Answer(entries: seq<Entry>, ix: Index, input: Option<string>, model: Embedder): (r: Result<Reply, Error>)
    requires |Rows(ix)| <= |entries|
    ensures !Provided(input) ==> r == Failure(BadRequest(NoQuestionMessage))
    ensures Provided(input) ==> r.Success?
    ensures r.Success? ==>
              var m := FindBestMatch(input.value, ix.questions, ix.embeddings, model);
              && (m.index.Some? ==> m.index.value < |entries| && r.value == Reply(entries[m.index.value].answer, m.score))
              && (m.index.None? ==> r.value == Reply(Fallback, 0.0))
    ensures r.Success? ==> r.value.similarity == 0.0 || r.value.similarity >= Threshold
  {
    if !Provided(input) then Failure(BadRequest(NoQuestionMessage))
    else
      var m := FindBestMatch(input.value, ix.questions, ix.embeddings, model);
      if m.index.Some? then Success(Reply(entries[m.index.value].answer, m.score))
      else Success(Reply(Fallback, 0.0))
  }

  /** On an empty knowledge base every question gets the fallback answer with similarity 0. */
  lemma AskOnEmptyBase(input: Option<string>, model: Embedder)
    requires Provided(input)
    ensures Answer([], EmbedQuestions([], model), input, model) == Success(Reply(Fallback, 0.0))
  {
  }

  /** Only the entries the index was built from can be answered: an index over the first `n`
      entries gives the same reply whatever follows them. */
  lemma AnswerSeesOnlyIndexedEntries(entries: seq<Entry>, n: nat, input: Option<string>, model: Embedder)
    requires n <= |entries|
    ensures Answer(entries, EmbedQuestions(entries[..n], model), input, model)
         == Answer(entries[..n], EmbedQuestions(entries[..n], model), input, model)
  {
  }

  /** After learning `q`, asking exactly `q` is answered from the knowledge base, provided `q`'s
      embedding is not empty and is similar enough to itself: the best match is accepted and
      scores at least `q`'s self-similarity. */
  lemma LearnedQuestionIsMatched(entries: seq<Entry>, q: string, a: string, model: Embedder)
    requires q != ""
    requires |model.encode(q)| > 0
    requires model.cosSim(model.encode(q), model.encode(q)) >= Threshold
    ensures var es := entries + [Entry(q, a)];
            var ix := EmbedQuestions(es, model);
            var m := FindBestMatch(q, ix.questions, ix.embeddings, model);
            && m.index.Some?
            && m.score >= model.cosSim(model.encode(q), model.encode(q))
            && Answer(es, ix, Some(q), model) == Success(Reply(es[m.index.value].answer, m.score))
  {
  }

  /** The round trip: when every earlier entry's question scores strictly below `q`'s
      self-similarity, asking `q` right after learning `(q, a)` answers `a` with that score. */
  lemma LearnThenAsk(entries: seq<Entry>, q: string, a: string, model: Embedder)
    requires q != ""
    requires |model.encode(q)| > 0
    requires model.cosSim(model.encode(q), model.encode(q)) >= Threshold
    requires forall j :: 0 <= j < |entries| ==>
               model.cosSim(model.encode(q), model.encode(entries[j].question)) < model.cosSim(model.encode(q), model.encode(q))
    ensures var es := entries + [Entry(q, a)];
            Answer(es, EmbedQuestions(es, model), Some(q), model)
              == Success(Reply(a, model.cosSim(model.encode(q), model.encode(q))))
  {
  }

  /** The round trip fails for a question learned twice: the first answer keeps winning the
      tie, so relearning `q` with a new answer `a` still answers the old `b`. */
  lemma RelearnKeepsFirstAnswer(q: string, a: string, b: string, model: Embedder)
    requires q != ""
    requires |model.encode(q)| > 0
    requires model.cosSim(model.encode(q), model.encode(q)) >= Threshold
    ensures var es := [Entry(q, b), Entry(q, a)];
            Answer(es, EmbedQuestions(es, model), Some(q), model)
              == Success(Reply(b, model.cosSim(model.encode(q), model.encode(q))))
  {
  }

  /** The same holds for any knowledge base that already holds the question `q`: after learning
      `(q, a)`, a match for `q` is never the new entry, so the reply is an earlier entry's
      answer. */
  lemma NewEntryLosesToSameQuestion(entries: seq<Entry>, j: nat, q: string, a: string, model: Embedder)
    requires j < |entries| && entries[j].question == q
    requires q != ""
    ensures var es := entries + [Entry(q, a)];
            var ix := EmbedQuestions(es, model);
            var m := FindBestMatch(q, ix.questions, ix.embeddings, model);
            m.index.Some? ==>
              && m.index.value < |entries|
              && Answer(es, ix, Some(q), model) == Success(Reply(entries[m.index.value].answer, m.score))
  {
    var es := entries + [Entry(q, a)];
    var ix := EmbedQuestions(es, model);
    var m := FindBestMatch(q, ix.questions, ix.embeddings, model);
    if m.index.Some? {
      var s := Scores(q, ix.embeddings.value, model);
      assert es[j].question == es[|entries|].question;
      assert s[j] == s[|entries|];
    }
  }

  /** The chatbot's process state: the knowledge base, the index the handlers consult, and the
      embedding model. */
  class Engine {
    var kb: Document
    var questions: seq<string>
    var embeddings: Option<seq<Vector>>
    const model: Embedder
    /** How many leading entries the index was built from. */
    ghost var indexed: nat
    /** The knowledge-base document the file holds, if it holds one. */
    ghost var persisted: Option<Document>

    /** The index is the rebuild of a prefix of the entries. */
    ghost predicate Valid()
      reads this
    {
      && kb.questions.Some?
      && indexed <= |Entries(kb)|
      && Index(questions, embeddings) == EmbedQuestions(Entries(kb)[..indexed], model)
    }

    /** The index covers every entry. */
    ghost predicate Consistent()
      reads this
    {
      Valid() && indexed == |Entries(kb)|
    }

    /** The state right after start-up: a loaded knowledge base, indexed in full. */
    constructor (loaded: Document, stored: Option<Document>, model: Embedder)
      requires loaded.questions.Some?
      ensures this.model == model && persisted == stored
      ensures kb == loaded && Consistent()
    {
      this.model := model;
      var ix := EmbedQuestions(Entries(loaded), model);
      kb := loaded;
      questions, embeddings := ix.questions, ix.embeddings;
      indexed := |Entries(loaded)|;
      assert Entries(loaded)[..|Entries(loaded)|] == Entries(loaded);
      persisted := stored;
    }

    /** Answers a question from the current state. */
    method Ask(input: Option<string>) returns (r: Result<Reply, Error>)
      requires Valid()
      ensures r == Answer(Entries(kb), Index(questions, embeddings), input, model)
    {
      r := Answer(Entries(kb), Index(questions, embeddings), input, model);
    }

    /** Learns a question/answer pair: appends it, writes the file (`saved` says whether the
        write succeeded) and then rebuilds the index. A missing or empty field changes
        nothing. A failed write comes after the append, so the entry stays in memory while
        the file and the index are left as they were. */
    method Learn(question: Option<string>, answer: Option<string>, saved: bool) returns (r: Result<string, Error>)
      requires Valid()
      modifies this
      ensures Valid()
      ensures !(Provided(question) && Provided(answer)) ==>
                r == Failure(BadRequest(MissingFieldsMessage)) && unchanged(this)
      ensures Provided(question) && Provided(answer) ==>
                && kb == old(kb).(questions := Some(old(Entries(kb)) + [Entry(question.value, answer.value)]))
                && (saved ==> && r == Success(LearnedMessage) && persisted == Some(kb)
                              && Load(Parsed(persisted.value)) == Some(kb) && Consistent())
                && (!saved ==> && r == Failure(SaveFailed)
                               && persisted == old(persisted)
                               && questions == old(questions) && embeddings == old(embeddings)
                               && indexed == old(indexed))
    {
      if !Provided(question) || !Provided(answer) {
        return Failure(BadRequest(MissingFieldsMessage));
      }
      ghost var before := Entries(kb);
      kb := kb.(questions := Some(Entries(kb) + [Entry(question.value, answer.value)]));
      assert Entries(kb)[..indexed] == before[..indexed];
      if !saved {
        return Failure(SaveFailed);
      }
      persisted := Some(kb);
      var ix := EmbedQuestions(Entries(kb), model);
      questions, embeddings := ix.questions, ix.embeddings;
      indexed := |Entries(kb)|;
      assert Entries(kb)[..indexed] == Entries(kb);
      r := Success(LearnedMessage);
    }
  }

  /** Start-up: load the knowledge base from what reading the file produced and index it.
      A read failure other than a missing file or invalid JSON stops start-up (`None`). */
  method Start(stored: LoadOutcome, model: Embedder) returns (e: Option<Engine>)
    ensures e.None? <==> stored.ReadFailed?
    ensures e.Some? ==>
              && fresh(e.value) && e.value.Consistent() && e.value.model == model
              && Load(stored) == Some(e.value.kb)
              && e.value.persisted == if stored.Parsed? then Some(stored.doc) else None
  {
    var loaded := Load(stored);
    if loaded.None? {
      return None;
    }
    var engine := new Engine(loaded.value, if stored.Parsed? then Some(stored.doc) else None, model);
    e := Some(engine);
  }
}
