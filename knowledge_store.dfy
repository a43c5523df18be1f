/** The durable knowledge base: its entries, its document form and how it is loaded. */
module KnowledgeStore {
  import opened Wrappers

  /** One learned question/answer pair; its position in the knowledge base is its only identity. */
  datatype Entry = Entry(question: string, answer: string)

  /** A decoded knowledge-base document: its "questions" member when the document has one,
      and every other top-level member, by name, kept as its JSON text. */
  datatype Document = Document(questions: Option<seq<Entry>>, others: map<string, string>)

  /** What opening and decoding the knowledge-base file produced: no file, content that is
      not valid JSON, any other failure to read or decode it (a path that cannot be opened,
      bytes that are not valid text), or a decoded document. */
  datatype LoadOutcome = NotFound | DecodeError | ReadFailed | Parsed(doc: Document)

  /** The knowledge base a missing file or invalid JSON yields: `{"questions": []}`. */
  const EmptyBase: Document := Document(Some([]), map[])

  /** The entries of a loaded knowledge base. */
  function Entries(kb: Document): seq<Entry>
    requires kb.questions.Some?
  {
    kb.questions.value
  }

  /** Only a missing file and invalid JSON are recovered from, both as the empty knowledge
      base; any other read failure escapes (`None`), and start-up fails with it. A document
      without "questions" gets an empty list; any other document is kept whole. */
  function Load(outcome: LoadOutcome): (kb: Option<Document>)
    ensures kb.None? <==> outcome.ReadFailed?
    ensures kb.Some? ==> kb.value.questions.Some?
    ensures outcome.NotFound? || outcome.DecodeError? ==> kb == Some(EmptyBase)
    ensures outcome.Parsed? ==> kb.Some? && kb.value.others == outcome.doc.others
    ensures outcome.Parsed? && outcome.doc.questions.Some? ==> kb == Some(outcome.doc)
    ensures outcome.Parsed? && outcome.doc.questions.None? ==> Entries(kb.value) == []
  {
    match outcome
    case NotFound => Some(EmptyBase)
    case DecodeError => Some(EmptyBase)
    case ReadFailed => None
    case Parsed(doc) => Some(if doc.questions.None? then doc.(questions := Some([])) else doc)
  }

  /** Any knowledge base that has its "questions" member, once written to the file and loaded
      again, comes back unchanged; this is what a restart after a successful learn reads. */
  lemma SaveThenLoad(kb: Document)
    requires kb.questions.Some?
    ensures Load(Parsed(kb)) == Some(kb)
  {
  }
}
