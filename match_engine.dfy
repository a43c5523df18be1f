/** Turning similarity scores into an answer-or-reject decision. */
module MatchEngine {
  import opened Wrappers
  import opened SimilarityIndex

  /** The similarity a best match must reach to be accepted (exactly 7/10). */
  const Threshold: real := 0.7

  /** The index of the best match, if one was accepted, and its score. */
  datatype Match = Match(index: Option<nat>, score: real)

  /** The rejection `(None, 0)`. */
  const NoMatch: Match := Match(None, 0.0)

  /** `k` holds a maximal score and no earlier position holds that score. */
  ghost predicate IsFirstMax(s: seq<real>, k: int)
  {
    && 0 <= k < |s|
    && (forall j :: 0 <= j < |s| ==> s[j] <= s[k])
    && (forall j :: 0 <= j < k ==> s[j] < s[k])
  }

  /** The tensor argmax over the similarity scores: the first position of the largest score. */
  function ArgMax(s: seq<real>): (k: nat)
    requires |s| > 0
    ensures IsFirstMax(s, k)
  {
    if |s| == 1 then 0
    else
      var k := ArgMax(s[..|s| - 1]);
      if s[|s| - 1] > s[k] then |s| - 1 else k
  }

  /** The first maximal position is unique, so it is ArgMax's. */
  lemma FirstMaxIsArgMax(s: seq<real>, k: int)
    requires |s| > 0
    ensures IsFirstMax(s, k) <==> k == ArgMax(s)
  {
  }

  /** The cosine similarity of the query's embedding with each row of the matrix. */
  function Scores(query: string, rows: seq<Vector>, model: Embedder): seq<real>
  {
    seq(|rows|, i requires 0 <= i < |rows| => model.cosSim(model.encode(query), rows[i]))
  }

  /** Nothing is scored without questions or without a (non-empty) embedding matrix. */
  predicate NothingToScore(questions: seq<string>, embeddings: Option<seq<Vector>>)
  {
    embeddings.None? || Size(embeddings.value) == 0 || |questions| == 0
  }

  /** The best match for a query. With nothing to score it is `(None, 0)`. Otherwise a match
      is accepted exactly when some row scores at least the threshold; the accepted index is
      the first row with the highest score, returned with that score; a rejection is
      `(None, 0)`. */
  function FindBestMatch(query: string, questions: seq<string>, embeddings: Option<seq<Vector>>, model: Embedder): (m: Match)
    ensures NothingToScore(questions, embeddings) ==> m == NoMatch
    ensures m.index.None? ==> m == NoMatch
    ensures m.index.Some? ==>
              && !NothingToScore(questions, embeddings)
              && var s := Scores(query, embeddings.value, model);
              && IsFirstMax(s, m.index.value)
              && m.score == s[m.index.value]
              && m.score >= Threshold
    ensures !NothingToScore(questions, embeddings) ==>
              var s := Scores(query, embeddings.value, model);
              (m.index.Some? <==> exists j :: 0 <= j < |s| && s[j] >= Threshold)
  {
    if NothingToScore(questions, embeddings) then NoMatch
    else
      var similarities := Scores(query, embeddings.value, model);
      var best := ArgMax(similarities);
      var highest := similarities[best];
      if highest >= Threshold then Match(Some(best), highest) else NoMatch
  }
}
