/** The sentiment handler `POST` (app/api/ai/sentiment/route.ts): it checks
    the token and the request text, takes the highest-scoring label of the
    text-classification model and maps it to an Indonesian display label and
    a star count. The model call is a parameter: what it returned, or the
    message of what it threw. */
module SentimentRoute {
  import opened Text
  import H = HfErrors

  /** One `LABEL_MAP` record. */
  datatype LabelInfo = LabelInfo(display: string, stars: int)

  /** route.ts:7-18. */
  const LabelMap: map<string, LabelInfo> := map[
    "1 star" := LabelInfo("Sangat Negatif", 1),
    "2 stars" := LabelInfo("Negatif", 2),
    "3 stars" := LabelInfo("Netral", 3),
    "4 stars" := LabelInfo("Positif", 4),
    "5 stars" := LabelInfo("Sangat Positif", 5),
    "POSITIVE" := LabelInfo("Positif", 4),
    "NEGATIVE" := LabelInfo("Negatif", 2),
    "LABEL_0" := LabelInfo("Negatif", 2),
    "LABEL_1" := LabelInfo("Positif", 4)]

  const NoTextMessage: string := "No text provided"
  const NoResultsMessage: string := "No results returned from model"
  const DefaultMessage: string := "Analysis failed. Please try again."

  /** One result of the model: a raw label and its score. */
  datatype Score = Score(rawLabel: string, score: real)

  /** One element of `allScores`. */
  datatype LabelScore = LabelScore(rawLabel: string, displayLabel: string, score: real)

  datatype Sentiment = Sentiment(
    rawLabel: string,
    displayLabel: string,
    stars: int,
    score: real,
    allScores: seq<LabelScore>)

  /** The message of the `TypeError` thrown by `const { text } = body` when
      the body is the JSON literal `null` (the V8 wording). */
  const NullBodyMessage: string := "Cannot destructure property 'text' of 'body' as it is null."

  /** The request body: unparsable (with the parse error's message), the
      JSON literal `null`, or any other JSON value, with its `text` property
      when that is a string. */
  datatype Body = Unparsable(message: Option<string>) | Null | Parsed(text: Option<string>)

  /** The model call: it threw (with the error's message), or returned a
      value, which is the list of scores when it is an array. */
  datatype ModelCall = Threw(message: Option<string>) | Returned(results: Option<seq<Score>>)

  datatype Reply = Failure(error: H.ErrorReply) | Analysed(sentiment: Sentiment)

  // ---------------------------------------------------------------------
  // The label table

  /** `LABEL_MAP[topResult.label] || { label: topResult.label, stars: 3 }` (route.ts:49). */
  function LabelInfoOf(raw: string): (info: LabelInfo)
    ensures raw in LabelMap ==> info == LabelMap[raw]
    ensures raw !in LabelMap ==> info == LabelInfo(raw, 3)
  {
    if raw in LabelMap then LabelMap[raw] else LabelInfo(raw, 3)
  }

  /** `LABEL_MAP[s.label]?.label || s.label` (route.ts:59). */
  function DisplayLabel(raw: string): (display: string)
    ensures raw !in LabelMap ==> display == raw
  {
    if raw in LabelMap && LabelMap[raw].display != "" then LabelMap[raw].display else raw
  }

  /** The table has exactly the nine raw labels, and no neutral label of
      another model. */
  lemma LabelMapKeys()
    ensures LabelMap.Keys == {"1 star", "2 stars", "3 stars", "4 stars", "5 stars",
                              "POSITIVE", "NEGATIVE", "LABEL_0", "LABEL_1"}
    ensures "NEUTRAL" !in LabelMap && "LABEL_2" !in LabelMap
  {
  }

  /** Every raw label gets between one and five stars, and a label the table
      does not know gets three. */
  lemma StarsInRange(raw: string)
    ensures 1 <= LabelInfoOf(raw).stars <= 5
    ensures raw !in LabelMap ==> LabelInfoOf(raw).stars == 3
  {
  }

  lemma FiveStars()
    ensures LabelInfoOf("5 stars") == LabelInfo("Sangat Positif", 5)
    ensures LabelInfoOf("LABEL_2") == LabelInfo("LABEL_2", 3)
  {
    assert "LABEL_2" !in LabelMap;
  }

  /** The two lookups of the handler agree: the display label in
      `allScores` is the one the top result would get. */
  lemma DisplayLabelAgrees(raw: string)
    ensures DisplayLabel(raw) == LabelInfoOf(raw).display
  {
  }

  // ---------------------------------------------------------------------
  // The top result

  /** `k` is the last index holding the highest score. */
  predicate IsLastMax(results: seq<Score>, k: nat)
  {
    && k < |results|
    && (forall j :: 0 <= j < |results| ==> results[j].score <= results[k].score)
    && (forall j :: k < j < |results| ==> results[j].score < results[k].score)
  }

  /** `results.reduce((prev, current) => prev.score > current.score ? prev : current)`:
      the earlier result is kept only when strictly better, so on a tie the
      later one wins. */
  function TopIndex(results: seq<Score>): (k: nat)
    requires results != []
    ensures IsLastMax(results, k)
  {
    if |results| == 1 then 0
    else
      var p := TopIndex(results[..|results| - 1]);
      if results[p].score > results[|results| - 1].score then p else |results| - 1
  }

  /** Only one index is the last maximum, so the top result is determined
      by the scores alone. */
  lemma LastMaxUnique(results: seq<Score>, k1: nat, k2: nat)
    requires IsLastMax(results, k1) && IsLastMax(results, k2)
    ensures k1 == k2
  {
    assert results[k2].score <= results[k1].score && results[k1].score <= results[k2].score;
  }

  /** On a tie the later result wins. */
  lemma TieGoesToLater(a: Score, b: Score)
    requires a.score == b.score
    ensures TopIndex([a, b]) == 1
  {
  }

  // ---------------------------------------------------------------------
  // The handler

  /** The success body for a non-empty result list (route.ts:47-63). */
  function Analyse(results: seq<Score>): (s: Sentiment)
    requires results != []
    ensures |s.allScores| == |results|
    ensures forall i :: 0 <= i < |results| ==>
      s.allScores[i] == LabelScore(results[i].rawLabel, DisplayLabel(results[i].rawLabel), results[i].score)
    ensures exists k: nat :: IsLastMax(results, k) && s.rawLabel == results[k].rawLabel && s.score == results[k].score
    ensures s.displayLabel == LabelInfoOf(s.rawLabel).display && s.stars == LabelInfoOf(s.rawLabel).stars
  {
    var top := results[TopIndex(results)];
    var info := LabelInfoOf(top.rawLabel);
    Sentiment(top.rawLabel, info.display, info.stars, top.score,
              seq(|results|, i requires 0 <= i < |results| =>
                LabelScore(results[i].rawLabel, DisplayLabel(results[i].rawLabel), results[i].score)))
  }

  /** route.ts:20-77. */
  function Post(token: Option<string>, body: Body, model: ModelCall): (r: Reply)
    ensures r.Analysed? ==>
      && !H.TokenMissing(token) && body.Parsed? && body.text.Some? && body.text.value != ""
      && model.Returned? && model.results.Some? && model.results.value != []
      && r.sentiment == Analyse(model.results.value)
  {
    if H.TokenMissing(token) then Failure(H.MissingToken)
    else match body
      case Unparsable(message) => Failure(H.Classify(message, DefaultMessage))
      case Null => Failure(H.Classify(Some(NullBodyMessage), DefaultMessage))
      case Parsed(text) =>
        if text.None? || text.value == "" then Failure(H.ErrorReply(400, NoTextMessage, false))
        else match model
          case Threw(message) => Failure(H.Classify(message, DefaultMessage))
          case Returned(results) =>
            if results.None? || results.value == [] then Failure(H.ErrorReply(500, NoResultsMessage, false))
            else Analysed(Analyse(results.value))
  }

  /** Without a token nothing else is looked at: the reply is the
      configuration error whatever the body and the model would give. */
  lemma MissingTokenFirst(token: Option<string>, body: Body, model: ModelCall)
    requires H.TokenMissing(token)
    ensures Post(token, body, model) == Failure(H.MissingToken)
  {
  }

  /** With a token, the request is rejected with 400 exactly when the body
      parses but has no non-empty string `text`; a text of white space only
      is accepted. */
  lemma NoTextIff(token: Option<string>, body: Body, model: ModelCall)
    requires !H.TokenMissing(token)
    ensures Post(token, body, model).Failure? && Post(token, body, model).error.status == 400
            <==> body.Parsed? && (body.text.None? || body.text.value == "")
    ensures body.Parsed? && (body.text.None? || body.text.value == "") ==>
              Post(token, body, model) == Failure(H.ErrorReply(400, NoTextMessage, false))
  {
    if body.Unparsable? {
      var r := H.Classify(body.message, DefaultMessage);
      assert r.status == 500 || r.status == 503;
    } else if body.Null? {
      var r := H.Classify(Some(NullBodyMessage), DefaultMessage);
      assert r.status == 500 || r.status == 503;
    } else if body.text.Some? && body.text.value != "" && model.Threw? {
      var r := H.Classify(model.message, DefaultMessage);
      assert r.status == 500 || r.status == 503;
    }
  }

  /** With a token, the reply is a sentiment exactly when the body has a
      non-empty string `text` and the model returned a non-empty list, and
      the sentiment is then the analysis of that list. */
  lemma AnalysedIff(token: Option<string>, body: Body, model: ModelCall)
    requires !H.TokenMissing(token)
    ensures Post(token, body, model).Analysed?
            <==> && body.Parsed? && body.text.Some? && body.text.value != ""
                 && model.Returned? && model.results.Some? && model.results.value != []
    ensures Post(token, body, model).Analysed? ==>
              Post(token, body, model) == Analysed(Analyse(model.results.value))
  {
  }

  /** Whatever is thrown inside the `try` (route.ts:67-75) is classified
      with this handler's default text: a body that does not parse, and a
      failed model call. */
  lemma ThrownIsClassified(token: string, text: string, message: Option<string>, model: ModelCall)
    requires token != "" && text != ""
    ensures Post(Some(token), Unparsable(message), model) == Failure(H.Classify(message, DefaultMessage))
    ensures Post(Some(token), Parsed(Some(text)), Threw(message)) == Failure(H.Classify(message, DefaultMessage))
  {
  }

  /** A `null` body throws when `text` is taken from it, so it is answered
      with the classification of the `TypeError`'s message, not with 400. */
  lemma NullBodyThrows(token: string, model: ModelCall)
    requires token != ""
    ensures Post(Some(token), Null, model) == Failure(H.Classify(Some(NullBodyMessage), DefaultMessage))
  {
  }

  /** A non-array or empty result list is reported as such. */
  lemma NoResults(token: string, text: string, results: Option<seq<Score>>)
    requires token != "" && text != ""
    requires results.None? || results.value == []
    ensures Post(Some(token), Parsed(Some(text)), Returned(results))
            == Failure(H.ErrorReply(500, NoResultsMessage, false))
  {
  }

  /** Every failure answers 400, 500 or 503, and is flagged as loading
      exactly when it answers 503. */
  lemma FailureStatuses(token: Option<string>, body: Body, model: ModelCall)
    ensures var r := Post(token, body, model);
      r.Failure? ==> (r.error.status in {400, 500, 503} && (r.error.loading <==> r.error.status == 503))
  {
  }
}
