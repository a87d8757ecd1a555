/** The keyword sentiment demo of the AI lab section
    (components/sections/AILab.tsx:21-44 and the guard at line 103): the
    lower-cased text is searched for two fixed word lists, and the larger
    count decides. Confidences are kept in hundredths, so 0.7 + 0.05 * k
    is 70 + 5 * k. */
module AiLab {
  import opened Text

  const PositiveWords: seq<string> :=
    ["good", "great", "amazing", "love", "excellent", "happy", "wonderful", "fantastic",
     "awesome", "best", "bagus", "keren", "hebat", "suka", "senang"]

  const NegativeWords: seq<string> :=
    ["bad", "terrible", "hate", "awful", "worst", "horrible", "sad", "angry",
     "disappointed", "buruk", "jelek", "benci", "sedih", "marah"]

  datatype Sentiment = Positive | Negative | Neutral

  /** `{ sentiment, confidence, emoji }`, the confidence in hundredths. */
  datatype Analysis = Analysis(sentiment: Sentiment, confidence: int, emoji: string)

  const HappyFace: string := "\U{1F60A}"
  const PensiveFace: string := "\U{1F614}"
  const NeutralFace: string := "\U{1F610}"

  /** The number of `words` that occur in `text`, each counted once. */
  function Count(words: seq<string>, text: string): (n: nat)
    ensures n <= |words|
  {
    if words == [] then 0
    else Count(words[..|words| - 1], text) + (if Contains(text, words[|words| - 1]) then 1 else 0)
  }

  /** The comparison of the two counts (AILab.tsx:37-43). */
  function Judge(positiveCount: nat, negativeCount: nat): (a: Analysis)
    ensures a.sentiment == Positive <==> positiveCount > negativeCount
    ensures a.sentiment == Negative <==> negativeCount > positiveCount
    ensures a.sentiment == Neutral ==> a.confidence == 60
    ensures a.sentiment != Neutral ==> a.confidence == 70 + 5 * (if positiveCount > negativeCount then positiveCount else negativeCount)
  {
    if positiveCount > negativeCount then Analysis(Positive, 70 + 5 * positiveCount, HappyFace)
    else if negativeCount > positiveCount then Analysis(Negative, 70 + 5 * negativeCount, PensiveFace)
    else Analysis(Neutral, 60, NeutralFace)
  }

  /** What `analyzeSentiment(text)` returns. */
  function AnalysisOf(text: string): (a: Analysis)
    ensures 60 <= a.confidence <= 145
  {
    var lowerText := Lower(text);
    Judge(Count(PositiveWords, lowerText), Count(NegativeWords, lowerText))
  }

  /** `analyzeSentiment` (AILab.tsx:21-44): two counting loops, then the
      comparison. */
  method AnalyzeSentiment(text: string) returns (r: Analysis)
    ensures r == AnalysisOf(text)
  {
    var lowerText := Lower(text);
    var positiveCount := CountOccurring(PositiveWords, lowerText);
    var negativeCount := CountOccurring(NegativeWords, lowerText);

    if positiveCount > negativeCount {
      r := Analysis(Positive, 70 + 5 * positiveCount, HappyFace);
    } else if negativeCount > positiveCount {
      r := Analysis(Negative, 70 + 5 * negativeCount, PensiveFace);
    } else {
      r := Analysis(Neutral, 60, NeutralFace);
    }
  }

  /** One `forEach` of AILab.tsx:29-35: the count goes up by one for every
      word the text includes. */
  method CountOccurring(words: seq<string>, lowerText: string) returns (count: nat)
    ensures count == Count(words, lowerText)
  {
    count := 0;
    for i := 0 to |words|
      invariant count == Count(words[..i], lowerText)
    {
      if Contains(lowerText, words[i]) {
        count := count + 1;
      }
      assert words[..i + 1][..i] == words[..i];
    }
    assert words[..|words|] == words;
  }

  /** `runSentimentAnalysis` (AILab.tsx:102-111) without its timer: nothing
      is analysed when the input is empty after trimming. */
  method RunSentimentAnalysis(input: string) returns (result: Option<Analysis>)
    ensures result.None? <==> forall k :: 0 <= k < |input| ==> IsSpace(input[k])
    ensures result.Some? ==> result.value == AnalysisOf(input)
  {
    TrimEmptyIff(input);
    if Trim(input) == "" {
      return None;
    }
    var r := AnalyzeSentiment(input);
    result := Some(r);
  }

  // ---------------------------------------------------------------------
  // Properties

  /** The sentiment is Positive exactly when more positive words occur,
      Negative exactly when more negative words occur, and Neutral on a tie,
      0 to 0 included. */
  lemma SentimentIff(text: string)
    ensures var p := Count(PositiveWords, Lower(text));
      var n := Count(NegativeWords, Lower(text));
      && (AnalysisOf(text).sentiment == Positive <==> p > n)
      && (AnalysisOf(text).sentiment == Negative <==> n > p)
      && (AnalysisOf(text).sentiment == Neutral <==> p == n)
  {
  }

  /** Each word counts at most once, so the counts stay within the sizes
      of the lists, 15 and 14. */
  lemma CountBounds(text: string)
    ensures Count(PositiveWords, Lower(text)) <= 15
    ensures Count(NegativeWords, Lower(text)) <= 14
  {
  }

  /** A count depends only on which words occur, not on how often. */
  lemma {:induction false} CountDependsOnPresence(words: seq<string>, t1: string, t2: string)
    requires forall i :: 0 <= i < |words| ==> (Contains(t1, words[i]) <==> Contains(t2, words[i]))
    ensures Count(words, t1) == Count(words, t2)
  {
    if words != [] {
      CountDependsOnPresence(words[..|words| - 1], t1, t2);
    }
  }

  /** Every word of `words` that occurs in `text` raises the count: a word
      found inside a longer word counts too. */
  lemma {:induction false} OccurringWordCounts(words: seq<string>, text: string, w: nat)
    requires w < |words| && Contains(text, words[w])
    ensures Count(words, text) >= 1
  {
    if w < |words| - 1 {
      OccurringWordCounts(words[..|words| - 1], text, w);
    }
  }

  /** Matching ignores case: the analysis of a text and of its lower-cased
      form are the same. */
  lemma CaseInsensitive(text: string)
    ensures AnalysisOf(Lower(text)) == AnalysisOf(text)
  {
    LowerIdempotent(text);
  }

  /** "bad" is found inside "badminton": with no positive word present,
      a text containing "badminton" is judged Negative. */
  lemma BadmintonIsNegative(text: string, i: nat)
    requires OccursAt(Lower(text), "badminton", i)
    requires Count(PositiveWords, Lower(text)) == 0
    ensures AnalysisOf(text).sentiment == Negative
  {
    var t := Lower(text);
    assert t[i..i + 3] == "bad" by { assert t[i..i + 9][..3] == t[i..i + 3]; }
    ContainsAt(t, "bad", i);
    OccurringWordCounts(NegativeWords, t, 0);
  }

  /** The confidence is 70 + 5k for the winning count k and is not capped:
      seven positive words give 1.05. Neutral is always 0.6, and each class
      has its own emoji. */
  lemma ConfidenceAndEmoji(text: string)
    ensures var a := AnalysisOf(text);
      var p := Count(PositiveWords, Lower(text));
      var n := Count(NegativeWords, Lower(text));
      && (a.sentiment == Positive ==> a.confidence == 70 + 5 * p && a.emoji == HappyFace)
      && (a.sentiment == Negative ==> a.confidence == 70 + 5 * n && a.emoji == PensiveFace)
      && (a.sentiment == Neutral ==> a.confidence == 60 && a.emoji == NeutralFace)
      && 60 <= a.confidence <= 145
    ensures Judge(7, 0).confidence == 105
  {
  }
}
