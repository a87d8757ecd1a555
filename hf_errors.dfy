/** What the two Hugging Face handlers (app/api/ai/sentiment/route.ts and
    app/api/ai/detect/route.ts) have in common: the missing-token reply and
    the way an exception caught around the model call becomes a reply. */
module HfErrors {
  import opened Text

  const MissingTokenMessage: string :=
    "Hugging Face API key not configured. Please add HUGGINGFACE_API_KEY to .env"

  const LoadingMessage: string := "Model is loading, please try again in 20 seconds"

  /** An error reply `{ error, loading? }` with its HTTP status. */
  datatype ErrorReply = ErrorReply(status: int, error: string, loading: bool)

  /** `!HF_TOKEN`: the variable is unset or empty. */
  predicate TokenMissing(token: Option<string>): (missing: bool)
    ensures !missing ==> token.Some? && |token.value| > 0
  {
    token.None? || token.value == ""
  }

  /** The reply given when no token is configured (500, before any other work). */
  const MissingToken: ErrorReply := ErrorReply(500, MissingTokenMessage, false)

  /** The `catch` block: an exception whose message contains "loading"
      (case-sensitive) means the model is still loading (503); any other
      answers 500 with its message, or with `fallback` when the message is
      absent or empty. */
  function Classify(message: Option<string>, fallback: string): (r: ErrorReply)
    ensures r.loading <==> message.Some? && Contains(message.value, "loading")
    ensures r.loading ==> r.status == 503 && r.error == LoadingMessage
    ensures !r.loading ==> r.status == 500
    ensures !r.loading && message.Some? && message.value != "" ==> r.error == message.value
    ensures !r.loading && (message.None? || message.value == "") ==> r.error == fallback
  {
    if message.Some? && Contains(message.value, "loading") then ErrorReply(503, LoadingMessage, true)
    else if message.Some? && message.value != "" then ErrorReply(500, message.value, false)
    else ErrorReply(500, fallback, false)
  }

  /** The classification never answers with an empty error text when the
      fallback is non-empty. */
  lemma ClassifiedErrorNonEmpty(message: Option<string>, fallback: string)
    requires fallback != ""
    ensures Classify(message, fallback).error != ""
  {
  }

  /** The test is case-sensitive: a message saying "Loading" with a capital
      letter and nothing else is not treated as loading. */
  lemma CapitalisedLoadingNotDetected()
    ensures !Classify(Some("Loading"), "x").loading
  {
    var s := "Loading";
    assert !OccursAt(s, "loading", 0) by { assert s[0] != 'l'; }
    assert FirstIndexFrom(s, "loading", 1) == None;
  }

  /** Any message containing the word marks the reply as loading, wherever
      the word appears. */
  lemma {:induction false} LoadingAnywhere(prefix: string, suffix: string, fallback: string)
    ensures Classify(Some(prefix + "loading" + suffix), fallback) == ErrorReply(503, LoadingMessage, true)
  {
    var s := prefix + "loading" + suffix;
    assert s[|prefix|..|prefix| + 7] == "loading";
    ContainsAt(s, "loading", |prefix|);
  }
}
