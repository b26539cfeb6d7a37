/** The `/analyze-mood` endpoint of supabase/functions/profile.js: an exact,
    case-sensitive lookup of the reported mood in two fixed lists. */
module Mood {
  import opened Js

  datatype Sentiment = Positive | Negative | Neutral

  const POSITIVE_MOODS: seq<string> := ["happy", "excited"]
  const NEGATIVE_MOODS: seq<string> := ["sad", "angry"]

  /** The sentiment of a mood; `None` is a request without a `mood` key. */
  function Classify(mood: Option<string>): (s: Sentiment)
    ensures s == Positive <==> mood == Some("happy") || mood == Some("excited")
    ensures s == Negative <==> mood == Some("sad") || mood == Some("angry")
    ensures s == Neutral <==> mood !in {Some("happy"), Some("excited"), Some("sad"), Some("angry")}
  {
    if Includes(POSITIVE_MOODS, mood) then Positive
    else if Includes(NEGATIVE_MOODS, mood) then Negative
    else Neutral
  }

  /** The response body `{ mood, sentiment }`; an absent mood stays absent. */
  datatype MoodResponse = MoodResponse(mood: Option<string>, sentiment: Sentiment)

  function AnalyzeMood(mood: Option<string>): (r: MoodResponse)
    ensures r.mood == mood
    ensures r.sentiment == Classify(mood)
  {
    MoodResponse(mood, Classify(mood))
  }

  /** Matching is exact: a capitalised, padded or empty mood, or none at all,
      is neutral. */
  lemma ExactMatchOnly()
    ensures Classify(Some("Happy")) == Neutral
    ensures Classify(Some("SAD")) == Neutral
    ensures Classify(Some("happy ")) == Neutral
    ensures Classify(Some("")) == Neutral
    ensures Classify(None) == Neutral
  {
  }
}
