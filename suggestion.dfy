/** The gift suggestion endpoint: a fixed table from sentiment category to
    candidate gifts, looked up with the lower-cased sentiment, with a
    "default" list for every other sentiment, and one candidate picked. */
module Suggestion {
  import opened Text

  /** The reply of the endpoint: the recipient's name, the sentiment as the
      caller sent it, and the chosen gift. */
  datatype Suggestion = Suggestion(recipient: string, sentiment: string, suggestedGift: string)

  const CloseFriendGifts: seq<string> :=
    ["Custom bracelet with initials", "Matching tote bag", "Spa night kit"]
  const SecretCrushGifts: seq<string> :=
    ["Cute card with hint", "Floral-scented perfume", "Minimalist jewelry"]
  const MentorGifts: seq<string> :=
    ["Thank-you candle", "Elegant pen", "Notebook with quote"]
  const AdmiredDancerGifts: seq<string> :=
    ["Fan art sketch", "Stage flowers", "Handwritten note + ribbon"]
  const DefaultGifts: seq<string> :=
    ["Socks with their initials", "Dancewear store voucher"]

  /** The four recognised categories. */
  const Categories: set<string> := {"close friend", "secret crush", "mentor", "admired dancer"}

  /** The lookup table, including its "default" entry. */
  const Suggestions: map<string, seq<string>> := map[
    "close friend" := CloseFriendGifts,
    "secret crush" := SecretCrushGifts,
    "mentor" := MentorGifts,
    "admired dancer" := AdmiredDancerGifts,
    "default" := DefaultGifts]

  /** `suggestions.get(sentiment.lower(), suggestions["default"])`: the list
      the pick is drawn from. It is never empty, so the pick cannot fail. */
  function Candidates(sentiment: string): (r: seq<string>)
    ensures 2 <= |r| <= 3
    ensures Lower(sentiment) in Categories ==> r == Suggestions[Lower(sentiment)]
    ensures Lower(sentiment) !in Categories ==> r == DefaultGifts
  {
    var key := Lower(sentiment);
    if key in Suggestions then Suggestions[key] else Suggestions["default"]
  }

  /** The endpoint. The random pick is a nondeterministic choice: the model
      promises only that the gift is one of the candidates. The name is
      echoed as the recipient and the sentiment is returned as given, not
      lower-cased. */
  method SuggestGift(name: string, sentiment: string) returns (s: Suggestion)
    ensures s.recipient == name && s.sentiment == sentiment
    ensures s.suggestedGift in Candidates(sentiment)
    ensures Lower(sentiment) in Categories ==> s.suggestedGift in Suggestions[Lower(sentiment)]
    ensures Lower(sentiment) !in Categories ==> s.suggestedGift in DefaultGifts
  {
    var options := Candidates(sentiment);
    assert options[0] in options;
    var suggestion :| suggestion in options;
    s := Suggestion(name, sentiment, suggestion);
  }

  /** The lookup ignores ASCII case: a sentiment and its lower-cased form
      get the same candidates. */
  lemma CandidatesIgnoreCase(a: string, b: string)
    requires Lower(a) == Lower(b)
    ensures Candidates(a) == Candidates(b) == Candidates(Lower(a))
  {
    LowerIdempotent(a);
  }

  /** No gift appears in two of the five lists. */
  lemma ListsDisjoint()
    ensures forall g :: g in CloseFriendGifts ==> g !in SecretCrushGifts && g !in MentorGifts && g !in AdmiredDancerGifts && g !in DefaultGifts
    ensures forall g :: g in SecretCrushGifts ==> g !in MentorGifts && g !in AdmiredDancerGifts && g !in DefaultGifts
    ensures forall g :: g in MentorGifts ==> g !in AdmiredDancerGifts && g !in DefaultGifts
    ensures forall g :: g in AdmiredDancerGifts ==> g !in DefaultGifts
  {
  }

  /** The lists being disjoint, a suggested gift tells which list it came
      from: it is in a category's list exactly when the lower-cased
      sentiment is that category, and in the default list exactly when the
      sentiment is not recognised. */
  lemma GiftRevealsCategory(sentiment: string, gift: string)
    requires gift in Candidates(sentiment)
    ensures forall c :: c in Categories ==> (gift in Suggestions[c] <==> Lower(sentiment) == c)
    ensures gift in DefaultGifts <==> Lower(sentiment) !in Categories
  {
    ListsDisjoint();
  }
}
