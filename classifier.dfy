/** The query classifier: a decision table over (has text, has image, intent). */
module Classifier {
  import opened Wrappers
  import opened PyText
  import opened Evidence

  /** The four routes a query can take. */
  datatype QueryType = TextToText | TextToImages | ImageToImages | ImageToText

  /** The `ValueError` raised when a query has neither text nor image. */
  datatype ClassifyError = NoInput

  /** The keywords that ask for images when an image is also given. */
  const ImageIntentWords: seq<string> := ["image", "show"]

  /** The keywords that ask for images when only text is given. */
  const TextImageIntentWords: seq<string> := ["show", "image", "picture", "drawing", "screenshot"]

  /** `any(word in s for word in words)`. */
  function AnyIn(s: string, words: seq<string>): (b: bool)
    ensures b <==> exists k :: 0 <= k < |words| && Contains(s, words[k])
  {
    if words == [] then false
    else Contains(s, words[0]) || AnyIn(s, words[1..])
  }

  /** The lower-cased intent contains `word`; an absent intent contains nothing. */
  predicate Mentions(intent: Option<string>, word: string) {
    intent.Some? && Contains(Lower(intent.value), word)
  }

  /** Text alone asks for images when it mentions one of the five image keywords. */
  predicate AsksForImages(intent: Option<string>) {
    || Mentions(intent, "show") || Mentions(intent, "image") || Mentions(intent, "picture")
    || Mentions(intent, "drawing") || Mentions(intent, "screenshot")
  }

  /** Text with an image asks for similar images when it mentions "image" or "show". */
  predicate AsksForSimilarImages(intent: Option<string>) {
    Mentions(intent, "image") || Mentions(intent, "show")
  }

  /** `classify_query`: both inputs go to image-to-images when the intent mentions "image" or
      "show" and to image-to-text otherwise; an image alone goes to image-to-images; text alone
      goes to text-to-images when the intent mentions one of the five image keywords and to
      text-to-text otherwise; neither input raises. */
  function Classify(hasText: bool, hasImage: bool, intent: Option<string>): (r: Result<QueryType, ClassifyError>)
    ensures r.Failure? <==> !hasText && !hasImage
    ensures hasText && hasImage ==> (r == Success(ImageToImages) <==> AsksForSimilarImages(intent))
    ensures hasText && hasImage ==> r == Success(ImageToImages) || r == Success(ImageToText)
    ensures !hasText && hasImage ==> r == Success(ImageToImages)
    ensures hasText && !hasImage ==> (r == Success(TextToImages) <==> AsksForImages(intent))
    ensures hasText && !hasImage ==> r == Success(TextToImages) || r == Success(TextToText)
  {
    if hasImage && hasText then
      if TruthyStr(intent) && AnyIn(Lower(intent.value), ImageIntentWords) then
        ImageWordsListed(intent);
        Success(ImageToImages)
      else
        ImageWordsListed(intent);
        Success(ImageToText)
    else if hasImage then
      Success(ImageToImages)
    else if hasText then
      if TruthyStr(intent) && AnyIn(Lower(intent.value), TextImageIntentWords) then
        TextImageWordsListed(intent);
        Success(TextToImages)
      else
        TextImageWordsListed(intent);
        Success(TextToText)
    else
      Failure(NoInput)
  }

  /** The empty string contains no non-empty word. */
  lemma NothingInEmpty(w: string)
    requires w != ""
    ensures !Contains(Lower(""), w)
  {
  }

  /** A truthy intent mentions "image" or "show" exactly when `any(...)` holds of its lower-cased
      form; an empty one mentions neither. */
  lemma ImageWordsListed(intent: Option<string>)
    ensures (TruthyStr(intent) && AnyIn(Lower(intent.value), ImageIntentWords)) <==> AsksForSimilarImages(intent)
  {
  }

  /** A truthy intent mentions one of the text-to-images keywords exactly when `any(...)` holds
      of its lower-cased form; an empty one mentions none. */
  lemma TextImageWordsListed(intent: Option<string>)
    ensures (TruthyStr(intent) && AnyIn(Lower(intent.value), TextImageIntentWords)) <==> AsksForImages(intent)
  {
    var w := TextImageIntentWords;
    assert w[0] == "show" && w[1] == "image" && w[2] == "picture" && w[3] == "drawing" && w[4] == "screenshot";
    if intent == Some("") {
      forall k | 0 <= k < |w| ensures !Mentions(intent, w[k]) {
        NothingInEmpty(w[k]);
      }
    }
  }

  /** Matching ignores case: "Show me the drawing" alone asks for images. */
  lemma CapitalisedKeywordCounts()
    ensures Mentions(Some("Show me the drawing"), "show")
    ensures Classify(true, false, Some("Show me the drawing")) == Success(TextToImages)
  {
  }

  /** "why?" mentions neither "image" nor "show": with an image it is answered in text. */
  lemma PlainQuestionIsNotAnImageRequest()
    ensures !Mentions(Some("why?"), "image") && !Mentions(Some("why?"), "show")
    ensures Classify(true, true, Some("why?")) == Success(ImageToText)
  {
    var t := "why?";
    assert Lower(t) == t;
    forall i ensures !OccursAt(t, "show", i) && !OccursAt(t, "image", i) {
      if 0 <= i <= |t| && |t[i..]| >= 4 {
        assert i == 0 && t[0] != 's';
      }
    }
  }
}
