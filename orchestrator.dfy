/** `orchestrate_query`: the input guard, the classification and the dispatch to a route. */
module Orchestrator {
  import opened Wrappers
  import opened PyText
  import opened Evidence
  import opened Classifier
  import opened Routes

  const NoInputMessage := "Please provide either a text query or upload an image."

  /** The defensive default for a classification no branch handles. */
  const UnknownQueryTypeMessage := "Unknown query type. Please try again."

  /** `text_query and text_query.strip()`: some text that is not blank. */
  predicate HasText(textQuery: Option<string>)
    ensures HasText(textQuery) <==> textQuery.Some? && !AllSpace(textQuery.value)
  {
    textQuery.Some? && Strip(textQuery.value) != ""
  }

  /** The whole orchestrator as a decision table over the inputs: no usable input gives the fixed
      prompt; text alone goes to text-to-images or text-to-text by its keywords; an image alone
      goes to image-to-images; both go to image-to-images or image-to-text by the text's keywords.
      The defensive default is never the outcome. */
  function Orchestrate(gw: Gateways, textQuery: Option<string>, image: Option<Image>,
                       history: Option<seq<Turn>>, topK: int): (env: Envelope)
    ensures !HasText(textQuery) && image.None? ==> env == Fallback(NoInputMessage)
    ensures HasText(textQuery) && image.None? && AsksForImages(textQuery) ==>
      env == TextToImagesEnvelope(gw, textQuery.value, topK)
    ensures HasText(textQuery) && image.None? && !AsksForImages(textQuery) ==>
      env == TextToTextEnvelope(gw, textQuery.value, history, topK)
    ensures !HasText(textQuery) && image.Some? ==>
      env == ImageToImagesEnvelope(gw, image.value, topK)
    ensures HasText(textQuery) && image.Some? && AsksForSimilarImages(textQuery) ==>
      env == ImageToImagesEnvelope(gw, image.value, topK)
    ensures HasText(textQuery) && image.Some? && !AsksForSimilarImages(textQuery) ==>
      env == ImageToTextEnvelope(gw, image.value, textQuery, history, topK)
  {
    var hasText, hasImage := HasText(textQuery), image.Some?;
    if !hasText && !hasImage then
      Fallback(NoInputMessage)
    else
      match Classify(hasText, hasImage, if hasText then textQuery else None)
      case Success(TextToText) => TextToTextEnvelope(gw, textQuery.value, history, topK)
      case Success(TextToImages) => TextToImagesEnvelope(gw, textQuery.value, topK)
      case Success(ImageToImages) => ImageToImagesEnvelope(gw, image.value, topK)
      case Success(ImageToText) => ImageToTextEnvelope(gw, image.value, textQuery, history, topK)
      case Failure(_) => Fallback(UnknownQueryTypeMessage)
  }

  /** `orchestrate_query` run through the imperative route handlers. */
  method OrchestrateQuery(gw: Gateways, textQuery: Option<string>, image: Option<Image>,
                          history: Option<seq<Turn>>, topK: int) returns (env: Envelope)
    ensures env == Orchestrate(gw, textQuery, image, history, topK)
  {
    var hasText := HasText(textQuery);
    var hasImage := image.Some?;
    if !hasText && !hasImage {
      return Fallback(NoInputMessage);
    }
    var queryType := Classify(hasText, hasImage, if hasText then textQuery else None);
    match queryType
    case Success(TextToText) =>
      env := RouteTextToText(gw, textQuery.value, history, topK);
    case Success(TextToImages) =>
      env := RouteTextToImages(gw, textQuery.value, topK);
    case Success(ImageToImages) =>
      env := RouteImageToImages(gw, image.value, topK);
    case Success(ImageToText) =>
      env := RouteImageToText(gw, image.value, textQuery, history, topK);
    case Failure(_) =>
      env := Fallback(UnknownQueryTypeMessage);
  }

  /** Text that is empty or only whitespace counts as no text: with no image either, the
      orchestrator answers with the fixed prompt before any classification. */
  lemma BlankTextIsNoInput(gw: Gateways, text: string, history: Option<seq<Turn>>, topK: int)
    ensures HasText(Some(text)) <==> !AllSpace(text)
    ensures AllSpace(text) ==> Orchestrate(gw, Some(text), None, history, topK) == Fallback(NoInputMessage)
  {
  }

  /** A capitalised keyword still counts: "Show me the drawing" alone asks for images. */
  lemma CapitalisedKeywordAsksForImages(gw: Gateways, history: Option<seq<Turn>>, topK: int)
    ensures Orchestrate(gw, Some("Show me the drawing"), None, history, topK)
         == TextToImagesEnvelope(gw, "Show me the drawing", topK)
  {
    var t := "Show me the drawing";
    assert HasText(Some(t)) by {
      assert !IsSpace(t[0]);
      BlankTextIsNoInput(gw, t, history, topK);
    }
    CapitalisedKeywordCounts();
  }

  /** "why?" with an image mentions neither "image" nor "show": the image is explained in text. */
  lemma PlainQuestionWithImageIsExplained(gw: Gateways, image: Image, history: Option<seq<Turn>>, topK: int)
    ensures Orchestrate(gw, Some("why?"), Some(image), history, topK)
         == ImageToTextEnvelope(gw, image, Some("why?"), history, topK)
  {
    var t := "why?";
    assert HasText(Some(t)) by {
      assert !IsSpace(t[0]);
      BlankTextIsNoInput(gw, t, history, topK);
    }
    PlainQuestionIsNotAnImageRequest();
  }
}
