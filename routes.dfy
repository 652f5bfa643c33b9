/** The four route handlers. Each is specified by a function from its inputs and the gateways to
    the response envelope, and implemented by a method that follows the handler step by step
    (early returns, the append loops, the `+=` summary loop) and is proved to compute it. */
module Routes {
  import opened Wrappers
  import opened PyText
  import opened Evidence
  import opened Fusion
  import opened Summaries

  const QueryErrorRetryMessage := "I encountered an error processing your query. Please try again."
  const NoInformationMessage :=
    "I couldn't find any relevant information to answer your question. Please try rephrasing or asking about a different topic."
  const QueryErrorMessage := "I encountered an error processing your query."
  const NoImagesMessage := "I couldn't find any relevant images for your query."
  const ImageErrorMessage := "I encountered an error processing your image."
  const NoSimilarImagesMessage := "I couldn't find any visually similar images."
  const NoImageInformationMessage :=
    "I couldn't find any relevant information for your image. Please try uploading a different image or adding a text query."

  /** The question asked about an image uploaded without text. */
  const DefaultImageQuestion := "What information is available about this image?"

  /** An early return: a non-empty fixed message and no evidence at all. */
  predicate IsFallback(env: Envelope) {
    env == Fallback(env.response) && env.response != ""
  }

  /** The text search every text route makes: `search_text_embeddings(v, top_k, use_summary=True)`. */
  function SearchDescriptions(gw: Gateways, v: Vector, topK: int): seq<Record> {
    gw.searchText(v, topK, true)
  }

  // ---------------------------------------------------------------- text to text

  /** `route_text_to_text`: an answer generated from the matching descriptions, no images. */
  function TextToTextEnvelope(gw: Gateways, textQuery: string, history: Option<seq<Turn>>, topK: int): (env: Envelope)
    ensures env.sources == [] <==> IsFallback(env)
    ensures env.images == [] && env.imageInfo == [] && env.searchType == None
    ensures !TruthyVector(gw.embedText(textQuery)) ==> env == Fallback(QueryErrorRetryMessage)
    ensures TruthyVector(gw.embedText(textQuery)) ==>
      var descriptions := SearchDescriptions(gw, gw.embedText(textQuery).value, topK);
      && (descriptions == [] ==> env == Fallback(NoInformationMessage))
      && (descriptions != [] ==> env.sources == descriptions && env.response == gw.generate(textQuery, descriptions, history))
  {
    var queryEmbedding := gw.embedText(textQuery);
    if !TruthyVector(queryEmbedding) then Fallback(QueryErrorRetryMessage)
    else
      var descriptions := SearchDescriptions(gw, queryEmbedding.value, topK);
      if descriptions == [] then Fallback(NoInformationMessage)
      else Envelope(gw.generate(textQuery, descriptions, history), descriptions, [], [], None)
  }

  method RouteTextToText(gw: Gateways, textQuery: string, history: Option<seq<Turn>>, topK: int) returns (env: Envelope)
    ensures env == TextToTextEnvelope(gw, textQuery, history, topK)
  {
    var queryEmbedding := gw.embedText(textQuery);
    if !TruthyVector(queryEmbedding) {
      return Fallback(QueryErrorRetryMessage);
    }
    var descriptions := gw.searchText(queryEmbedding.value, topK, true);
    if descriptions == [] {
      return Fallback(NoInformationMessage);
    }
    var responseText := gw.generate(textQuery, descriptions, history);
    env := Envelope(responseText, descriptions, [], [], None);
  }

  // ---------------------------------------------------------------- text to images

  /** `route_text_to_images`: the matching descriptions, the image URL of each one that has a
      project key and a relative path, and a summary that counts and enumerates them. */
  function TextToImagesEnvelope(gw: Gateways, textQuery: string, topK: int): (env: Envelope)
    ensures env.sources == [] <==> IsFallback(env)
    ensures env.searchType == None
    ensures !TruthyVector(gw.embedText(textQuery)) ==> env == Fallback(QueryErrorMessage)
    ensures TruthyVector(gw.embedText(textQuery)) ==>
      var descriptions := SearchDescriptions(gw, gw.embedText(textQuery).value, topK);
      && (descriptions == [] ==> env == Fallback(NoImagesMessage))
      && (descriptions != [] ==> env.sources == descriptions)
    ensures env.sources != [] ==>
      && env.images == ImageUrls(env.sources, gw.imageUrl)
      && env.imageInfo == DescriptionInfos(env.sources, gw.imageUrl)
      && Urls(env.imageInfo) == env.images
      && env.response == FoundHeader(|env.images|) + NumberedLines(env.imageInfo, FoundLine)
  {
    var queryEmbedding := gw.embedText(textQuery);
    if !TruthyVector(queryEmbedding) then Fallback(QueryErrorMessage)
    else
      var descriptions := SearchDescriptions(gw, queryEmbedding.value, topK);
      if descriptions == [] then Fallback(NoImagesMessage)
      else
        var images, imageInfo := ImageUrls(descriptions, gw.imageUrl), DescriptionInfos(descriptions, gw.imageUrl);
        DescriptionInfosMatchUrls(descriptions, gw.imageUrl);
        Envelope(FoundHeader(|images|) + NumberedLines(imageInfo, FoundLine), descriptions, images, imageInfo, None)
  }

  method RouteTextToImages(gw: Gateways, textQuery: string, topK: int) returns (env: Envelope)
    ensures env == TextToImagesEnvelope(gw, textQuery, topK)
  {
    var queryEmbedding := gw.embedText(textQuery);
    if !TruthyVector(queryEmbedding) {
      return Fallback(QueryErrorMessage);
    }
    var descriptions := gw.searchText(queryEmbedding.value, topK, true);
    if descriptions == [] {
      return Fallback(NoImagesMessage);
    }
    var images, imageInfo := CollectDescriptionImages(descriptions, gw.imageUrl);
    var responseText := DescribeImagesFound(|images|, imageInfo);
    env := Envelope(responseText, descriptions, images, imageInfo, None);
  }

  /** The text-to-images summary: its header counts the images, and entry `k` of `image_info`
      and line `k + 1` of the response describe the `k`-th description that has a project key
      and a relative path: its URL, project, page and region. */
  lemma TextToImagesSummary(gw: Gateways, textQuery: string, topK: int)
    ensures var env := TextToImagesEnvelope(gw, textQuery, topK);
      env.sources != [] ==>
      && FoundHeader(|env.images|) <= env.response
      && |env.imageInfo| == |env.images| == |WithImageRef(env.sources)|
      && (forall k :: 0 <= k < |env.images| ==>
            var r := WithImageRef(env.sources)[k];
            && env.images[k] == gw.imageUrl(r.projectKey.value, r.relativePath.value)
            && env.imageInfo[k].url == env.images[k]
            && env.imageInfo[k].projectKey == r.projectKey
            && env.imageInfo[k].pageNum == r.pageNum
            && env.imageInfo[k].regionNumber == r.regionNumber
            && Contains(env.response, FoundLine(k + 1, env.imageInfo[k])))
  {
    var env := TextToImagesEnvelope(gw, textQuery, topK);
    if env.sources != [] {
      var rs := WithImageRef(env.sources);
      assert env.imageInfo == DescriptionInfos(env.sources, gw.imageUrl) && Urls(env.imageInfo) == env.images;
      SummaryListsEach(env.response, FoundHeader(|env.images|), env.imageInfo, FoundLine);
      forall k | 0 <= k < |env.images|
        ensures env.images[k] == gw.imageUrl(rs[k].projectKey.value, rs[k].relativePath.value)
        ensures env.imageInfo[k].url == env.images[k]
        ensures env.imageInfo[k].projectKey == rs[k].projectKey
        ensures env.imageInfo[k].pageNum == rs[k].pageNum
        ensures env.imageInfo[k].regionNumber == rs[k].regionNumber
      {
        assert env.imageInfo[k] == DescriptionInfo(rs[k], gw.imageUrl);
      }
    }
  }

  // ---------------------------------------------------------------- image to images

  /** `route_image_to_images`: the visual matches as evidence, the URL of each match that has
      one, and a summary that counts and enumerates them, tagged `CLIP_visual`. */
  function ImageToImagesEnvelope(gw: Gateways, image: Image, topK: int): (env: Envelope)
    ensures env.sources == [] <==> IsFallback(env)
    ensures !TruthyVector(gw.embedImage(image)) ==> env == Fallback(ImageErrorMessage)
    ensures TruthyVector(gw.embedImage(image)) ==>
      var matches := gw.searchImages(gw.embedImage(image).value, topK);
      && (matches == [] ==> env == Fallback(NoSimilarImagesMessage))
      && (matches != [] ==> env.sources == matches)
    ensures env.sources != [] ==>
      && env.searchType == Some(ClipVisual)
      && env.imageInfo == VisualInfos(env.sources)
      && env.images == Urls(env.imageInfo)
      && env.response == VisualHeader(|env.images|)
                         + NumberedLines(env.imageInfo, VisualLineWith(gw.formatSimilarity))
  {
    var imageEmbedding := gw.embedImage(image);
    if !TruthyVector(imageEmbedding) then Fallback(ImageErrorMessage)
    else
      var matches := gw.searchImages(imageEmbedding.value, topK);
      if matches == [] then Fallback(NoSimilarImagesMessage)
      else
        var imageInfo := VisualInfos(matches);
        var images := Urls(imageInfo);
        var responseText := VisualHeader(|images|)
          + NumberedLines(imageInfo, VisualLineWith(gw.formatSimilarity));
        Envelope(responseText, matches, images, imageInfo, Some(ClipVisual))
  }

  method RouteImageToImages(gw: Gateways, image: Image, topK: int) returns (env: Envelope)
    ensures env == ImageToImagesEnvelope(gw, image, topK)
  {
    var imageEmbedding := gw.embedImage(image);
    if !TruthyVector(imageEmbedding) {
      return Fallback(ImageErrorMessage);
    }
    var clipMatches := gw.searchImages(imageEmbedding.value, topK);
    if clipMatches == [] {
      return Fallback(NoSimilarImagesMessage);
    }
    var images, imageInfo := CollectVisualMatches(clipMatches);
    var responseText := DescribeVisualMatches(|images|, imageInfo, gw.formatSimilarity);
    env := Envelope(responseText, clipMatches, images, imageInfo, Some(ClipVisual));
  }

  /** The image-to-images summary: its header counts the images, and image `k`, entry `k` of
      `image_info` and line `k + 1` of the response describe the `k`-th match that has a truthy
      URL: that URL, its project, page and similarity (0 when absent), tagged `CLIP_visual`. */
  lemma ImageToImagesSummary(gw: Gateways, image: Image, topK: int)
    ensures var env := ImageToImagesEnvelope(gw, image, topK);
      env.sources != [] ==>
      && VisualHeader(|env.images|) <= env.response
      && |env.images| == |env.imageInfo| == |WithImageUrl(env.sources)| <= |env.sources|
      && (forall k :: 0 <= k < |env.imageInfo| ==>
            var m := WithImageUrl(env.sources)[k];
            && env.images[k] == m.imageUrl.value
            && env.imageInfo[k] == ImageInfo(m.imageUrl.value, m.projectKey, m.pageNum, None,
                                             Some(m.similarity.GetOr(0.0)), Some(ClipVisual))
            && Contains(env.response, VisualLine(k + 1, env.imageInfo[k], gw.formatSimilarity)))
  {
    var env := ImageToImagesEnvelope(gw, image, topK);
    if env.sources != [] {
      var ms := WithImageUrl(env.sources);
      assert env.imageInfo == VisualInfos(env.sources) && env.images == Urls(env.imageInfo);
      VisualSummaryEach(env.response, VisualHeader(|env.images|), env.imageInfo, gw.formatSimilarity);
      forall k | 0 <= k < |env.imageInfo|
        ensures env.images[k] == ms[k].imageUrl.value
        ensures env.imageInfo[k] == ImageInfo(ms[k].imageUrl.value, ms[k].projectKey, ms[k].pageNum, None,
                                              Some(ms[k].similarity.GetOr(0.0)), Some(ClipVisual))
      {
        assert env.imageInfo[k] == VisualInfo(ms[k]);
      }
    }
  }

  // ---------------------------------------------------------------- image to text

  /** Path 1 of the image-to-text route: the visual matches, none when the CLIP embedding fails. */
  function ClipPath(gw: Gateways, image: Image, topK: int): (matches: seq<Record>)
    ensures matches != [] ==>
      TruthyVector(gw.embedImage(image)) && matches == gw.searchImages(gw.embedImage(image).value, topK)
    ensures TruthyVector(gw.embedImage(image)) ==> matches == gw.searchImages(gw.embedImage(image).value, topK)
  {
    var imageEmbedding := gw.embedImage(image);
    if TruthyVector(imageEmbedding) then gw.searchImages(imageEmbedding.value, topK) else []
  }

  /** Path 2 of the image-to-text route: the text matches of the image's caption, none when
      captioning or embedding the caption fails. */
  function CaptionPath(gw: Gateways, image: Image, topK: int): (matches: seq<Record>)
    ensures matches != [] ==>
      var caption := gw.describeImage(image);
      && TruthyStr(caption) && TruthyVector(gw.embedText(caption.value))
      && matches == SearchDescriptions(gw, gw.embedText(caption.value).value, topK)
    ensures TruthyStr(gw.describeImage(image)) && TruthyVector(gw.embedText(gw.describeImage(image).value)) ==>
      matches == SearchDescriptions(gw, gw.embedText(gw.describeImage(image).value).value, topK)
  {
    var caption := gw.describeImage(image);
    if !TruthyStr(caption) then []
    else
      var captionEmbedding := gw.embedText(caption.value);
      if TruthyVector(captionEmbedding) then SearchDescriptions(gw, captionEmbedding.value, topK) else []
  }

  /** Each path works alone: when the CLIP embedding fails the evidence is the deduplicated
      caption matches, and when the caption path finds nothing it is the deduplicated
      CLIP-derived records. */
  lemma ImageToTextPathsIndependent(gw: Gateways, image: Image, topK: int)
    ensures !TruthyVector(gw.embedImage(image)) ==>
      FusedEvidence(gw, image, topK) == Dedup(TagAll(CaptionPath(gw, image, topK), VisionText))
    ensures CaptionPath(gw, image, topK) == [] ==>
      FusedEvidence(gw, image, topK) == Dedup(ClipDerived(ClipPath(gw, image, topK), gw.descriptionsByPaths))
  {
    var clip := ClipDerived(ClipPath(gw, image, topK), gw.descriptionsByPaths);
    var tagged := TagAll(CaptionPath(gw, image, topK), VisionText);
    if !TruthyVector(gw.embedImage(image)) {
      assert clip == [] && clip + tagged == tagged;
    }
    if CaptionPath(gw, image, topK) == [] {
      assert tagged == [] && clip + tagged == clip;
    }
  }

  /** The deduplicated evidence of both paths, before truncation. */
  function FusedEvidence(gw: Gateways, image: Image, topK: int): seq<Record> {
    Fuse(ClipDerived(ClipPath(gw, image, topK), gw.descriptionsByPaths), CaptionPath(gw, image, topK))
  }

  /** `route_image_to_text`: at most `top_k` records of the fused evidence, in order and with
      distinct identity keys, an answer generated from them, and their image URLs. */
  function ImageToTextEnvelope(gw: Gateways, image: Image, textQuery: Option<string>,
                               history: Option<seq<Turn>>, topK: int): (env: Envelope)
    ensures FusedEvidence(gw, image, topK) == [] ==> env == Fallback(NoImageInformationMessage)
    ensures FusedEvidence(gw, image, topK) != [] ==> env.sources == PrefixSlice(FusedEvidence(gw, image, topK), topK)
    ensures env.sources <= FusedEvidence(gw, image, topK)
    ensures 0 <= topK ==> |env.sources| <= topK
    ensures 0 < topK && env.sources == [] ==> env == Fallback(NoImageInformationMessage)
    ensures UniqueKeys(env.sources)
    ensures env.images == ImageUrls(env.sources, gw.imageUrl)
    ensures env.imageInfo == [] && env.searchType == None
    ensures FusedEvidence(gw, image, topK) != [] ==>
      env.response == gw.generate(if TruthyStr(textQuery) then textQuery.value else DefaultImageQuestion,
                                  env.sources, history)
  {
    var unique := FusedEvidence(gw, image, topK);
    DedupUniqueKeys(ClipDerived(ClipPath(gw, image, topK), gw.descriptionsByPaths)
                    + TagAll(CaptionPath(gw, image, topK), VisionText));
    if unique == [] then Fallback(NoImageInformationMessage)
    else
      var query := if TruthyStr(textQuery) then textQuery.value else DefaultImageQuestion;
      var sources := PrefixSlice(unique, topK);
      assert forall i :: 0 <= i < |sources| ==> sources[i] == unique[i];
      Envelope(gw.generate(query, sources, history), sources, ImageUrls(sources, gw.imageUrl), [], None)
  }

  method RouteImageToText(gw: Gateways, image: Image, textQuery: Option<string>,
                          history: Option<seq<Turn>>, topK: int) returns (env: Envelope)
    ensures env == ImageToTextEnvelope(gw, image, textQuery, history, topK)
  {
    // Path 1: CLIP visual similarity.
    var imageEmbedding := gw.embedImage(image);
    var clipMatches := [];
    if TruthyVector(imageEmbedding) {
      clipMatches := gw.searchImages(imageEmbedding.value, topK);
    }
    // Path 2: caption, then text similarity.
    var visionDescription := gw.describeImage(image);
    var textMatches := [];
    if TruthyStr(visionDescription) {
      var descEmbedding := gw.embedText(visionDescription.value);
      if TruthyVector(descEmbedding) {
        textMatches := gw.searchText(descEmbedding.value, topK, true);
      }
    }
    var allDescriptions := CollectDescriptions(clipMatches, textMatches, gw.descriptionsByPaths);
    var uniqueDescriptions := DedupByKey(allDescriptions);
    if uniqueDescriptions == [] {
      return Fallback(NoImageInformationMessage);
    }
    var query := if TruthyStr(textQuery) then textQuery.value else DefaultImageQuestion;
    var sources := PrefixSlice(uniqueDescriptions, topK);
    var responseText := gw.generate(query, sources, history);
    var images := CollectImageUrls(sources, gw.imageUrl);
    env := Envelope(responseText, sources, images, [], None);
  }

  /** The evidence of the image-to-text route keeps the CLIP-derived records first: the sources
      are a prefix of the deduplicated CLIP-derived records followed by caption matches, each
      tagged `GPT4o_Vision_text` and sharing no key with a CLIP-derived record. */
  lemma ImageToTextPrefersClip(gw: Gateways, image: Image, textQuery: Option<string>,
                               history: Option<seq<Turn>>, topK: int)
    ensures var env := ImageToTextEnvelope(gw, image, textQuery, history, topK);
      var clip := ClipDerived(ClipPath(gw, image, topK), gw.descriptionsByPaths);
      forall k :: 0 <= k < |env.sources| ==>
        if k < |Dedup(clip)| then env.sources[k] == Dedup(clip)[k]
        else env.sources[k].searchType == Some(VisionText) && Key(env.sources[k]) !in Keys(clip)
  {
    var env := ImageToTextEnvelope(gw, image, textQuery, history, topK);
    var clip := ClipDerived(ClipPath(gw, image, topK), gw.descriptionsByPaths);
    var fused := FusedEvidence(gw, image, topK);
    FusionPrefersClip(clip, CaptionPath(gw, image, topK));
    assert forall k :: 0 <= k < |env.sources| ==> env.sources[k] == fused[k];
    assert forall k :: 0 <= k < |Dedup(clip)| ==> Dedup(clip)[k] == fused[k];
  }

  /** When no identity key repeats across the two paths, the sources are the CLIP-derived records
      followed by the tagged caption matches, cut to `top_k`. */
  lemma ImageToTextWithoutOverlap(gw: Gateways, image: Image, textQuery: Option<string>,
                                  history: Option<seq<Turn>>, topK: int)
    requires UniqueKeys(ClipDerived(ClipPath(gw, image, topK), gw.descriptionsByPaths) + CaptionPath(gw, image, topK))
    ensures var env := ImageToTextEnvelope(gw, image, textQuery, history, topK);
      env.sources == PrefixSlice(ClipDerived(ClipPath(gw, image, topK), gw.descriptionsByPaths)
                                 + TagAll(CaptionPath(gw, image, topK), VisionText), topK)
  {
    FusionWithoutOverlap(ClipDerived(ClipPath(gw, image, topK), gw.descriptionsByPaths), CaptionPath(gw, image, topK));
  }

  /** The image URLs of the image-to-text route are, in order, those of exactly the sources that
      have a project key and a relative path. */
  lemma ImageToTextImagesFollowSources(gw: Gateways, image: Image, textQuery: Option<string>,
                                       history: Option<seq<Turn>>, topK: int)
    ensures var env := ImageToTextEnvelope(gw, image, textQuery, history, topK);
      && |env.images| == |WithImageRef(env.sources)|
      && forall k :: 0 <= k < |env.images| ==>
           var r := WithImageRef(env.sources)[k];
           env.images[k] == gw.imageUrl(r.projectKey.value, r.relativePath.value)
  {
    var env := ImageToTextEnvelope(gw, image, textQuery, history, topK);
    ImageUrlsFollowImagedRecords(env.sources, gw.imageUrl);
  }
}
