# Query orchestrator of the Florence embedding assistant, in Dafny

This project models `florence_embedding/langgraph_orchestrator.py`. That file decides what the
assistant does with a user's query.

- It classifies the query by whether it has text, an image, or both, and by image keywords in the text.
- It dispatches the query to one of four route handlers: text to text, text to images,
  image to images, and image to text.
- Each handler turns search results into a response envelope with `response`, `sources`,
  `images`, and sometimes `image_info` and `search_type`.

The image-to-text handler merges two retrieval paths:

- **CLIP visual matches.** Each match is turned into description records. The path is recovered
  from the URL after the `test_embeddings/{project_key}/` marker, and the records are looked up by
  that path.
- **Caption matches.** The image is captioned and the caption is searched as text.

The merged list is deduplicated by `(project_key, page_num, region_number)`, keeping the first
record with each key, and then cut to `top_k`.

Layout, one module per file:

- `wrappers.dfy`: `Option` and `Result`.
- `text.dfy` (`PyText`): the Python builtins the file relies on, written out: `in`,
  `split(sep)[-1]`, `lower()`, `strip()`, `str(int)` and `xs[:k]`.
- `evidence.dfy` (`Evidence`):
  - records: a dictionary read with `.get`, so a missing key and `None` are both `None`;
  - the envelope and the `image_info` entries;
  - Python truthiness;
  - the external calls as a `Gateways` value of given functions.
- `classifier.dfy` (`Classifier`): `classify_query`.
- `fusion.dfy` (`Fusion`): the dual-path fusion and the first-seen-wins deduplication, as
  specification functions plus the loops that compute them.
- `summaries.dfy` (`Summaries`):
  - the `images` and `image_info` loops;
  - the numbered summary strings built with `+=`.
- `routes.dfy` (`Routes`): each handler twice:
  - a function that specifies its envelope;
  - a method that follows the handler step by step and is proved to return that envelope.
    The text-to-text handler has no loop, so its method repeats its function step by step. It is
    kept so that all four handlers have the same form and the orchestrator method can call them alike.
- `orchestrator.dfy` (`Orchestrator`): the input guard and the dispatch, as a decision table over
  the inputs, plus a method that runs the imperative handlers.

## Model

| member | source | states |
|---|---|---|
| Classifier.Classify | florence_embedding/langgraph_orchestrator.py:29-63 | The result is an error exactly when there is neither text nor image. With both, it is image-to-images exactly when the lower-cased intent contains "image" or "show" (`AsksForSimilarImages`), and image-to-text otherwise. An image alone gives image-to-images. Text alone gives text-to-images exactly when the lower-cased intent contains one of "show", "image", "picture", "drawing", "screenshot" (`AsksForImages`), and text-to-text otherwise. |
| Classifier.AnyIn | florence_embedding/langgraph_orchestrator.py:58 | `any(word in s for word in words)` holds exactly when some listed word occurs in `s`. |
| Classifier.CapitalisedKeywordCounts | florence_embedding/langgraph_orchestrator.py:54-59 | Keyword matching ignores case: "Show me the drawing" mentions "show", and as text alone it is classified text-to-images. |
| Classifier.PlainQuestionIsNotAnImageRequest | florence_embedding/langgraph_orchestrator.py:45-49 | "why?" mentions neither "image" nor "show", so text plus image is classified image-to-text. |
| PyText.Contains | florence_embedding/langgraph_orchestrator.py:295 | `w in s` holds exactly when `w` occurs in `s` at some index. |
| PyText.Lower | florence_embedding/langgraph_orchestrator.py:57 | `s.lower()` keeps the length, maps each of `A`-`Z` to its lower-case letter and leaves every other character unchanged. |
| PyText.SplitLast | florence_embedding/langgraph_orchestrator.py:296 | `s.split(sep)[-1]` is a suffix of `s` that does not contain `sep`. It is all of `s` when `sep` does not occur, and otherwise it is exactly the text after an occurrence of `sep`. |
| PyText.Strip | florence_embedding/langgraph_orchestrator.py:363 | `s.strip()` is `s` with only whitespace removed before and after it, and it neither begins nor ends with whitespace. |
| PyText.StripEmptyIffBlank | florence_embedding/langgraph_orchestrator.py:363 | `s.strip()` is empty exactly when every character of `s` is whitespace. |
| PyText.NatToStringRoundTrip | florence_embedding/langgraph_orchestrator.py:164 | Reading back the decimal digits `str(n)` writes gives `n`, so the counts and numbers printed in the summaries lose nothing. |
| PyText.PrefixSlice | florence_embedding/langgraph_orchestrator.py:338 | `xs[:k]` is a prefix of `xs` of length `min(k, len(xs))` for `k >= 0`, and `max(0, len(xs) + k)` for negative `k`. |
| Fusion.DedupByKey | florence_embedding/langgraph_orchestrator.py:308-314 | The loop over `all_descriptions` with its `seen` set computes `Dedup` of the list. |
| Fusion.Dedup | florence_embedding/langgraph_orchestrator.py:308-314 | The deduplicated list is no longer than the input, and each of its records is one of the input's records. |
| Fusion.DedupKeepsFirstOccurrences | florence_embedding/langgraph_orchestrator.py:308-314 | The output is the input picked at strictly increasing positions. A position is picked if and only if no earlier record shares its key. |
| Fusion.DedupKeys | florence_embedding/langgraph_orchestrator.py:308-314 | Every key of the input appears in the output, and no other. |
| Fusion.DedupUniqueKeys | florence_embedding/langgraph_orchestrator.py:308-314 | No two output records share a key. |
| Fusion.DedupOfUnique | florence_embedding/langgraph_orchestrator.py:308-314 | A list whose keys are already distinct is left unchanged. |
| Fusion.DedupIdempotent | florence_embedding/langgraph_orchestrator.py:308-314 | Deduplicating twice is the same as deduplicating once. |
| Fusion.DedupAbsorbsSeen | florence_embedding/langgraph_orchestrator.py:308-314 | Records appended whose keys were all seen already change nothing. |
| Fusion.DedupOfDoubled | florence_embedding/langgraph_orchestrator.py:308-314 | Deduplicating `xs + xs` gives the same result as deduplicating `xs`. |
| Fusion.DedupOfAppend | florence_embedding/langgraph_orchestrator.py:308-314 | Deduplicating `xs + ys` extends the deduplication of `xs`. Each record added after it comes from `ys` and has a key that `xs` does not have. |
| Fusion.ClipContribution | florence_embedding/langgraph_orchestrator.py:286-300 | A visual match contributes records only if it has a project key and a URL containing its marker. It then contributes all descriptions looked up for the recovered path, with only the first re-tagged `CLIP_visual` and the rest unchanged. |
| Fusion.ClipDerivedSingle | florence_embedding/langgraph_orchestrator.py:286-300 | A single visual match derives exactly its contribution. |
| Fusion.ClipDerivedConcat | florence_embedding/langgraph_orchestrator.py:286-300 | The records derived from two runs of visual matches are those of the first run followed by those of the second, so the loop contributes match by match in order. |
| Fusion.ClipDerivedNeedsMarker | florence_embedding/langgraph_orchestrator.py:292-295 | Visual matches whose URLs lack the marker contribute no records. |
| Fusion.TagAll | florence_embedding/langgraph_orchestrator.py:303-305 | Every caption match is kept, in order, with only its `search_type` set to `GPT4o_Vision_text`. |
| Fusion.FusionPrefersClip | florence_embedding/langgraph_orchestrator.py:283-314 | The fused list begins with the deduplicated CLIP-derived records. Every later record is a caption match tagged `GPT4o_Vision_text` whose key no CLIP-derived record has. |
| Fusion.FusionWithoutOverlap | florence_embedding/langgraph_orchestrator.py:283-314 | When no key repeats across both paths, the fused list is the CLIP-derived records followed by the tagged caption matches. |
| Fusion.Fuse | florence_embedding/langgraph_orchestrator.py:303-314 | The fused list has distinct keys, and its keys are exactly those of the CLIP-derived records and of the caption matches. |
| Fusion.FusionOverlapKeepsClip | florence_embedding/langgraph_orchestrator.py:303-314 | For any lists of CLIP-derived records and caption matches: the key of every CLIP-derived record appears in the fused list, and every fused record with that key is a CLIP-derived record, so a caption match sharing the key is dropped. |
| Fusion.MatchDescriptions | florence_embedding/langgraph_orchestrator.py:287-300 | One pass over a visual match computes that match's contribution. |
| Fusion.ClipDerivedSnoc | florence_embedding/langgraph_orchestrator.py:286-300 | The records derived from the first `i + 1` visual matches are those derived from the first `i`, followed by match `i`'s contribution. |
| Fusion.CollectClipDescriptions | florence_embedding/langgraph_orchestrator.py:285-300 | The loop over visual matches, extending the list with each match's looked-up descriptions, computes the CLIP-derived records. |
| Fusion.AppendCaptionMatches | florence_embedding/langgraph_orchestrator.py:302-305 | The loop over caption matches appends each one, in order, with `search_type` set to `GPT4o_Vision_text`, and leaves what came before unchanged. |
| Fusion.CollectDescriptions | florence_embedding/langgraph_orchestrator.py:283-305 | `all_descriptions` is the CLIP-derived records in match order, followed by every caption match tagged `GPT4o_Vision_text`. |
| Summaries.WithImageRef | florence_embedding/langgraph_orchestrator.py:152 | A record is kept exactly when it has a truthy project key and a truthy relative path. |
| Summaries.WithImageRefConcat | florence_embedding/langgraph_orchestrator.py:148-152 | The filter keeps the input's order: filtering `xs + ys` gives the filtered `xs` followed by the filtered `ys`. |
| Summaries.ImageUrlsFollowImagedRecords | florence_embedding/langgraph_orchestrator.py:148-154 | The image URLs correspond one to one and in order to the records that have a truthy project key and relative path. Each URL is `construct_image_url` of that record's key and path. |
| Summaries.DescriptionInfos | florence_embedding/langgraph_orchestrator.py:148-161 | There is one entry per description with a truthy project key and relative path, in order. Entry `k` holds `construct_image_url` of that description's key and path, its project key, page and region, and no similarity or search type. |
| Summaries.DescriptionInfosMatchUrls | florence_embedding/langgraph_orchestrator.py:148-161 | `images` and `image_info` are built together: the URLs of the entries are exactly `images`, and every entry has a truthy project key. |
| Summaries.WithImageUrl | florence_embedding/langgraph_orchestrator.py:218-219 | A visual match is kept exactly when its `image_url` is truthy, so there are no more kept matches than matches. The order is stated by `WithImageUrlConcat`. |
| Summaries.WithImageUrlConcat | florence_embedding/langgraph_orchestrator.py:216-219 | The filter keeps the matches' order: filtering `ms + ns` gives the filtered `ms` followed by the filtered `ns`. |
| Summaries.VisualInfos | florence_embedding/langgraph_orchestrator.py:216-226 | There is one entry per match with a truthy `image_url`, in order. Entry `k` holds that match's URL, project key and page, its similarity or 0 when it has none, and the `CLIP_visual` tag. |
| Summaries.CollectDescriptionImages | florence_embedding/langgraph_orchestrator.py:145-161 | The loop over descriptions computes the image URLs and `image_info` entries above. |
| Summaries.CollectImageUrls | florence_embedding/langgraph_orchestrator.py:328-334 | The URL loop of the image-to-text handler computes the image URLs of its sources. |
| Summaries.CollectVisualMatches | florence_embedding/langgraph_orchestrator.py:213-226 | The loop over visual matches computes the visual entries, and `images` is their URLs. |
| Summaries.FoundLine | florence_embedding/langgraph_orchestrator.py:166-169 | The line starts with `[i] Project {project_key}, Page {page_num}` and ends with a newline. Between them is `, Region {region_number}` when the region is truthy and nothing otherwise. |
| Summaries.VisualLine | florence_embedding/langgraph_orchestrator.py:231-234 | The line starts with `[i] Project {project_key}, Page {page_num}` and ends with a newline. Between them is ` (similarity: …)` with the formatted similarity when it is non-zero, and nothing otherwise. |
| Summaries.AppendFoundLine | florence_embedding/langgraph_orchestrator.py:166-169 | One pass of the loop appends the numbered line: project, page, the region only when truthy, and a newline. |
| Summaries.AppendVisualLine | florence_embedding/langgraph_orchestrator.py:231-234 | One pass of the loop appends the numbered line: project, page, the formatted similarity only when non-zero, and a newline. |
| Summaries.DescribeImagesFound | florence_embedding/langgraph_orchestrator.py:164-169 | The `+=` loop yields the header counting the images, then line `i` for entry `i`, numbered from 1. |
| Summaries.DescribeVisualMatches | florence_embedding/langgraph_orchestrator.py:229-234 | The `+=` loop yields the visual header, then line `i` for entry `i`, numbered from 1. |
| Summaries.NumberedLinesListEach | florence_embedding/langgraph_orchestrator.py:165-169 | The enumerated lines contain, for every entry `k`, its line numbered `k + 1`. |
| Summaries.SummaryListsEach | florence_embedding/langgraph_orchestrator.py:164-169 | A summary begins with its header and contains every entry's numbered line. |
| Evidence.Fallback | florence_embedding/langgraph_orchestrator.py:85-89 | An early return carries the fixed message as its response and has no sources and no images; the same shape is returned at 95-99, 128-132, 138-142, 196-200, 206-210, 317-321, 367-371 and 390-394. |
| Routes.TextToTextEnvelope | florence_embedding/langgraph_orchestrator.py:66-108 | A failed embedding and an empty search each give their own fixed message with no evidence. Otherwise the sources are the search results and the response is the answer generated from them. There are never images, and sources are empty exactly on the early returns. |
| Routes.RouteTextToText | florence_embedding/langgraph_orchestrator.py:83-108 | The handler returns the envelope specified above. |
| Routes.TextToImagesEnvelope | florence_embedding/langgraph_orchestrator.py:111-176 | The early returns give their fixed messages with no evidence. Otherwise the sources are the search results, `images` are the URLs of those results that have an image, `image_info` is the description entries of the sources, and the response is the header with the count and the numbered lines. |
| Routes.RouteTextToImages | florence_embedding/langgraph_orchestrator.py:126-176 | The handler, through its two loops, returns the envelope specified above. |
| Routes.TextToImagesSummary | florence_embedding/langgraph_orchestrator.py:148-169 | The response begins with `I found N relevant image(s)` where N is the number of images. For the `k`-th description with a project key and a relative path, image `k` is its URL, entry `k` carries that URL and the description's project key, page and region, and the response contains that entry's line numbered `k + 1`. |
| Routes.ImageToImagesEnvelope | florence_embedding/langgraph_orchestrator.py:179-242 | The early returns give their fixed messages with no evidence. Otherwise the sources are the visual matches, the envelope is tagged `CLIP_visual`, `images` are the URLs of the entries, and the response is the visual header and the numbered lines. |
| Routes.RouteImageToImages | florence_embedding/langgraph_orchestrator.py:194-242 | The handler, through its two loops, returns the envelope specified above. |
| Routes.ImageToImagesSummary | florence_embedding/langgraph_orchestrator.py:213-234 | There are no more images than matches. For the `k`-th match with a truthy `image_url`, image `k` is that URL, entry `k` carries its URL, project key, page, similarity (0 when absent) and the `CLIP_visual` tag, and the response contains that entry's line numbered `k + 1`. |
| Routes.ImageToTextEnvelope | florence_embedding/langgraph_orchestrator.py:245-342 | With no fused evidence the fixed message is returned with no evidence. Otherwise the sources are exactly `unique_descriptions[:top_k]`: the first `top_k` of the deduplicated fused evidence, so they have distinct keys. The images are the URLs of the sources, and the response is generated from the sources with the default question when the text is empty. |
| Routes.ClipPath | florence_embedding/langgraph_orchestrator.py:268-271 | When the CLIP embedding is truthy, the visual matches are exactly the image search of that embedding. Otherwise there are none, so matches are found only after a truthy embedding. |
| Routes.CaptionPath | florence_embedding/langgraph_orchestrator.py:274-280 | When the caption and its text embedding are both truthy, the caption matches are exactly the description search of that embedding. Otherwise there are none, so matches are found only after a truthy caption and embedding. |
| Routes.ImageToTextPathsIndependent | florence_embedding/langgraph_orchestrator.py:268-314 | Each path works alone: without a CLIP embedding the fused evidence is the deduplicated tagged caption matches, and when the caption path finds nothing it is the deduplicated CLIP-derived records. |
| Routes.RouteImageToText | florence_embedding/langgraph_orchestrator.py:268-342 | The dual-path handler returns the envelope specified above. |
| Routes.ImageToTextPrefersClip | florence_embedding/langgraph_orchestrator.py:283-338 | The sources begin with the deduplicated CLIP-derived records. Any later source is a caption match tagged `GPT4o_Vision_text` whose key no CLIP-derived record has. |
| Routes.ImageToTextWithoutOverlap | florence_embedding/langgraph_orchestrator.py:283-338 | When no key repeats across both paths, the sources are the first `top_k` of the CLIP-derived records followed by the tagged caption matches. |
| Routes.ImageToTextImagesFollowSources | florence_embedding/langgraph_orchestrator.py:328-334 | The images are, in order, the URLs of exactly the sources that have a project key and a relative path. |
| Orchestrator.Orchestrate | florence_embedding/langgraph_orchestrator.py:345-394 | The full decision table. With no non-blank text and no image, the answer is the fixed prompt. Text alone goes to text-to-images or text-to-text by its five keywords. An image alone goes to image-to-images. Both go to image-to-images or image-to-text by "image"/"show". Since these cases cover every input, the defensive default is never the outcome. |
| Orchestrator.HasText | florence_embedding/langgraph_orchestrator.py:363 | `text_query and text_query.strip()` holds exactly when there is text and not all of it is whitespace. |
| Orchestrator.OrchestrateQuery | florence_embedding/langgraph_orchestrator.py:363-394 | The orchestrator, running the imperative handlers, returns the envelope the decision table specifies. |
| Orchestrator.BlankTextIsNoInput | florence_embedding/langgraph_orchestrator.py:363-371 | Text counts as present exactly when it is not all whitespace. Blank text with no image gives the fixed prompt. |
| Orchestrator.CapitalisedKeywordAsksForImages | florence_embedding/langgraph_orchestrator.py:374-381 | "Show me the drawing" alone is answered by the text-to-images handler. |
| Orchestrator.PlainQuestionWithImageIsExplained | florence_embedding/langgraph_orchestrator.py:386-387 | "why?" with an image is answered by the image-to-text handler. |

## Left out

- The external calls are given functions of their arguments in a `Gateways` value. The model does not compute them. These are the embedding calls, the three Supabase searches and lookups, GPT-4o captioning and answer generation, and `construct_image_url`, whose URL scheme is not part of this model.
- Because of that, nothing says a generated answer is non-empty. An early return is recognised by its envelope having no evidence, not by its message.
- The `:.3f` rendering of a similarity is the given function `formatSimilarity`. Floating-point similarities are `real`s.
- The uploaded image is an opaque byte sequence: only its presence matters.
- The `description` field of the text-to-images `image_info` entries (`summary[:200]`) is not modelled.
- The conversation history is passed through unchanged as an optional list of turns.
- The diagnostic `clip_matches` and `text_matches` fields of the image-to-text envelope are not modelled. So aliasing is not modelled either: the tag written into each caption-match dictionary in place is a value update here, and those fields were the only place it could be seen. The same holds for `descs[0]["search_type"]`.
- `.lower()` is modelled on ASCII letters only. The keywords are ASCII. The only non-ASCII characters whose lower case contains an ASCII letter are U+0130 (to "i" and a combining dot) and U+212A (to "k"), and neither can complete a keyword.
- A missing key and a key holding `None` are the same `None`. For `match.get("similarity", 0)`, the model records 0 where the dictionary holds `None`. Both are falsy, so the response text is the same.
- Page and region numbers are integers. Other Python types printed by the f-strings are not modelled.
- The `ValueError` of `classify_query` is the `Failure(NoInput)` result. `orchestrate_query` never reaches it.
- In the two text routes, the number of sources is whatever the search returns for `top_k`. The model does not bound it.
- With `top_k == 0` the image-to-text handler keeps none of the fused evidence, and with a negative `top_k` the slice drops the last `|top_k|` records. In both cases it still generates an answer, possibly from no sources. So empty sources mean an early return only when `top_k > 0`.
- When a description with a truthy project key and relative path holds `None` under `summary`, `desc.get("summary", "")[:200]` raises `TypeError` and the text-to-images handler fails. The model does not read `summary`, so it returns the envelope instead.
- PyText.SplitLast: the contract says the result follows some occurrence of the separator and contains none. When the separator can overlap itself, it does not pin which occurrence. The body scans left to right like Python's `split`. The separator here is `test_embeddings/{project_key}/`, which can overlap itself only for unusual project keys.
