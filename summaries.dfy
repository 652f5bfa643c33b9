/** The loops that turn evidence into image URLs and `image_info` entries, and the enumerated
    response strings of the two image-returning routes. */
module Summaries {
  import opened Wrappers
  import opened PyText
  import opened Evidence
  import opened Fusion

  /** The records that have both a project key and a relative path, in their order. */
  function WithImageRef(xs: seq<Record>): (rs: seq<Record>)
    ensures forall r :: r in rs <==> r in xs && HasImageRef(r)
    ensures forall k :: 0 <= k < |rs| ==> HasImageRef(rs[k])
  {
    if xs == [] then []
    else WithImageRef(Init(xs)) + (if HasImageRef(Last(xs)) then [Last(xs)] else [])
  }

  /** The filter keeps order: filtering `xs + ys` filters `xs`, then `ys`. */
  lemma {:induction false} WithImageRefConcat(xs: seq<Record>, ys: seq<Record>)
    ensures WithImageRef(xs + ys) == WithImageRef(xs) + WithImageRef(ys)
  {
    if ys == [] {
      assert xs + ys == xs;
    } else {
      var zs := xs + ys;
      assert Init(zs) == xs + Init(ys);
      assert Last(zs) == Last(ys);
      WithImageRefConcat(xs, Init(ys));
    }
  }

  /** `construct_image_url(project_key, relative_path)` for every record that has both. */
  function ImageUrls(xs: seq<Record>, urlOf: (string, string) -> string): seq<string> {
    if xs == [] then []
    else
      var r := Last(xs);
      ImageUrls(Init(xs), urlOf) + (if HasImageRef(r) then [urlOf(r.projectKey.value, r.relativePath.value)] else [])
  }

  /** Image URLs correspond one to one, in order, to the records that have both a project key and
      a relative path; a record missing either contributes none. */
  lemma {:induction false} ImageUrlsFollowImagedRecords(xs: seq<Record>, urlOf: (string, string) -> string)
    ensures |ImageUrls(xs, urlOf)| == |WithImageRef(xs)|
    ensures forall k :: 0 <= k < |WithImageRef(xs)| ==>
      var r := WithImageRef(xs)[k];
      ImageUrls(xs, urlOf)[k] == urlOf(r.projectKey.value, r.relativePath.value)
  {
    if xs != [] {
      ImageUrlsFollowImagedRecords(Init(xs), urlOf);
    }
  }

  /** The `image_info` entry of a record that has an image: its URL, project key, page and region. */
  function DescriptionInfo(r: Record, urlOf: (string, string) -> string): ImageInfo
    requires HasImageRef(r)
  {
    ImageInfo(urlOf(r.projectKey.value, r.relativePath.value), r.projectKey, r.pageNum, r.regionNumber, None, None)
  }

  /** The `image_info` entries of the text-to-images route: entry `k` describes the `k`-th record
      that has a project key and a relative path, with that record's URL, project, page and region. */
  function DescriptionInfos(xs: seq<Record>, urlOf: (string, string) -> string): (infos: seq<ImageInfo>)
    ensures |infos| == |WithImageRef(xs)|
    ensures forall k :: 0 <= k < |infos| ==> infos[k] == DescriptionInfo(WithImageRef(xs)[k], urlOf)
  {
    if xs == [] then []
    else
      var r := Last(xs);
      DescriptionInfos(Init(xs), urlOf) + (if HasImageRef(r) then [DescriptionInfo(r, urlOf)] else [])
  }

  /** The URLs of a list of `image_info` entries. */
  function Urls(infos: seq<ImageInfo>): (us: seq<string>)
    ensures |us| == |infos| && forall i :: 0 <= i < |infos| ==> us[i] == infos[i].url
  {
    seq(|infos|, i requires 0 <= i < |infos| => infos[i].url)
  }

  /** `images` and `image_info` are built together: one entry per URL, in the same order, and
      each entry names the project of a record that has an image. */
  lemma {:induction false} DescriptionInfosMatchUrls(xs: seq<Record>, urlOf: (string, string) -> string)
    ensures Urls(DescriptionInfos(xs, urlOf)) == ImageUrls(xs, urlOf)
    ensures forall i :: 0 <= i < |DescriptionInfos(xs, urlOf)| ==> TruthyStr(DescriptionInfos(xs, urlOf)[i].projectKey)
  {
    if xs != [] {
      DescriptionInfosMatchUrls(Init(xs), urlOf);
    }
  }

  /** The visual matches that have a truthy `image_url`, in their order. */
  function WithImageUrl(ms: seq<Record>): (rs: seq<Record>)
    ensures |rs| <= |ms|
    ensures forall r :: r in rs <==> r in ms && TruthyStr(r.imageUrl)
    ensures forall k :: 0 <= k < |rs| ==> TruthyStr(rs[k].imageUrl)
  {
    if ms == [] then []
    else WithImageUrl(Init(ms)) + (if TruthyStr(Last(ms).imageUrl) then [Last(ms)] else [])
  }

  /** The filter keeps order: filtering `ms + ns` filters `ms`, then `ns`. */
  lemma {:induction false} WithImageUrlConcat(ms: seq<Record>, ns: seq<Record>)
    ensures WithImageUrl(ms + ns) == WithImageUrl(ms) + WithImageUrl(ns)
  {
    if ns == [] {
      assert ms + ns == ms;
    } else {
      var zs := ms + ns;
      assert Init(zs) == ms + Init(ns);
      assert Last(zs) == Last(ns);
      WithImageUrlConcat(ms, Init(ns));
    }
  }

  /** The `image_info` entry of a visual match with a URL: the URL, project key, page, the
      similarity (0 when absent) and the `CLIP_visual` tag. */
  function VisualInfo(m: Record): ImageInfo
    requires TruthyStr(m.imageUrl)
  {
    ImageInfo(m.imageUrl.value, m.projectKey, m.pageNum, None, Some(m.similarity.GetOr(0.0)), Some(ClipVisual))
  }

  /** The `image_info` entries of the image-to-images route: entry `k` describes the `k`-th match
      that has a truthy URL. */
  function VisualInfos(ms: seq<Record>): (infos: seq<ImageInfo>)
    ensures |infos| == |WithImageUrl(ms)|
    ensures forall k :: 0 <= k < |infos| ==> infos[k] == VisualInfo(WithImageUrl(ms)[k])
  {
    if ms == [] then []
    else
      var m := Last(ms);
      VisualInfos(Init(ms)) + (if TruthyStr(m.imageUrl) then [VisualInfo(m)] else [])
  }

  /** The loop over descriptions of the text-to-images route. */
  method CollectDescriptionImages(descriptions: seq<Record>, urlOf: (string, string) -> string)
    returns (images: seq<string>, infos: seq<ImageInfo>)
    ensures images == ImageUrls(descriptions, urlOf)
    ensures infos == DescriptionInfos(descriptions, urlOf)
  {
    images, infos := [], [];
    for i := 0 to |descriptions|
      invariant images == ImageUrls(descriptions[..i], urlOf)
      invariant infos == DescriptionInfos(descriptions[..i], urlOf)
    {
      assert Init(descriptions[..i + 1]) == descriptions[..i];
      var desc := descriptions[i];
      var projectKey, relativePath := desc.projectKey, desc.relativePath;
      if TruthyStr(projectKey) && TruthyStr(relativePath) {
        var imageUrl := urlOf(projectKey.value, relativePath.value);
        images := images + [imageUrl];
        infos := infos + [ImageInfo(imageUrl, projectKey, desc.pageNum, desc.regionNumber, None, None)];
      }
    }
    assert descriptions[..|descriptions|] == descriptions;
  }

  /** The URL loop of the image-to-text route, over the evidence kept. */
  method CollectImageUrls(sources: seq<Record>, urlOf: (string, string) -> string) returns (images: seq<string>)
    ensures images == ImageUrls(sources, urlOf)
  {
    images := [];
    for i := 0 to |sources|
      invariant images == ImageUrls(sources[..i], urlOf)
    {
      assert Init(sources[..i + 1]) == sources[..i];
      var projectKey, relativePath := sources[i].projectKey, sources[i].relativePath;
      if TruthyStr(projectKey) && TruthyStr(relativePath) {
        images := images + [urlOf(projectKey.value, relativePath.value)];
      }
    }
    assert sources[..|sources|] == sources;
  }

  /** The loop over visual matches of the image-to-images route. */
  method CollectVisualMatches(matches: seq<Record>) returns (images: seq<string>, infos: seq<ImageInfo>)
    ensures infos == VisualInfos(matches)
    ensures images == Urls(infos)
  {
    images, infos := [], [];
    for i := 0 to |matches|
      invariant infos == VisualInfos(matches[..i])
      invariant images == Urls(infos)
    {
      assert Init(matches[..i + 1]) == matches[..i];
      var imageUrl := matches[i].imageUrl;
      if TruthyStr(imageUrl) {
        images := images + [imageUrl.value];
        infos := infos + [ImageInfo(imageUrl.value, matches[i].projectKey, matches[i].pageNum, None,
                                    Some(matches[i].similarity.GetOr(0.0)), Some(ClipVisual))];
      }
    }
    assert matches[..|matches|] == matches;
  }

  /** `f"{x}"` of an optional string or integer: `None` prints as "None". */
  function ShowStr(o: Option<string>): string {
    match o
    case None => "None"
    case Some(s) => s
  }

  function ShowInt(o: Option<int>): string {
    match o
    case None => "None"
    case Some(n) => IntToString(n)
  }

  /** The first line of the text-to-images response. */
  function FoundHeader(count: int): string {
    "I found " + IntToString(count) + " relevant image(s) for your query:\n\n"
  }

  /** `f"[{i}] Project {project_key}, Page {page_num}"`, the start of each response line. */
  function EntryText(i: int, info: ImageInfo): string {
    "[" + IntToString(i) + "] Project " + ShowStr(info.projectKey) + ", Page " + ShowInt(info.pageNum)
  }

  /** The `i`-th line of the text-to-images response; the region appears only when truthy. */
  function FoundLine(i: int, info: ImageInfo): (line: string)
    ensures EntryText(i, info) <= line && line[|line| - 1] == '\n'
    ensures TruthyInt(info.regionNumber) ==>
      line[|EntryText(i, info)|..|line| - 1] == RegionText(info.regionNumber.value)
    ensures !TruthyInt(info.regionNumber) ==> |line| == |EntryText(i, info)| + 1
  {
    EntryText(i, info)
    + (if TruthyInt(info.regionNumber) then RegionText(info.regionNumber.value) else "")
    + "\n"
  }

  function RegionText(region: int): string {
    ", Region " + IntToString(region)
  }

  /** The lines for all entries, numbered from 1 (`enumerate(image_info, 1)`). */
  function NumberedLines(infos: seq<ImageInfo>, line: (int, ImageInfo) -> string): string {
    if infos == [] then "" else NumberedLines(Init(infos), line) + line(|infos|, Last(infos))
  }

  /** The first line of the image-to-images response. */
  function VisualHeader(count: int): string {
    "I found " + IntToString(count) + " visually similar image(s):\n\n"
  }

  /** The `i`-th line of the image-to-images response; the similarity appears only when non-zero. */
  function VisualLine(i: int, info: ImageInfo, format: real -> string): (line: string)
    ensures EntryText(i, info) <= line && line[|line| - 1] == '\n'
    ensures TruthyReal(info.similarity) ==>
      line[|EntryText(i, info)|..|line| - 1] == SimilarityText(format(info.similarity.value))
    ensures !TruthyReal(info.similarity) ==> |line| == |EntryText(i, info)| + 1
  {
    EntryText(i, info)
    + (if TruthyReal(info.similarity) then SimilarityText(format(info.similarity.value)) else "")
    + "\n"
  }

  /** The line function of the visual summary, with the given similarity formatting. */
  function VisualLineWith(format: real -> string): (int, ImageInfo) -> string {
    (i, info) => VisualLine(i, info, format)
  }

  function SimilarityText(formatted: string): string {
    " (similarity: " + formatted + ")"
  }

  /** Appending the next numbered line keeps a summary equal to its header and the lines so far. */
  lemma NumberedLinesStep(header: string, infos: seq<ImageInfo>, line: (int, ImageInfo) -> string,
                          i: nat, text: string, text': string)
    requires i < |infos|
    requires text == header + NumberedLines(infos[..i], line)
    requires text' == text + line(i + 1, infos[i])
    ensures text' == header + NumberedLines(infos[..i + 1], line)
  {
    assert Init(infos[..i + 1]) == infos[..i];
  }

  /** One pass of the text-to-images summary loop: the entry, its region when truthy, a newline. */
  method AppendFoundLine(text: string, i: int, info: ImageInfo) returns (text': string)
    ensures text' == text + FoundLine(i, info)
  {
    text' := text + EntryText(i, info);
    if TruthyInt(info.regionNumber) {
      text' := text' + RegionText(info.regionNumber.value);
    }
    text' := text' + "\n";
  }

  /** One pass of the image-to-images summary loop: the entry, its similarity when non-zero, a newline. */
  method AppendVisualLine(text: string, i: int, info: ImageInfo, format: real -> string) returns (text': string)
    ensures text' == text + VisualLine(i, info, format)
  {
    text' := text + EntryText(i, info);
    if TruthyReal(info.similarity) {
      text' := text' + SimilarityText(format(info.similarity.value));
    }
    text' := text' + "\n";
  }

  /** The summary loop of the text-to-images route. */
  method DescribeImagesFound(count: int, infos: seq<ImageInfo>) returns (text: string)
    ensures text == FoundHeader(count) + NumberedLines(infos, FoundLine)
  {
    text := FoundHeader(count);
    for i := 0 to |infos|
      invariant text == FoundHeader(count) + NumberedLines(infos[..i], FoundLine)
    {
      ghost var before := text;
      text := AppendFoundLine(text, i + 1, infos[i]);
      NumberedLinesStep(FoundHeader(count), infos, FoundLine, i, before, text);
    }
    assert infos[..|infos|] == infos;
  }

  /** The summary loop of the image-to-images route. */
  method DescribeVisualMatches(count: int, infos: seq<ImageInfo>, format: real -> string) returns (text: string)
    ensures text == VisualHeader(count) + NumberedLines(infos, VisualLineWith(format))
  {
    ghost var line := VisualLineWith(format);
    text := VisualHeader(count);
    for i := 0 to |infos|
      invariant text == VisualHeader(count) + NumberedLines(infos[..i], line)
    {
      ghost var before := text;
      text := AppendVisualLine(text, i + 1, infos[i], format);
      NumberedLinesStep(VisualHeader(count), infos, line, i, before, text);
    }
    assert infos[..|infos|] == infos;
  }

  /** The numbered lines list every entry, the `k`-th (from 0) under the number `k + 1`. */
  lemma {:induction false} NumberedLinesListEach(infos: seq<ImageInfo>, line: (int, ImageInfo) -> string)
    ensures forall k :: 0 <= k < |infos| ==> Contains(NumberedLines(infos, line), line(k + 1, infos[k]))
  {
    if infos != [] {
      var p, last := Init(infos), line(|infos|, Last(infos));
      NumberedLinesListEach(p, line);
      forall k | 0 <= k < |infos| ensures Contains(NumberedLines(infos, line), line(k + 1, infos[k])) {
        if k < |p| {
          var i :| OccursAt(NumberedLines(p, line), line(k + 1, p[k]), i);
          OccursInConcat(NumberedLines(p, line), last, line(k + 1, p[k]), i);
        } else {
          assert OccursAt(last, last, 0);
          OccursInConcat(NumberedLines(p, line), last, last, 0);
        }
      }
    }
  }

  /** A summary made of a header and the numbered lines begins with the header and lists every
      entry under its 1-based number. */
  lemma SummaryListsEach(text: string, header: string, infos: seq<ImageInfo>, line: (int, ImageInfo) -> string)
    requires text == header + NumberedLines(infos, line)
    ensures header <= text
    ensures forall k :: 0 <= k < |infos| ==> Contains(text, line(k + 1, infos[k]))
  {
    NumberedLinesListEach(infos, line);
    forall k | 0 <= k < |infos| ensures Contains(text, line(k + 1, infos[k])) {
      var i :| OccursAt(NumberedLines(infos, line), line(k + 1, infos[k]), i);
      OccursInConcat(header, NumberedLines(infos, line), line(k + 1, infos[k]), i);
    }
  }

  /** The visual summary lists every entry under its 1-based number. */
  lemma VisualSummaryEach(text: string, header: string, infos: seq<ImageInfo>, format: real -> string)
    requires text == header + NumberedLines(infos, VisualLineWith(format))
    ensures header <= text
    ensures forall k :: 0 <= k < |infos| ==> Contains(text, VisualLine(k + 1, infos[k], format))
  {
    SummaryListsEach(text, header, infos, VisualLineWith(format));
  }
}
