/** The values the orchestrator passes around: evidence records (the dictionaries the search
    backends return), the response envelope, and the external calls it composes. */
module Evidence {
  import opened Wrappers

  /** An embedding vector; a failed embedding is `None`. */
  type Vector = seq<real>

  /** The uploaded image; the core only passes it on to the gateways. */
  type Image = seq<bv8>

  /** One prior conversation turn. */
  datatype Turn = Turn(role: string, content: string)

  /** A search result or description record. Each field is `d.get(key)`: `None` when the key is
      absent or holds `None`. Text search and description lookup fill `relativePath`,
      `regionNumber` and `summary`; visual search fills `imageUrl` and `similarity`. */
  datatype Record = Record(
    projectKey: Option<string>,
    relativePath: Option<string>,
    pageNum: Option<int>,
    regionNumber: Option<int>,
    summary: Option<string>,
    imageUrl: Option<string>,
    similarity: Option<real>,
    searchType: Option<string>)

  /** The deduplication key `(project_key, page_num, region_number)`; `None` equals `None`. */
  type IdentityKey = (Option<string>, Option<int>, Option<int>)

  function Key(r: Record): IdentityKey {
    (r.projectKey, r.pageNum, r.regionNumber)
  }

  /** Python truthiness of an optional string, integer, real and embedding. */
  predicate TruthyStr(o: Option<string>) { o.Some? && o.value != "" }
  predicate TruthyInt(o: Option<int>) { o.Some? && o.value != 0 }
  predicate TruthyReal(o: Option<real>) { o.Some? && o.value != 0.0 }
  predicate TruthyVector(o: Option<Vector>) { o.Some? && o.value != [] }

  /** `if project_key and relative_path`: the record can be shown as an image. */
  predicate HasImageRef(r: Record) {
    TruthyStr(r.projectKey) && TruthyStr(r.relativePath)
  }

  /** The `search_type` tags of the two retrieval paths of the image-to-text route. */
  const ClipVisual := "CLIP_visual"
  const VisionText := "GPT4o_Vision_text"

  /** One `image_info` entry. Text-to-images entries carry `regionNumber`; image-to-images
      entries carry `similarity` and the `CLIP_visual` tag. */
  datatype ImageInfo = ImageInfo(
    url: string,
    projectKey: Option<string>,
    pageNum: Option<int>,
    regionNumber: Option<int>,
    similarity: Option<real>,
    searchType: Option<string>)

  /** The response dictionary: `imageInfo` is `[]` and `searchType` is `None` where the
      dictionary has no such key. */
  datatype Envelope = Envelope(
    response: string,
    sources: seq<Record>,
    images: seq<string>,
    imageInfo: seq<ImageInfo>,
    searchType: Option<string>)

  /** The envelope of every early return: a fixed message and no evidence. */
  function Fallback(message: string): (e: Envelope)
    ensures e.response == message && e.sources == [] && e.images == []
  {
    Envelope(message, [], [], [], None)
  }

  /** The external calls: embedding, the vector searches, the description lookup by path, image
      captioning, answer generation, image URL construction, and the `:.3f` rendering of a
      similarity. They are taken as given functions of their arguments. */
  datatype Gateways = Gateways(
    embedText: string -> Option<Vector>,
    embedImage: Image -> Option<Vector>,
    searchText: (Vector, int, bool) -> seq<Record>,
    searchImages: (Vector, int) -> seq<Record>,
    descriptionsByPaths: (string, seq<string>) -> seq<Record>,
    describeImage: Image -> Option<string>,
    generate: (string, seq<Record>, Option<seq<Turn>>) -> string,
    imageUrl: (string, string) -> string,
    formatSimilarity: real -> string)
}
