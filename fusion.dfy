/** The dual-path fusion of the image-to-text route: the records derived from CLIP matches,
    the tagged caption-search matches, and the first-seen-wins deduplication by identity key. */
module Fusion {
  import opened Wrappers
  import opened PyText
  import opened Evidence

  function Init<T>(xs: seq<T>): seq<T>
    requires xs != []
  {
    xs[..|xs| - 1]
  }

  function Last<T>(xs: seq<T>): T
    requires xs != []
  {
    xs[|xs| - 1]
  }

  /** The identity keys occurring in `xs`. */
  function Keys(xs: seq<Record>): set<IdentityKey> {
    set r | r in xs :: Key(r)
  }

  /** No two records of `xs` share an identity key. */
  predicate UniqueKeys(xs: seq<Record>) {
    forall i, j :: 0 <= i < j < |xs| ==> Key(xs[i]) != Key(xs[j])
  }

  /** No record before index `i` has the key of `xs[i]`. */
  predicate IsFirstOfKey(xs: seq<Record>, i: int)
    requires 0 <= i < |xs|
  {
    forall j :: 0 <= j < i ==> Key(xs[j]) != Key(xs[i])
  }

  /** Deduplication by identity key, first occurrence wins: a record is kept exactly when its key
      does not occur among the records before it. */
  function Dedup(xs: seq<Record>): (r: seq<Record>)
    ensures |r| <= |xs|
    ensures forall x :: x in r ==> x in xs
  {
    if xs == [] then []
    else if Key(Last(xs)) in Keys(Init(xs)) then Dedup(Init(xs))
    else Dedup(Init(xs)) + [Last(xs)]
  }

  /** The positions of `xs` that deduplication keeps. */
  ghost function KeptIndices(xs: seq<Record>): seq<int> {
    if xs == [] then []
    else if Key(Last(xs)) in Keys(Init(xs)) then KeptIndices(Init(xs))
    else KeptIndices(Init(xs)) + [|xs| - 1]
  }

  /** The loop at the heart of the fusion: walk the records in order, remembering the keys seen. */
  method DedupByKey(all: seq<Record>) returns (unique: seq<Record>)
    ensures unique == Dedup(all)
  {
    var seen: set<IdentityKey> := {};
    unique := [];
    for i := 0 to |all|
      invariant seen == Keys(all[..i])
      invariant unique == Dedup(all[..i])
    {
      assert Init(all[..i + 1]) == all[..i];
      var key := Key(all[i]);
      if key !in seen {
        seen := seen + {key};
        unique := unique + [all[i]];
      }
    }
    assert all[..|all|] == all;
  }

  /** Deduplication keeps, in order, exactly the records that are the first with their key: its
      output is a subsequence of its input picked at increasing positions, and a position is
      picked if and only if no earlier record shares its key. */
  lemma {:induction false} DedupKeepsFirstOccurrences(xs: seq<Record>)
    ensures |KeptIndices(xs)| == |Dedup(xs)|
    ensures forall k :: 0 <= k < |Dedup(xs)| ==>
      0 <= KeptIndices(xs)[k] < |xs| && Dedup(xs)[k] == xs[KeptIndices(xs)[k]]
    ensures forall k, l :: 0 <= k < l < |KeptIndices(xs)| ==> KeptIndices(xs)[k] < KeptIndices(xs)[l]
    ensures forall i :: 0 <= i < |xs| ==> (i in KeptIndices(xs) <==> IsFirstOfKey(xs, i))
  {
    if xs != [] {
      var p, n := Init(xs), |xs| - 1;
      DedupKeepsFirstOccurrences(p);
      assert forall i :: 0 <= i < n ==> xs[i] == p[i];
      assert forall i :: 0 <= i < n ==> (IsFirstOfKey(xs, i) <==> IsFirstOfKey(p, i));
      if Key(xs[n]) in Keys(p) {
        var r :| r in p && Key(r) == Key(xs[n]);
        var j :| 0 <= j < |p| && p[j] == r;
        assert !IsFirstOfKey(xs, n);
      } else {
        forall j | 0 <= j < n ensures Key(xs[j]) != Key(xs[n]) {
          assert p[j] in p;
        }
      }
    }
  }

  /** Deduplication loses no key and invents none. */
  lemma {:induction false} DedupKeys(xs: seq<Record>)
    ensures Keys(Dedup(xs)) == Keys(xs)
  {
    if xs != [] {
      DedupKeys(Init(xs));
      var d := Dedup(Init(xs));
      KeysAppend(d, [Last(xs)]);
    }
  }

  /** After deduplication no two records share a key. */
  lemma {:induction false} DedupUniqueKeys(xs: seq<Record>)
    ensures UniqueKeys(Dedup(xs))
  {
    if xs != [] {
      DedupUniqueKeys(Init(xs));
      DedupKeys(Init(xs));
      var d := Dedup(Init(xs));
      if Key(Last(xs)) !in Keys(Init(xs)) {
        forall i | 0 <= i < |d| ensures Key(d[i]) != Key(Last(xs)) {
          assert d[i] in d;
        }
      }
    }
  }

  /** A list whose keys are already distinct is left as it is. */
  lemma {:induction false} DedupOfUnique(xs: seq<Record>)
    requires UniqueKeys(xs)
    ensures Dedup(xs) == xs
  {
    if xs != [] {
      DedupOfUnique(Init(xs));
      assert Key(Last(xs)) !in Keys(Init(xs)) by {
        forall r | r in Init(xs) ensures Key(r) != Key(Last(xs)) {
          var i :| 0 <= i < |xs| - 1 && xs[i] == r;
        }
      }
      assert Init(xs) + [Last(xs)] == xs;
    }
  }

  /** Deduplicating twice is deduplicating once. */
  lemma DedupIdempotent(xs: seq<Record>)
    ensures Dedup(Dedup(xs)) == Dedup(xs)
  {
    DedupUniqueKeys(xs);
    DedupOfUnique(Dedup(xs));
  }

  /** The keys of a concatenation. */
  lemma KeysAppend(xs: seq<Record>, ys: seq<Record>)
    ensures Keys(xs + ys) == Keys(xs) + Keys(ys)
  {
  }

  /** Records whose keys were all seen before add nothing. */
  lemma {:induction false} DedupAbsorbsSeen(xs: seq<Record>, ys: seq<Record>)
    requires Keys(ys) <= Keys(xs)
    ensures Dedup(xs + ys) == Dedup(xs)
  {
    if ys == [] {
      assert xs + ys == xs;
    } else {
      var zs := xs + ys;
      assert Init(zs) == xs + Init(ys);
      assert Last(zs) == Last(ys);
      DedupAbsorbsSeen(xs, Init(ys));
      KeysAppend(xs, Init(ys));
    }
  }

  /** Deduplicating a list followed by itself gives the deduplicated list. */
  lemma DedupOfDoubled(xs: seq<Record>)
    ensures Dedup(xs + xs) == Dedup(xs)
  {
    DedupAbsorbsSeen(xs, xs);
  }

  /** Deduplicating `xs + ys` begins with the deduplicated `xs`; every record after that comes
      from `ys` and has a key that `xs` does not have. */
  lemma {:induction false} DedupOfAppend(xs: seq<Record>, ys: seq<Record>)
    ensures Dedup(xs) <= Dedup(xs + ys)
    ensures forall k :: |Dedup(xs)| <= k < |Dedup(xs + ys)| ==>
      Dedup(xs + ys)[k] in ys && Key(Dedup(xs + ys)[k]) !in Keys(xs)
  {
    if ys == [] {
      assert xs + ys == xs;
    } else {
      var zs := xs + ys;
      assert Init(zs) == xs + Init(ys);
      assert Last(zs) == Last(ys);
      DedupOfAppend(xs, Init(ys));
      KeysAppend(xs, Init(ys));
      var d, y := Dedup(Init(zs)), Last(zs);
      if Key(y) in Keys(Init(zs)) {
        assert Dedup(zs) == d;
      } else {
        assert Dedup(zs) == d + [y];
        assert Key(y) !in Keys(xs);
        assert y in ys;
      }
    }
  }

  /** The marker a visual match's URL must contain: `test_embeddings/{project_key}/`. */
  function Marker(projectKey: string): string {
    "test_embeddings/" + projectKey + "/"
  }

  /** A visual match with a truthy project key and an image URL that contains its marker. */
  predicate HasMarkedUrl(m: Record) {
    TruthyStr(m.projectKey) && TruthyStr(m.imageUrl) && Contains(m.imageUrl.value, Marker(m.projectKey.value))
  }

  /** `image_url.split(marker)[-1]`: the relative path recovered from a marked URL. */
  function RelativePath(m: Record): string
    requires HasMarkedUrl(m)
  {
    SplitLast(m.imageUrl.value, Marker(m.projectKey.value))
  }

  /** What one visual match adds to the evidence: for a marked URL, the descriptions looked up by
      its project key and relative path, with only the first tagged `CLIP_visual`; otherwise
      nothing. */
  function ClipContribution(m: Record, lookup: (string, seq<string>) -> seq<Record>): (r: seq<Record>)
    ensures r != [] ==> HasMarkedUrl(m)
    ensures HasMarkedUrl(m) ==>
      var descs := lookup(m.projectKey.value, [RelativePath(m)]);
      && |r| == |descs|
      && (r != [] ==> r[0] == descs[0].(searchType := Some(ClipVisual)))
      && (forall i :: 1 <= i < |r| ==> r[i] == descs[i])
  {
    if HasMarkedUrl(m) then
      var descs := lookup(m.projectKey.value, [RelativePath(m)]);
      if descs == [] then [] else [descs[0].(searchType := Some(ClipVisual))] + descs[1..]
    else
      []
  }

  /** The records derived from all visual matches, in match order: a single match yields its own
      contribution (`ClipDerivedSingle`), and runs of matches concatenate (`ClipDerivedConcat`). */
  function ClipDerived(ms: seq<Record>, lookup: (string, seq<string>) -> seq<Record>): seq<Record> {
    if ms == [] then []
    else ClipDerived(Init(ms), lookup) + ClipContribution(Last(ms), lookup)
  }

  /** One visual match derives exactly its own contribution. */
  lemma ClipDerivedSingle(m: Record, lookup: (string, seq<string>) -> seq<Record>)
    ensures ClipDerived([m], lookup) == ClipContribution(m, lookup)
  {
    assert Init([m]) == [];
  }

  /** Visual matches whose URL lacks the marker contribute no evidence. */
  lemma {:induction false} ClipDerivedNeedsMarker(ms: seq<Record>, lookup: (string, seq<string>) -> seq<Record>)
    requires forall i :: 0 <= i < |ms| ==> !HasMarkedUrl(ms[i])
    ensures ClipDerived(ms, lookup) == []
  {
    if ms != [] {
      ClipDerivedNeedsMarker(Init(ms), lookup);
    }
  }

  /** The records derived from two runs of matches are those of the first run, then those of the second. */
  lemma {:induction false} ClipDerivedConcat(ms: seq<Record>, ns: seq<Record>, lookup: (string, seq<string>) -> seq<Record>)
    ensures ClipDerived(ms + ns, lookup) == ClipDerived(ms, lookup) + ClipDerived(ns, lookup)
  {
    if ns != [] {
      var zs := ms + ns;
      assert Init(zs) == ms + Init(ns);
      assert Last(zs) == Last(ns);
      ClipDerivedConcat(ms, Init(ns), lookup);
    } else {
      assert ms + ns == ms;
    }
  }

  /** The records derived from one more visual match: those derived so far, then its contribution. */
  lemma ClipDerivedSnoc(ms: seq<Record>, i: int, lookup: (string, seq<string>) -> seq<Record>)
    requires 0 <= i < |ms|
    ensures ClipDerived(ms[..i + 1], lookup) == ClipDerived(ms[..i], lookup) + ClipContribution(ms[i], lookup)
  {
    assert ms[..i + 1] == ms[..i] + [ms[i]];
    ClipDerivedConcat(ms[..i], [ms[i]], lookup);
    ClipDerivedSingle(ms[i], lookup);
  }

  /** Every record set to `search_type = tag`. */
  function TagAll(xs: seq<Record>, tag: string): (r: seq<Record>)
    ensures |r| == |xs|
    ensures forall i :: 0 <= i < |xs| ==> r[i] == xs[i].(searchType := Some(tag))
  {
    seq(|xs|, i requires 0 <= i < |xs| => xs[i].(searchType := Some(tag)))
  }

  /** Tagging changes no identity key. */
  lemma TagAllKeys(xs: seq<Record>, tag: string)
    ensures Keys(TagAll(xs, tag)) == Keys(xs)
  {
    var t := TagAll(xs, tag);
    forall k | k in Keys(t) ensures k in Keys(xs) {
      var r :| r in t && Key(r) == k;
      var i :| 0 <= i < |t| && t[i] == r;
      assert xs[i] in xs;
    }
    forall k | k in Keys(xs) ensures k in Keys(t) {
      var r :| r in xs && Key(r) == k;
      var i :| 0 <= i < |xs| && xs[i] == r;
      assert t[i] in t;
    }
  }

  /** The fused evidence list: CLIP-derived records, then the caption-search matches tagged
      `GPT4o_Vision_text`, deduplicated by identity key. */
  function Fuse(clipRecords: seq<Record>, textMatches: seq<Record>): (r: seq<Record>)
    ensures UniqueKeys(r)
    ensures Keys(r) == Keys(clipRecords) + Keys(textMatches)
  {
    var all := clipRecords + TagAll(textMatches, VisionText);
    DedupUniqueKeys(all);
    DedupKeys(all);
    KeysAppend(clipRecords, TagAll(textMatches, VisionText));
    TagAllKeys(textMatches, VisionText);
    Dedup(all)
  }

  /** The CLIP-derived records win: the fused list begins with the deduplicated CLIP-derived
      records, and every later record is a caption match whose key no CLIP-derived record has. */
  lemma FusionPrefersClip(clipRecords: seq<Record>, textMatches: seq<Record>)
    ensures Dedup(clipRecords) <= Fuse(clipRecords, textMatches)
    ensures forall k :: |Dedup(clipRecords)| <= k < |Fuse(clipRecords, textMatches)| ==>
      var r := Fuse(clipRecords, textMatches)[k];
      r.searchType == Some(VisionText) && Key(r) !in Keys(clipRecords)
  {
    DedupOfAppend(clipRecords, TagAll(textMatches, VisionText));
  }

  /** When no key repeats, fusion is plain concatenation. */
  lemma FusionWithoutOverlap(clipRecords: seq<Record>, textMatches: seq<Record>)
    requires UniqueKeys(clipRecords + textMatches)
    ensures Fuse(clipRecords, textMatches) == clipRecords + TagAll(textMatches, VisionText)
  {
    var a, b := clipRecords + textMatches, clipRecords + TagAll(textMatches, VisionText);
    assert forall i :: 0 <= i < |a| ==> Key(b[i]) == Key(a[i]);
    DedupOfUnique(b);
  }

  /** On a shared key a CLIP-derived record survives and every caption match is dropped: for the
      key of any CLIP-derived record, the fused list holds exactly one record with it, and that
      record is CLIP-derived. */
  lemma FusionOverlapKeepsClip(clipRecords: seq<Record>, textMatches: seq<Record>, c: Record)
    requires c in clipRecords
    ensures forall r :: r in Fuse(clipRecords, textMatches) && Key(r) == Key(c) ==> r in clipRecords
    ensures exists k :: 0 <= k < |Fuse(clipRecords, textMatches)| && Key(Fuse(clipRecords, textMatches)[k]) == Key(c)
  {
    var fused, kept := Fuse(clipRecords, textMatches), Dedup(clipRecords);
    FusionPrefersClip(clipRecords, textMatches);
    assert Key(c) in Keys(clipRecords);
    forall r | r in fused && Key(r) == Key(c) ensures r in clipRecords {
      var k :| 0 <= k < |fused| && fused[k] == r;
      assert k < |kept| && kept[k] == r;
    }
    DedupKeys(clipRecords);
    var d :| d in kept && Key(d) == Key(c);
    var j :| 0 <= j < |kept| && kept[j] == d;
    assert fused[j] == d;
  }

  /** The body of the loop over visual matches: the descriptions one match adds. */
  method MatchDescriptions(m: Record, lookup: (string, seq<string>) -> seq<Record>) returns (descs: seq<Record>)
    ensures descs == ClipContribution(m, lookup)
  {
    descs := [];
    if TruthyStr(m.projectKey) && TruthyStr(m.imageUrl) {
      var projectKey, imageUrl := m.projectKey.value, m.imageUrl.value;
      var marker := Marker(projectKey);
      if Contains(imageUrl, marker) {
        var relPath := SplitLast(imageUrl, marker);
        descs := lookup(projectKey, [relPath]);
        if descs != [] {
          descs := descs[0 := descs[0].(searchType := Some(ClipVisual))];
        }
      }
    }
  }

  /** The first loop of the fusion: for each visual match with a marked URL, the looked-up
      descriptions with the first re-tagged, in match order. */
  method CollectClipDescriptions(clipMatches: seq<Record>, lookup: (string, seq<string>) -> seq<Record>)
    returns (all: seq<Record>)
    ensures all == ClipDerived(clipMatches, lookup)
  {
    all := [];
    for i := 0 to |clipMatches|
      invariant all == ClipDerived(clipMatches[..i], lookup)
    {
      var descs := MatchDescriptions(clipMatches[i], lookup);
      ClipDerivedSnoc(clipMatches, i, lookup);
      all := all + descs;
    }
    assert clipMatches[..|clipMatches|] == clipMatches;
  }

  /** The second loop of the fusion: each caption match appended to `all` with its
      `search_type` set to `GPT4o_Vision_text`. */
  method AppendCaptionMatches(all: seq<Record>, textMatches: seq<Record>) returns (all': seq<Record>)
    ensures all' == all + TagAll(textMatches, VisionText)
  {
    all' := all;
    for j := 0 to |textMatches|
      invariant all' == all + TagAll(textMatches[..j], VisionText)
    {
      all' := all' + [textMatches[j].(searchType := Some(VisionText))];
    }
    assert textMatches[..|textMatches|] == textMatches;
  }

  /** Builds the list the source calls `all_descriptions`: the descriptions derived from the
      visual matches, then each caption match tagged. */
  method CollectDescriptions(clipMatches: seq<Record>, textMatches: seq<Record>,
                             lookup: (string, seq<string>) -> seq<Record>)
    returns (all: seq<Record>)
    ensures all == ClipDerived(clipMatches, lookup) + TagAll(textMatches, VisionText)
  {
    all := CollectClipDescriptions(clipMatches, lookup);
    all := AppendCaptionMatches(all, textMatches);
  }
}
