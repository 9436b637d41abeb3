/**
 * The author's analytics (src/pages/AnalyticsPage.tsx): totals over their pitches, one bar
 * per pitch with a shortened title, and how often each tag was used.
 */
module AnalyticsPage {
  import opened Optional
  import opened JsArray

  /** A row of the author's pitches query; a null tag list is `None`. */
  datatype PitchRow = PitchRow(title: string, likesCount: int, commentsCount: int, tags: Option<seq<string>>)

  /** One bar of the per-pitch chart. */
  datatype PitchBar = PitchBar(name: string, likes: int, comments: int)

  /** One slice of the tag chart. */
  datatype TagSlice = TagSlice(name: string, value: int)

  /** What the page shows once the query answered. */
  datatype Analytics = Analytics(
    totalPitches: int, totalLikes: int, totalComments: int,
    pitchData: seq<PitchBar>, tagData: seq<TagSlice>)

  /** `pitches.reduce((sum, p) => sum + p.likes_count, 0)`. */
  function TotalLikes(pitches: seq<PitchRow>): (r: int)
    ensures (forall i :: 0 <= i < |pitches| ==> pitches[i].likesCount >= 0) ==> r >= 0
  {
    if pitches == [] then 0 else TotalLikes(pitches[..|pitches| - 1]) + pitches[|pitches| - 1].likesCount
  }

  /** `pitches.reduce((sum, p) => sum + p.comments_count, 0)`. */
  function TotalComments(pitches: seq<PitchRow>): (r: int)
    ensures (forall i :: 0 <= i < |pitches| ==> pitches[i].commentsCount >= 0) ==> r >= 0
  {
    if pitches == [] then 0 else TotalComments(pitches[..|pitches| - 1]) + pitches[|pitches| - 1].commentsCount
  }

  /** The totals add up over any split of the pitch list. */
  lemma {:induction false} TotalsAppend(a: seq<PitchRow>, b: seq<PitchRow>)
    ensures TotalLikes(a + b) == TotalLikes(a) + TotalLikes(b)
    ensures TotalComments(a + b) == TotalComments(a) + TotalComments(b)
    decreases |b|
  {
    if b == [] {
      assert a + b == a;
    } else {
      var n := |b| - 1;
      assert (a + b)[..|a + b| - 1] == a + b[..n];
      TotalsAppend(a, b[..n]);
    }
  }

  /** The bar label: a title longer than twelve characters keeps twelve and gains an ellipsis. */
  function ChartName(title: string): (r: string)
    ensures |r| <= 13
    ensures |title| <= 12 ==> r == title
    ensures |title| > 12 ==> |r| == 13 && r[..12] == title[..12] && r[12] == '…'
  {
    if |title| > 12 then title[..12] + "…" else title
  }

  /** Shortening a label that is already short enough leaves it alone. */
  lemma ChartNameIdempotent(title: string)
    ensures ChartName(ChartName(title)) == ChartName(title)
  {
    var r := ChartName(title);
    if |r| > 12 {
      assert r == r[..12] + "…";
    }
  }

  /** `pitchData`: one bar per pitch, in the same order. */
  function PitchData(pitches: seq<PitchRow>): (r: seq<PitchBar>)
    ensures |r| == |pitches|
    ensures forall i :: 0 <= i < |r| ==>
      r[i] == PitchBar(ChartName(pitches[i].title), pitches[i].likesCount, pitches[i].commentsCount)
  {
    seq(|pitches|, i requires 0 <= i < |pitches| =>
      PitchBar(ChartName(pitches[i].title), pitches[i].likesCount, pitches[i].commentsCount))
  }

  function BarLikes(bars: seq<PitchBar>): int {
    if bars == [] then 0 else BarLikes(bars[..|bars| - 1]) + bars[|bars| - 1].likes
  }

  /** The bars carry exactly the likes counted in the total. */
  lemma {:induction false} BarsAddUpToTotal(pitches: seq<PitchRow>)
    ensures BarLikes(PitchData(pitches)) == TotalLikes(pitches)
    decreases |pitches|
  {
    if pitches != [] {
      var n := |pitches| - 1;
      assert PitchData(pitches)[..n] == PitchData(pitches[..n]);
      BarsAddUpToTotal(pitches[..n]);
    }
  }

  /** Every tag used, pitch after pitch, repeats included; a null list adds none. */
  function AllTags(pitches: seq<PitchRow>): (r: seq<string>)
    ensures forall i, t :: 0 <= i < |pitches| && pitches[i].tags.Some? && t in pitches[i].tags.value ==> t in r
  {
    if pitches == [] then [] else AllTags(pitches[..|pitches| - 1]) + pitches[|pitches| - 1].tags.GetOr([])
  }

  /** The counts of the tags in `order`, added up. */
  function SumCounts(order: seq<string>, counts: map<string, int>): int
    requires forall t :: t in order ==> t in counts
  {
    if order == [] then 0 else counts[order[0]] + SumCounts(order[1..], counts)
  }

  /** Counts outside `order` do not enter its sum. */
  lemma {:induction false} SumCountsIgnoresOthers(order: seq<string>, counts: map<string, int>, t: string, v: int)
    requires forall u :: u in order ==> u in counts
    requires t !in order
    ensures SumCounts(order, counts[t := v]) == SumCounts(order, counts)
    decreases |order|
  {
    if order != [] {
      SumCountsIgnoresOthers(order[1..], counts, t, v);
    }
  }

  /** Adding one to a tag listed once adds one to the sum. */
  lemma {:induction false} SumCountsBump(order: seq<string>, counts: map<string, int>, t: string)
    requires forall u :: u in order ==> u in counts
    requires Distinct(order) && t in order
    ensures SumCounts(order, counts[t := counts[t] + 1]) == SumCounts(order, counts) + 1
    decreases |order|
  {
    if order[0] == t {
      assert t !in order[1..];
      SumCountsIgnoresOthers(order[1..], counts, t, counts[t] + 1);
    } else {
      SumCountsBump(order[1..], counts, t);
    }
  }

  /** A new tag with count one at the end of the order adds one to the sum. */
  lemma {:induction false} SumCountsNew(order: seq<string>, counts: map<string, int>, t: string)
    requires forall u :: u in order ==> u in counts
    requires t !in order
    ensures SumCounts(order + [t], counts[t := 1]) == SumCounts(order, counts) + 1
    decreases |order|
  {
    if order == [] {
      assert order + [t] == [t];
    } else {
      assert (order + [t])[1..] == order[1..] + [t];
      SumCountsNew(order[1..], counts, t);
    }
  }

  /**
   * The state of the histogram after the tags `seen`: `order` lists each of them once, in
   * order of first use, and `counts` holds how often each was used.
   */
  ghost predicate Histogram(order: seq<string>, counts: map<string, int>, seen: seq<string>) {
    && Distinct(order)
    && (forall t :: t in order <==> t in seen)
    && (forall t :: t in counts <==> t in seen)
    && (forall t :: t in counts ==> counts[t] == multiset(seen)[t])
    && SumCounts(order, counts) == |seen|
  }

  /** `tagCount[t] = (tagCount[t] || 0) + 1` for a tag seen before. */
  lemma BumpKeepsHistogram(order: seq<string>, counts: map<string, int>, seen: seq<string>, t: string)
    requires Histogram(order, counts, seen) && t in counts
    ensures Histogram(order, counts[t := counts[t] + 1], seen + [t])
  {
    SumCountsBump(order, counts, t);
    assert multiset(seen + [t]) == multiset(seen) + multiset{t};
  }

  /** `tagCount[t] = (tagCount[t] || 0) + 1` for a new tag. */
  lemma NewKeepsHistogram(order: seq<string>, counts: map<string, int>, seen: seq<string>, t: string)
    requires Histogram(order, counts, seen) && t !in counts
    ensures Histogram(order + [t], counts[t := 1], seen + [t])
  {
    SumCountsNew(order, counts, t);
    assert multiset(seen + [t]) == multiset(seen) + multiset{t};
    var o := order + [t];
    forall i, j | 0 <= i < j < |o|
      ensures o[i] != o[j]
    {
      if j == |order| {
        assert o[i] == order[i];
      }
    }
  }

  /**
   * The tag histogram: the nested `forEach` bumping `tagCount[t]`, then `Object.entries`.
   * Each tag used appears once, in order of first use, with the number of times it was used;
   * so the slices add up to the number of tag entries.
   */
  method TagHistogram(pitches: seq<PitchRow>) returns (tagData: seq<TagSlice>)
    ensures forall i, j :: 0 <= i < j < |tagData| ==> tagData[i].name != tagData[j].name
    ensures forall t :: t in AllTags(pitches) <==> exists i :: 0 <= i < |tagData| && tagData[i].name == t
    ensures forall i :: 0 <= i < |tagData| ==> tagData[i].value == multiset(AllTags(pitches))[tagData[i].name]
    ensures SliceTotal(tagData) == |AllTags(pitches)|
  {
    var counts: map<string, int> := map[];
    var order: seq<string> := [];
    var i := 0;
    while i < |pitches|
      invariant 0 <= i <= |pitches|
      invariant Histogram(order, counts, AllTags(pitches[..i]))
    {
      AllTagsStep(pitches, i);
      order, counts := CountTags(order, counts, AllTags(pitches[..i]), pitches[i].tags.GetOr([]));
      i := i + 1;
    }
    assert pitches[..i] == pitches;
    tagData := seq(|order|, k requires 0 <= k < |order| => TagSlice(order[k], counts[order[k]]));
    SlicesOfHistogram(order, counts, AllTags(pitches), tagData);
  }

  lemma AllTagsStep(pitches: seq<PitchRow>, i: nat)
    requires i < |pitches|
    ensures AllTags(pitches[..i + 1]) == AllTags(pitches[..i]) + pitches[i].tags.GetOr([])
  {
    assert pitches[..i + 1][..i] == pitches[..i];
  }

  /** The inner `forEach`: one pitch's tags, each bumping its count. */
  method CountTags(order: seq<string>, counts: map<string, int>, ghost seen: seq<string>, tags: seq<string>)
    returns (order': seq<string>, counts': map<string, int>)
    requires Histogram(order, counts, seen)
    ensures Histogram(order', counts', seen + tags)
  {
    order', counts' := order, counts;
    var j := 0;
    while j < |tags|
      invariant 0 <= j <= |tags|
      invariant Histogram(order', counts', seen + tags[..j])
    {
      var t := tags[j];
      assert seen + tags[..j + 1] == (seen + tags[..j]) + [t];
      if t in counts' {
        BumpKeepsHistogram(order', counts', seen + tags[..j], t);
        counts' := counts'[t := counts'[t] + 1];
      } else {
        NewKeepsHistogram(order', counts', seen + tags[..j], t);
        order' := order' + [t];
        counts' := counts'[t := 1];
      }
      j := j + 1;
    }
    assert tags[..j] == tags;
  }

  lemma SlicesOfHistogram(order: seq<string>, counts: map<string, int>, seen: seq<string>, slices: seq<TagSlice>)
    requires Histogram(order, counts, seen)
    requires |slices| == |order|
    requires forall k :: 0 <= k < |order| ==> slices[k] == TagSlice(order[k], counts[order[k]])
    ensures forall i, j :: 0 <= i < j < |slices| ==> slices[i].name != slices[j].name
    ensures forall t :: t in seen <==> exists i :: 0 <= i < |slices| && slices[i].name == t
    ensures forall i :: 0 <= i < |slices| ==> slices[i].value == multiset(seen)[slices[i].name]
    ensures SliceTotal(slices) == |seen|
  {
    SliceTotalOfOrder(order, counts, slices);
    forall t | t in seen
      ensures exists i :: 0 <= i < |slices| && slices[i].name == t
    {
      var i :| 0 <= i < |order| && order[i] == t;
      assert slices[i].name == t;
    }
  }

  /** The slice values added up. */
  function SliceTotal(slices: seq<TagSlice>): int {
    if slices == [] then 0 else slices[0].value + SliceTotal(slices[1..])
  }

  lemma {:induction false} SliceTotalOfOrder(order: seq<string>, counts: map<string, int>, slices: seq<TagSlice>)
    requires forall t :: t in order ==> t in counts
    requires |slices| == |order|
    requires forall k :: 0 <= k < |order| ==> slices[k] == TagSlice(order[k], counts[order[k]])
    ensures SliceTotal(slices) == SumCounts(order, counts)
    decreases |order|
  {
    if order != [] {
      SliceTotalOfOrder(order[1..], counts, slices[1..]);
    }
  }

  /**
   * `fetchAnalytics`, with the query result as an input. Without a signed-in user, or when
   * the query returned no rows object, the page keeps what it shows.
   */
  method FetchAnalytics(signedIn: bool, pitches: Option<seq<PitchRow>>) returns (r: Option<Analytics>)
    ensures r.None? <==> !signedIn || pitches.None?
    ensures r.Some? ==>
      && r.value.totalPitches == |pitches.value|
      && r.value.totalLikes == TotalLikes(pitches.value)
      && r.value.totalComments == TotalComments(pitches.value)
      && r.value.pitchData == PitchData(pitches.value)
    ensures r.Some? ==> var tags := AllTags(pitches.value);
      && (forall t :: t in tags <==> exists i :: 0 <= i < |r.value.tagData| && r.value.tagData[i].name == t)
      && (forall i :: 0 <= i < |r.value.tagData| ==> r.value.tagData[i].value == multiset(tags)[r.value.tagData[i].name])
      && SliceTotal(r.value.tagData) == |tags|
  {
    if !signedIn || pitches.None? {
      return None;
    }
    var rows := pitches.value;
    var tagData := TagHistogram(rows);
    r := Some(Analytics(|rows|, TotalLikes(rows), TotalComments(rows), PitchData(rows), tagData));
  }

  /**
   * `tagCount` as written is a plain object literal, so it starts out with the properties
   * every object inherits from `Object.prototype`; these are their names.
   */
  const InheritedKeys: set<string> := {
    "constructor", "hasOwnProperty", "isPrototypeOf", "propertyIsEnumerable",
    "toLocaleString", "toString", "valueOf", "__proto__",
    "__defineGetter__", "__defineSetter__", "__lookupGetter__", "__lookupSetter__"}

  /**
   * A value of the plain-object `tagCount`: a count, or the string an inherited function plus
   * one turns into (`tagCount[t] || 0` is the inherited function, which is truthy).
   */
  datatype TagValue = Count(n: int) | Garbled

  /** `tagCount` as written: its own properties and the order they were created in. */
  datatype TagRecord = TagRecord(values: map<string, TagValue>, keys: seq<string>)

  /** `tagCount[t] = (tagCount[t] || 0) + 1` on a plain object. */
  function BumpAsWritten(rec: TagRecord, t: string): (r: TagRecord)
    ensures forall u :: u != t ==> (u in r.values <==> u in rec.values)
    ensures forall u :: u != t && u in rec.values ==> r.values[u] == rec.values[u]
    ensures t != "__proto__" ==> t in r.values
  {
    if t in rec.values then
      rec.(values := rec.values[t := if rec.values[t].Count? then Count(rec.values[t].n + 1) else Garbled])
    else if t == "__proto__" then
      rec  // assigning a string to `__proto__` changes nothing and creates no property
    else if t in InheritedKeys then
      TagRecord(rec.values[t := Garbled], rec.keys + [t])
    else
      TagRecord(rec.values[t := Count(1)], rec.keys + [t])
  }

  /** The tag loop as written, over the tags in the order the nested `forEach` visits them. */
  function TagCountAsWritten(tags: seq<string>): (r: TagRecord)
    ensures forall u :: u in r.values ==> u in tags
    ensures |r.keys| <= |tags|
  {
    if tags == [] then TagRecord(map[], [])
    else BumpAsWritten(TagCountAsWritten(tags[..|tags| - 1]), tags[|tags| - 1])
  }

  /** A pitch tagged "constructor" gets no count at all: its value is a string, not 1. */
  lemma ConstructorTagIsGarbled()
    ensures TagCountAsWritten(["constructor"]).values["constructor"] == Garbled
    ensures multiset(["constructor"])["constructor"] == 1
  {
    assert ["constructor"][..0] == [];
  }

  /** A pitch tagged "__proto__" is left out of the chart although the tag was used. */
  lemma ProtoTagIsDropped()
    ensures "__proto__" !in TagCountAsWritten(["__proto__"]).keys
    ensures "__proto__" in ["__proto__"]
  {
    assert ["__proto__"][..0] == [];
  }

  /**
   * `rec` counts `tags` exactly: one property per distinct tag, created in a repeat-free order,
   * holding the number of times the tag occurs.
   */
  ghost predicate CountsExactly(rec: TagRecord, tags: seq<string>) {
    && Distinct(rec.keys)
    && (forall t :: t in rec.keys <==> t in tags)
    && (forall t :: t in rec.values <==> t in tags)
    && (forall t :: t in rec.values ==> rec.values[t] == Count(multiset(tags)[t]))
  }

  /** Away from the inherited names, the plain object counts exactly as intended. */
  lemma {:induction false} AsWrittenCountsOtherTags(tags: seq<string>)
    requires forall i :: 0 <= i < |tags| ==> tags[i] !in InheritedKeys
    ensures CountsExactly(TagCountAsWritten(tags), tags)
    decreases |tags|
  {
    if tags != [] {
      var n := |tags| - 1;
      assert tags == tags[..n] + [tags[n]];
      AsWrittenCountsOtherTags(tags[..n]);
      BumpAsWrittenCounts(TagCountAsWritten(tags[..n]), tags[..n], tags[n]);
    }
  }

  /** One more tag that is not an inherited name keeps the count exact. */
  lemma BumpAsWrittenCounts(rec: TagRecord, tags: seq<string>, t: string)
    requires CountsExactly(rec, tags) && t !in InheritedKeys
    ensures CountsExactly(BumpAsWritten(rec, t), tags + [t])
  {
    assert multiset(tags + [t]) == multiset(tags) + multiset{t};
    if t in rec.values {
      BumpSeenTag(rec, tags, t);
    } else {
      BumpNewTag(rec, tags, t);
    }
  }

  lemma BumpSeenTag(rec: TagRecord, tags: seq<string>, t: string)
    requires CountsExactly(rec, tags) && t in rec.values
    requires multiset(tags + [t]) == multiset(tags) + multiset{t}
    ensures CountsExactly(BumpAsWritten(rec, t), tags + [t])
  {
  }

  lemma BumpNewTag(rec: TagRecord, tags: seq<string>, t: string)
    requires CountsExactly(rec, tags) && t !in rec.values && t !in InheritedKeys
    requires multiset(tags + [t]) == multiset(tags) + multiset{t}
    ensures CountsExactly(BumpAsWritten(rec, t), tags + [t])
  {
    DistinctSnoc(rec.keys, t);
  }
}
