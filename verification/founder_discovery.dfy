/**
 * The "discover founders" strip (src/components/FounderDiscovery.tsx): every other user's
 * profile with the number of pitches they posted and the likes those pitches collected, the
 * ten most liked first.
 */
module FounderDiscovery {
  import opened Optional
  import opened JsArray

  /** A row of the profiles query. */
  datatype ProfileRow = ProfileRow(
    userId: string, fullName: string,
    startupName: Option<string>, bio: Option<string>, avatarUrl: Option<string>)

  /** A row of the pitches query: whose pitch it is and its like counter. */
  datatype PitchRow = PitchRow(userId: string, likesCount: int)

  /** An entry of `statsMap`. */
  datatype Stats = Stats(count: nat, likes: int)

  /** A profile as shown: the profile's fields and the two statistics. */
  datatype FounderProfile = FounderProfile(profile: ProfileRow, pitchCount: int, totalLikes: int)

  const ShownFounders := 10

  /** How many of the pitch rows are `u`'s. */
  function PitchCount(rows: seq<PitchRow>, u: string): (r: nat)
    ensures r <= |rows|
  {
    if rows == [] then 0
    else PitchCount(rows[..|rows| - 1], u) + (if rows[|rows| - 1].userId == u then 1 else 0)
  }

  /** The likes over `u`'s pitch rows. */
  function LikesSum(rows: seq<PitchRow>, u: string): (r: int)
    ensures (forall i :: 0 <= i < |rows| ==> rows[i].likesCount >= 0) ==> r >= 0
  {
    if rows == [] then 0
    else LikesSum(rows[..|rows| - 1], u) + (if rows[|rows| - 1].userId == u then rows[|rows| - 1].likesCount else 0)
  }

  /** A user without pitch rows has no likes from them either. */
  lemma {:induction false} NoPitchesNoLikes(rows: seq<PitchRow>, u: string)
    requires PitchCount(rows, u) == 0
    ensures LikesSum(rows, u) == 0
    decreases |rows|
  {
    if rows != [] {
      NoPitchesNoLikes(rows[..|rows| - 1], u);
    }
  }

  /**
   * The `forEach` that fills `statsMap`: one entry per user with at least one pitch, holding
   * that user's pitch count and like total.
   */
  method BuildStats(rows: seq<PitchRow>) returns (stats: map<string, Stats>)
    ensures forall u :: u in stats <==> PitchCount(rows, u) > 0
    ensures forall u :: u in stats ==> stats[u] == Stats(PitchCount(rows, u), LikesSum(rows, u))
  {
    stats := map[];
    var i := 0;
    while i < |rows|
      invariant 0 <= i <= |rows|
      invariant forall u :: u in stats <==> PitchCount(rows[..i], u) > 0
      invariant forall u :: u in stats ==> stats[u] == Stats(PitchCount(rows[..i], u), LikesSum(rows[..i], u))
    {
      var p := rows[i];
      assert rows[..i + 1][..i] == rows[..i];
      var existing := if p.userId in stats then stats[p.userId] else Stats(0, 0);
      if p.userId !in stats {
        NoPitchesNoLikes(rows[..i], p.userId);
      }
      stats := stats[p.userId := Stats(existing.count + 1, existing.likes + p.likesCount)];
      i := i + 1;
    }
    assert rows[..i] == rows;
  }

  /** `statsMap.get(user_id)?.count || 0` and `statsMap.get(user_id)?.likes || 0`. */
  function WithStats(p: ProfileRow, stats: map<string, Stats>): (r: FounderProfile)
    ensures r.profile == p
    ensures p.userId in stats ==> r.pitchCount == stats[p.userId].count && r.totalLikes == stats[p.userId].likes
    ensures p.userId !in stats ==> r.pitchCount == 0 && r.totalLikes == 0
  {
    var count := if p.userId in stats && stats[p.userId].count != 0 then stats[p.userId].count else 0;
    var likes := if p.userId in stats && stats[p.userId].likes != 0 then stats[p.userId].likes else 0;
    FounderProfile(p, count, likes)
  }

  /** The `|| 0` fallbacks give exactly the pitch count and like total of the profile's user. */
  lemma WithStatsCounts(p: ProfileRow, rows: seq<PitchRow>, stats: map<string, Stats>)
    requires forall u :: u in stats <==> PitchCount(rows, u) > 0
    requires forall u :: u in stats ==> stats[u] == Stats(PitchCount(rows, u), LikesSum(rows, u))
    ensures WithStats(p, stats) == FounderProfile(p, PitchCount(rows, p.userId), LikesSum(rows, p.userId))
  {
    if p.userId !in stats {
      NoPitchesNoLikes(rows, p.userId);
    }
  }

  /** `user_id !== user?.id`: without a signed-in user every profile passes. */
  function NotMe(me: Option<string>): ProfileRow -> bool {
    (p: ProfileRow) => me.None? || p.userId != me.value
  }

  /** A profile with the pitch count and like total of its user. */
  function FounderOf(p: ProfileRow, rows: seq<PitchRow>): FounderProfile {
    FounderProfile(p, PitchCount(rows, p.userId), LikesSum(rows, p.userId))
  }

  /** `.filter(...).map(...)`: the other users' profiles, each with its statistics. */
  function Enrich(profiles: seq<ProfileRow>, me: Option<string>, rows: seq<PitchRow>): (r: seq<FounderProfile>)
    ensures |r| == |Filter(profiles, NotMe(me))|
    ensures forall i :: 0 <= i < |r| ==> r[i] == FounderOf(Filter(profiles, NotMe(me))[i], rows)
  {
    var others := Filter(profiles, NotMe(me));
    seq(|others|, i requires 0 <= i < |others| => FounderOf(others[i], rows))
  }

  /** Non-increasing by like total. */
  predicate SortedByLikes(xs: seq<FounderProfile>) {
    forall i, j :: 0 <= i < j < |xs| ==> xs[i].totalLikes >= xs[j].totalLikes
  }

  /**
   * One step of the stable sort: `x` goes after every entry with at least as many likes,
   * so it lands after the entries it ties with.
   */
  function Insert(sorted: seq<FounderProfile>, x: FounderProfile): (r: seq<FounderProfile>)
    ensures |r| == |sorted| + 1
    ensures multiset(r) == multiset(sorted) + multiset{x}
  {
    if sorted == [] then [x]
    else if sorted[0].totalLikes >= x.totalLikes then
      assert sorted == [sorted[0]] + sorted[1..];
      [sorted[0]] + Insert(sorted[1..], x)
    else
      [x] + sorted
  }

  lemma {:induction false} InsertSorted(sorted: seq<FounderProfile>, x: FounderProfile)
    requires SortedByLikes(sorted)
    ensures SortedByLikes(Insert(sorted, x))
    decreases |sorted|
  {
    if sorted == [] {
    } else if sorted[0].totalLikes >= x.totalLikes {
      SortedTail(sorted);
      InsertSorted(sorted[1..], x);
      InsertBelowHead(sorted, x);
      InsertHead(sorted, x);
      ConsSorted(sorted[0], Insert(sorted[1..], x));
    } else {
      ConsSorted(x, sorted);
    }
  }

  /** An entry with at least as many likes as every entry of a sorted list can go in front. */
  lemma ConsSorted(h: FounderProfile, rest: seq<FounderProfile>)
    requires SortedByLikes(rest)
    requires forall i :: 0 <= i < |rest| ==> h.totalLikes >= rest[i].totalLikes
    ensures SortedByLikes([h] + rest)
  {
    var r := [h] + rest;
    forall i, j | 0 <= i < j < |r|
      ensures r[i].totalLikes >= r[j].totalLikes
    {
      if i == 0 {
        assert r[j] == rest[j - 1];
      } else {
        assert r[i] == rest[i - 1] && r[j] == rest[j - 1];
      }
    }
  }

  /** Inserting behind the head of a sorted list yields entries the head is not below. */
  lemma InsertBelowHead(sorted: seq<FounderProfile>, x: FounderProfile)
    requires SortedByLikes(sorted) && sorted != [] && sorted[0].totalLikes >= x.totalLikes
    ensures forall i :: 0 <= i < |Insert(sorted[1..], x)| ==>
      sorted[0].totalLikes >= Insert(sorted[1..], x)[i].totalLikes
  {
    var rest := Insert(sorted[1..], x);
    forall i | 0 <= i < |rest|
      ensures sorted[0].totalLikes >= rest[i].totalLikes
    {
      assert rest[i] in multiset(rest);
      assert rest[i] in sorted[1..] || rest[i] == x;
    }
  }

  /**
   * `.sort((a, b) => b.total_likes - a.total_likes)`: a stable sort, most likes first. The
   * sort is stable in every current JavaScript engine, as the language has required since
   * ECMAScript 2019.
   */
  function SortByLikes(xs: seq<FounderProfile>): (r: seq<FounderProfile>)
    ensures |r| == |xs|
    ensures multiset(r) == multiset(xs)
    ensures SortedByLikes(r)
  {
    if xs == [] then []
    else
      var n := |xs| - 1;
      assert xs == xs[..n] + [xs[n]];
      var sorted := SortByLikes(xs[..n]);
      InsertSorted(sorted, xs[n]);
      Insert(sorted, xs[n])
  }

  /** The entries with exactly `v` likes. */
  function LikesIs(v: int): FounderProfile -> bool {
    (e: FounderProfile) => e.totalLikes == v
  }

  /** Inserting `x` keeps the entries tying with it in order and puts `x` after them. */
  lemma {:induction false} InsertKeepsTies(sorted: seq<FounderProfile>, x: FounderProfile, v: int)
    requires SortedByLikes(sorted)
    ensures Filter(Insert(sorted, x), LikesIs(v)) == Filter(sorted, LikesIs(v)) + Filter([x], LikesIs(v))
    decreases |sorted|
  {
    var keep := LikesIs(v);
    if sorted == [] {
      assert Insert(sorted, x) == [x];
    } else if sorted[0].totalLikes >= x.totalLikes {
      InsertBehind(sorted, x, v);
    } else {
      InsertInFront(sorted, x, v);
    }
  }

  /** `x` goes after the first entry: the filter splits off that entry and recurses. */
  lemma {:induction false} InsertBehind(sorted: seq<FounderProfile>, x: FounderProfile, v: int)
    requires SortedByLikes(sorted) && sorted != [] && sorted[0].totalLikes >= x.totalLikes
    ensures Filter(Insert(sorted, x), LikesIs(v)) == Filter(sorted, LikesIs(v)) + Filter([x], LikesIs(v))
    decreases |sorted|, 0
  {
    var keep := LikesIs(v);
    InsertHead(sorted, x);
    SortedTail(sorted);
    InsertKeepsTies(sorted[1..], x, v);
    FilterAppend([sorted[0]], Insert(sorted[1..], x), keep);
    FilterCons(sorted, keep);
    ConcatAssoc(Filter([sorted[0]], keep), Filter(sorted[1..], keep), Filter([x], keep));
  }

  lemma InsertHead(sorted: seq<FounderProfile>, x: FounderProfile)
    requires sorted != [] && sorted[0].totalLikes >= x.totalLikes
    ensures Insert(sorted, x) == [sorted[0]] + Insert(sorted[1..], x)
  {
  }

  lemma SortedTail(sorted: seq<FounderProfile>)
    requires SortedByLikes(sorted) && sorted != []
    ensures SortedByLikes(sorted[1..])
  {
  }

  /** A sorted list headed by fewer than `v` likes has no entry with `v` likes. */
  lemma NoTiesBelow(sorted: seq<FounderProfile>, v: int)
    requires SortedByLikes(sorted) && sorted != [] && sorted[0].totalLikes < v
    ensures Filter(sorted, LikesIs(v)) == []
  {
    forall i | 0 <= i < |sorted|
      ensures !LikesIs(v)(sorted[i])
    {
      assert sorted[i].totalLikes <= sorted[0].totalLikes;
    }
    FilterKeepsNone(sorted, LikesIs(v));
  }

  /** An entry with more likes than every sorted entry goes in front and ties with none of them. */
  lemma InsertInFront(sorted: seq<FounderProfile>, x: FounderProfile, v: int)
    requires SortedByLikes(sorted) && sorted != [] && sorted[0].totalLikes < x.totalLikes
    ensures Filter(Insert(sorted, x), LikesIs(v)) == Filter(sorted, LikesIs(v)) + Filter([x], LikesIs(v))
  {
    var keep := LikesIs(v);
    assert Insert(sorted, x) == [x] + sorted;
    FilterAppend([x], sorted, keep);
    if x.totalLikes == v {
      NoTiesBelow(sorted, v);
    } else {
      assert Filter([x], keep) == [] + Filter([], keep);
    }
  }

  lemma SortStep(xs: seq<FounderProfile>)
    requires xs != []
    ensures SortByLikes(xs) == Insert(SortByLikes(xs[..|xs| - 1]), xs[|xs| - 1])
  {
  }

  /**
   * Stability: for every like total, the entries with that total come out of the sort in the
   * order they went in.
   */
  lemma {:induction false} SortKeepsTieOrder(xs: seq<FounderProfile>, v: int)
    ensures Filter(SortByLikes(xs), LikesIs(v)) == Filter(xs, LikesIs(v))
    decreases |xs|
  {
    var keep := LikesIs(v);
    if xs != [] {
      var n := |xs| - 1;
      var init, last := xs[..n], xs[n];
      assert init + [last] == xs;
      FilterAppend(init, [last], keep);
      SortKeepsTieOrder(init, v);
      SortStep(xs);
      InsertKeepsTies(SortByLikes(init), last, v);
    }
  }

  /** The whole chain: filter, enrich, sort by likes, keep the first ten. */
  function Ranked(profiles: seq<ProfileRow>, me: Option<string>, rows: seq<PitchRow>): (r: seq<FounderProfile>)
    ensures |r| == if |Filter(profiles, NotMe(me))| < ShownFounders then |Filter(profiles, NotMe(me))| else ShownFounders
    ensures SortedByLikes(r)
    ensures forall i :: 0 <= i < |r| ==>
      && r[i].profile in profiles
      && NotMe(me)(r[i].profile)
      && r[i] == FounderOf(r[i].profile, rows)
  {
    var sorted := SortByLikes(Enrich(profiles, me, rows));
    var r := Prefix(sorted, ShownFounders);
    PrefixSorted(sorted, ShownFounders);
    ShownAreEnriched(profiles, me, rows, r);
    r
  }

  lemma PrefixSorted(sorted: seq<FounderProfile>, n: nat)
    requires SortedByLikes(sorted)
    ensures SortedByLikes(Prefix(sorted, n))
  {
  }

  /** What the ranking shows are enriched entries of other users. */
  lemma ShownAreEnriched(profiles: seq<ProfileRow>, me: Option<string>, rows: seq<PitchRow>, r: seq<FounderProfile>)
    requires r == Prefix(SortByLikes(Enrich(profiles, me, rows)), ShownFounders)
    ensures forall i :: 0 <= i < |r| ==>
      && r[i].profile in profiles
      && NotMe(me)(r[i].profile)
      && r[i] == FounderOf(r[i].profile, rows)
  {
    var sorted := SortByLikes(Enrich(profiles, me, rows));
    forall i | 0 <= i < |r|
      ensures r[i].profile in profiles && NotMe(me)(r[i].profile) && r[i] == FounderOf(r[i].profile, rows)
    {
      assert r[i] == sorted[i];
      assert r[i] in multiset(sorted);
      EnrichedEntry(profiles, me, rows, r[i]);
    }
  }

  /** Every enriched entry is another user's profile with that profile's own statistics. */
  lemma EnrichedEntry(profiles: seq<ProfileRow>, me: Option<string>, rows: seq<PitchRow>, f: FounderProfile)
    requires f in multiset(Enrich(profiles, me, rows))
    ensures f.profile in profiles && NotMe(me)(f.profile) && f == FounderOf(f.profile, rows)
  {
    var e := Enrich(profiles, me, rows);
    var others := Filter(profiles, NotMe(me));
    assert f in e;
    var k :| 0 <= k < |e| && e[k] == f;
    assert others[k] in others;
  }

  /**
   * Nobody left out outranks anybody shown: every other user's profile that did not make the
   * cut has at most as many likes as each one shown.
   */
  lemma LeftOutRankLower(profiles: seq<ProfileRow>, me: Option<string>, rows: seq<PitchRow>, p: ProfileRow)
    requires p in profiles && NotMe(me)(p)
    requires FounderOf(p, rows) !in Ranked(profiles, me, rows)
    ensures forall i :: 0 <= i < |Ranked(profiles, me, rows)| ==>
      LikesSum(rows, p.userId) <= Ranked(profiles, me, rows)[i].totalLikes
  {
    var e := Enrich(profiles, me, rows);
    var sorted := SortByLikes(e);
    var r := Ranked(profiles, me, rows);
    var others := Filter(profiles, NotMe(me));
    var k :| 0 <= k < |others| && others[k] == p;
    assert e[k] == FounderOf(p, rows);
    assert FounderOf(p, rows) in multiset(sorted);
    var j :| 0 <= j < |sorted| && sorted[j] == FounderOf(p, rows);
    assert r == sorted[..|r|];
    assert forall i :: 0 <= i < |r| ==> r[i] == sorted[i];
    assert |r| <= j;
  }

  /** Every other user's profile is shown when there are at most ten of them. */
  lemma FewProfilesAllShown(profiles: seq<ProfileRow>, me: Option<string>, rows: seq<PitchRow>)
    requires |Filter(profiles, NotMe(me))| <= ShownFounders
    ensures multiset(Ranked(profiles, me, rows)) == multiset(Enrich(profiles, me, rows))
  {
    var sorted := SortByLikes(Enrich(profiles, me, rows));
    RankedIsPrefix(profiles, me, rows);
    PrefixOfShort(sorted, ShownFounders);
  }

  lemma RankedIsPrefix(profiles: seq<ProfileRow>, me: Option<string>, rows: seq<PitchRow>)
    ensures Ranked(profiles, me, rows) == Prefix(SortByLikes(Enrich(profiles, me, rows)), ShownFounders)
  {
  }

  /**
   * `fetchFounders`, with the two query results as inputs. Without profiles it stops and
   * shows nothing new; a missing pitch list counts as empty.
   */
  method FetchFounders(profiles: Option<seq<ProfileRow>>, pitches: Option<seq<PitchRow>>, me: Option<string>)
    returns (shown: Option<seq<FounderProfile>>)
    ensures profiles.None? ==> shown.None?
    ensures profiles.Some? ==> shown == Some(Ranked(profiles.value, me, pitches.GetOr([])))
  {
    if profiles.None? {
      return None;
    }
    var rows := pitches.GetOr([]);
    var stats := BuildStats(rows);
    var others := Filter(profiles.value, NotMe(me));
    var enriched := seq(|others|, i requires 0 <= i < |others| => WithStats(others[i], stats));
    forall i | 0 <= i < |others|
      ensures enriched[i] == FounderOf(others[i], rows)
    {
      WithStatsCounts(others[i], rows, stats);
    }
    assert enriched == Enrich(profiles.value, me, rows);
    shown := Some(Prefix(SortByLikes(enriched), ShownFounders));
  }
}
