/**
 * The home feed (src/pages/HomePage.tsx): the trending strip, the search filter over title
 * and description, and the like toggle with the count it displays.
 */
module HomePage {
  import opened JsString
  import opened JsArray
  import opened ToggleSet

  /** A pitch post of the static feed; an absent `trending` flag is `false`. */
  datatype PitchPost = PitchPost(
    id: string, founderId: string, title: string, description: string,
    tags: seq<string>, likes: int, comments: int, trending: bool, createdAt: string)

  /** The search test: the lower-cased title or description contains the lower-cased search. */
  predicate Matches(p: PitchPost, search: string)
    ensures search == "" ==> Matches(p, search)
  {
    Includes(Lower(p.title), Lower(search)) || Includes(Lower(p.description), Lower(search))
  }

  /** `trending`: the trending posts, in feed order. */
  function Trending(posts: seq<PitchPost>): (r: seq<PitchPost>)
    ensures forall p :: p in r <==> p in posts && p.trending
  {
    Filter(posts, (p: PitchPost) => p.trending)
  }

  /** `filtered`: the posts matching the search, in feed order. */
  function Filtered(posts: seq<PitchPost>, search: string): (r: seq<PitchPost>)
    ensures forall p :: p in r <==> p in posts && Matches(p, search)
  {
    Filter(posts, (p: PitchPost) => Matches(p, search))
  }

  /**
   * Both lists keep feed order: filtering a feed split in two is filtering each part.
   */
  lemma FilteredAppend(a: seq<PitchPost>, b: seq<PitchPost>, search: string)
    ensures Filtered(a + b, search) == Filtered(a, search) + Filtered(b, search)
    ensures Trending(a + b) == Trending(a) + Trending(b)
  {
    FilterAppend(a, b, (p: PitchPost) => Matches(p, search));
    FilterAppend(a, b, (p: PitchPost) => p.trending);
  }

  lemma IncludesEmpty(s: string)
    ensures Includes(s, "")
  {
  }

  /** An empty search keeps every post, in order. */
  lemma EmptySearchKeepsAll(posts: seq<PitchPost>)
    ensures Filtered(posts, "") == posts
  {
    forall i | 0 <= i < |posts|
      ensures Matches(posts[i], "")
    {
      IncludesEmpty(Lower(posts[i].title));
    }
    FilterKeepsAll(posts, (p: PitchPost) => Matches(p, ""));
  }

  /** The trending section is shown only while the search box is empty. */
  predicate ShowTrending(search: string)
    ensures ShowTrending(search) ==> forall p :: Matches(p, search)
  {
    search == ""
  }

  /** The count next to the heart: one more than the post's likes once the user liked it. */
  function DisplayedLikes(p: PitchPost, liked: set<string>): (r: int)
    ensures p.id in liked ==> r == p.likes + 1
    ensures p.id !in liked ==> r == p.likes
  {
    p.likes + (if p.id in liked then 1 else 0)
  }

  /**
   * `toggleLike`: the liked post's count moves by exactly one, down when it was liked and up
   * when it was not, and every other post keeps its count.
   */
  lemma ToggleLikeMovesOneCount(liked: set<string>, p: PitchPost, q: PitchPost)
    ensures DisplayedLikes(p, Toggle(liked, p.id))
            == DisplayedLikes(p, liked) + (if p.id in liked then -1 else 1)
    ensures q.id != p.id ==> DisplayedLikes(q, Toggle(liked, p.id)) == DisplayedLikes(q, liked)
  {
  }
}
