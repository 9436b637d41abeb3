/**
 * The comments panel of a pitch (src/components/CommentsSheet.tsx): the comments with their
 * authors' names joined in, and the box for adding one.
 */
module CommentsSheet {
  import opened Optional
  import opened JsString
  import opened JsArray
  import Initials

  /** A row of the comments query. */
  datatype CommentRow = CommentRow(id: string, content: string, createdAt: string, userId: string)

  /** A row of the profiles query. */
  datatype AuthorProfile = AuthorProfile(userId: string, fullName: string)

  /** A comment as listed: the row and its author's profile, when one was found. */
  datatype Comment = Comment(row: CommentRow, profile: Option<AuthorProfile>)

  /** `[...new Set(data.map(c => c.user_id))]`: each author once, in order of first comment. */
  function DistinctAuthors(rows: seq<CommentRow>): (r: seq<string>)
    ensures Distinct(r)
    ensures forall u :: u in r <==> exists i :: 0 <= i < |rows| && rows[i].userId == u
  {
    if rows == [] then []
    else
      var n := |rows| - 1;
      var prior := DistinctAuthors(rows[..n]);
      assert forall i :: 0 <= i < n ==> rows[..n][i] == rows[i];
      if rows[n].userId in prior then prior
      else
        var r := prior + [rows[n].userId];
        assert forall i :: 0 <= i < |prior| ==> r[i] == prior[i];
        r
  }

  /** `new Map(profiles.map(p => [p.user_id, p]))`: by user id, a later row replacing an earlier one. */
  function ProfileIndex(profiles: seq<AuthorProfile>): (m: map<string, AuthorProfile>)
    ensures forall u :: u in m <==> exists i :: 0 <= i < |profiles| && profiles[i].userId == u
    ensures forall u :: u in m ==> m[u].userId == u && m[u] in profiles
  {
    if profiles == [] then map[]
    else
      var n := |profiles| - 1;
      var m := ProfileIndex(profiles[..n]);
      assert forall i :: 0 <= i < n ==> profiles[..n][i] == profiles[i];
      m[profiles[n].userId := profiles[n]]
  }

  /** When a user has several profile rows, the last one is the one kept. */
  lemma {:induction false} LastProfileWins(profiles: seq<AuthorProfile>, i: nat)
    requires i < |profiles|
    requires forall j :: i < j < |profiles| ==> profiles[j].userId != profiles[i].userId
    ensures ProfileIndex(profiles)[profiles[i].userId] == profiles[i]
    decreases |profiles|
  {
    var n := |profiles| - 1;
    var init := profiles[..n];
    assert ProfileIndex(profiles) == ProfileIndex(init)[profiles[n].userId := profiles[n]];
    if i < n {
      assert init[i] == profiles[i];
      assert forall j :: i < j < |init| ==> init[j] == profiles[j];
      LastProfileWins(init, i);
    }
  }

  /** `data.map(c => ({ ...c, profile: profileMap.get(c.user_id) }))`. */
  function JoinProfiles(rows: seq<CommentRow>, profiles: seq<AuthorProfile>): (r: seq<Comment>)
    ensures |r| == |rows|
    ensures forall i :: 0 <= i < |r| ==> r[i].row == rows[i]
    ensures forall i :: 0 <= i < |r| ==>
      (r[i].profile.Some? <==> exists k :: 0 <= k < |profiles| && profiles[k].userId == rows[i].userId)
    ensures forall i :: 0 <= i < |r| && r[i].profile.Some? ==>
      r[i].profile.value.userId == rows[i].userId && r[i].profile.value in profiles
  {
    var index := ProfileIndex(profiles);
    seq(|rows|, i requires 0 <= i < |rows| =>
      Comment(rows[i], if rows[i].userId in index then Some(index[rows[i].userId]) else None))
  }

  /**
   * `fetchComments`, with the two query results as inputs: nothing changes without comment
   * rows, and a missing profile list joins no names.
   */
  function FetchComments(data: Option<seq<CommentRow>>, profiles: Option<seq<AuthorProfile>>): (r: Option<seq<Comment>>)
    ensures r.None? <==> data.None?
    ensures r.Some? ==> r.value == JoinProfiles(data.value, profiles.GetOr([]))
  {
    if data.None? then None else Some(JoinProfiles(data.value, profiles.GetOr([])))
  }

  /** What a listed comment shows in its avatar. */
  function AvatarText(c: Comment): (r: string)
    ensures c.profile.None? || c.profile.value.fullName == "" ==> r == "?"
    ensures c.profile.Some? && c.profile.value.fullName != "" ==> r == Initials.GetInitials(c.profile.value.fullName)
  {
    Initials.InitialsOrPlaceholder(if c.profile.Some? then Some(c.profile.value.fullName) else None)
  }

  /** A call `addComment` makes, or the notice it shows. */
  datatype Effect =
    | InsertComment(pitchId: string, userId: string, content: string)
    | IncrementComments(pitchId: string)
    | Refetch
    | FailedToAdd

  class CommentBox {
    var newComment: string
    var loading: bool

    constructor ()
      ensures newComment == "" && !loading
    {
      newComment, loading := "", false;
    }

    /**
     * `addComment`, with `fails` standing for the insert's answer. Nothing happens for blank
     * text or without a user. Otherwise the trimmed text is inserted; a failed insert shows a
     * notice and keeps the text; a successful one asks for the counter to be bumped, clears the
     * box and refetches. Loading is over either way.
     */
    method AddComment(user: Option<string>, pitchId: string, fails: bool) returns (effects: seq<Effect>)
      modifies this
      ensures Trim(old(newComment)) == "" || user.None? ==>
        effects == [] && newComment == old(newComment) && loading == old(loading)
      ensures Trim(old(newComment)) != "" && user.Some? ==>
        var insert := InsertComment(pitchId, user.value, Trim(old(newComment)));
        && !loading
        && (fails ==> effects == [insert, FailedToAdd] && newComment == old(newComment))
        && (!fails ==> effects == [insert, IncrementComments(pitchId), Refetch] && newComment == "")
    {
      if Trim(newComment) == "" || user.None? {
        return [];
      }
      loading := true;
      effects := [InsertComment(pitchId, user.value, Trim(newComment))];
      if fails {
        effects := effects + [FailedToAdd];
      } else {
        effects := effects + [IncrementComments(pitchId)];
        newComment := "";
        effects := effects + [Refetch];
      }
      loading := false;
    }
  }
}
