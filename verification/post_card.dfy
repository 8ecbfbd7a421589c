/**
 * A post in a feed: whether the caller has liked it, its like count, the
 * like and comment actions, and the comment panel's state. The relative time
 * under the post is `TimeFormat.FormatTime`, the same function the
 * communities page uses.
 */
module PostCard {
  import opened Common
  import opened Identity
  import opened Text
  import opened Backend
  import Queries

  /** `isLiked`: false without a caller, else whether a like has the caller's text. */
  function IsLiked(post: Post, caller: Option<Principal>): (b: bool)
    ensures b <==> caller.Some? && exists i :: 0 <= i < |post.likes| && post.likes[i].text == caller.value.text
  {
    HeldBy(post.likes, caller)
  }

  /** The number beside the heart. */
  function LikeCount(post: Post): (n: nat)
    ensures n == 0 <==> post.likes == []
  {
    |post.likes|
  }

  /**
   * Once the caller's like is reflected in the refetched feed, the heart is
   * filled and the count is one higher; which principal object stands for the
   * caller does not matter.
   */
  lemma LikeReflected(post: Post, caller: Principal, like: Principal)
    requires like.text == caller.text
    ensures IsLiked(post.(likes := post.likes + [like]), Some(caller))
    ensures LikeCount(post.(likes := post.likes + [like])) == LikeCount(post) + 1
  {
    HeldAfterAppend(post.likes, caller, like);
  }

  /** `handleLike`: a like of this post; its success refreshes both feeds. */
  function Like(post: Post): (m: Queries.Mutation)
    ensures m.LikePost? && m.postId == post.id
    ensures Queries.Refreshes(m, Queries.GlobalFeedRead) && Queries.Refreshes(m, Queries.PersonalizedFeedRead)
  {
    Queries.LikePost(post.id)
  }

  /** The comment panel of one post. */
  class Comments {
    const post: Post
    var showComments: bool
    var commentText: string

    constructor (p: Post)
      ensures post == p && !showComments && commentText == []
    {
      post := p;
      showComments := false;
      commentText := [];
    }

    /** The "Comment" button shows or hides the panel; the typed text is kept either way. */
    method Toggle()
      modifies this
      ensures showComments == !old(showComments) && commentText == old(commentText)
    {
      showComments := !showComments;
    }

    method SetText(text: string)
      modifies this
      ensures commentText == text && showComments == old(showComments)
    {
      commentText := text;
    }

    /** `handleComment`: nothing for blank text; otherwise the trimmed text on this post. */
    method HandleComment() returns (m: Option<Queries.Mutation>)
      ensures m.None? <==> Blank(commentText)
      ensures m.Some? ==> m.value == Queries.CommentOnPost(post.id, Trim(commentText))
      ensures m.Some? ==> m.value.content != [] && IsTrimmed(m.value.content)
    {
      var t := Trim(commentText);
      if t == [] {
        return None;
      }
      m := Some(Queries.CommentOnPost(post.id, t));
    }

    /** The comment's `onSuccess` clears the text; on failure nothing is called and the text stays. */
    method CommentSucceeded()
      modifies this
      ensures commentText == [] && showComments == old(showComments)
    {
      commentText := [];
    }
  }
}
