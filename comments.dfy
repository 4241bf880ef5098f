/**
 * The comment board: building a new comment record, the like toggle, and the
 * date label. The document store is a map from document id to comment; the
 * outcome of each store call is a parameter. Likes are a list of user ids
 * that the store's `arrayUnion`/`arrayRemove` updates treat as a set.
 */
module Comments {
  import opened Wrappers
  import Text

  /** The signed-in user as the identity provider describes them. */
  datatype User = User(uid: string, email: Option<string>, displayName: Option<string>)

  datatype Author = Author(name: string, email: Option<string>, uid: string)

  /**
   * A stored comment. `likes` may be absent on a document written elsewhere;
   * `createdAt` is absent until the server has assigned the timestamp.
   */
  datatype Comment = Comment(text: string, author: Author, likes: Option<seq<string>>, createdAt: Option<int>)

  /** What `addDoc` does: fail, or store the document under a fresh id at a server time. */
  datatype AddOutcome = AddFailed | Added(id: string, at: int)

  const Anonymous: string := "Anonymous"
  const JustNow: string := "Just now"

  /** No user id occurs twice. */
  predicate NoDuplicates(xs: seq<string>) {
    forall i, j :: 0 <= i < j < |xs| ==> xs[i] != xs[j]
  }

  /** `user.email?.split('@')[0]`, absent when there is no email. */
  function EmailName(email: Option<string>): (r: Option<string>)
    ensures r.Some? <==> email.Some?
    ensures r.Some? ==> '@' !in r.value && |r.value| <= |email.value| && r.value == email.value[..|r.value|]
    ensures r.Some? && |r.value| < |email.value| ==> email.value[|r.value|] == '@'
    ensures r.Some? && '@' !in email.value ==> r.value == email.value
  {
    match email
    case None => None
    case Some(e) => Some(Text.BeforeFirst(e, '@'))
  }

  /**
   * The author name of a new comment: the display name if it is non-empty,
   * else the email's local part if that is non-empty, else "Anonymous".
   */
  function AuthorName(user: User): (name: string)
    ensures name != ""
    ensures Truthy(user.displayName) ==> name == user.displayName.value
    ensures !Truthy(user.displayName) && Truthy(EmailName(user.email)) ==>
      name == EmailName(user.email).value && '@' !in name
    ensures !Truthy(user.displayName) && !Truthy(EmailName(user.email)) ==> name == Anonymous
  {
    if Truthy(user.displayName) then user.displayName.value
    else if Truthy(EmailName(user.email)) then EmailName(user.email).value
    else Anonymous
  }

  /** The record a submission writes: trimmed text, no likes, the author copied from the user. */
  function NewComment(user: User, draft: string, at: int): (c: Comment)
    ensures c.text == Text.Trim(draft)
    ensures c.likes == Some([])
    ensures c.author.uid == user.uid && c.author.email == user.email
    ensures c.author.name == AuthorName(user)
    ensures c.createdAt == Some(at)
  {
    Comment(Text.Trim(draft), Author(AuthorName(user), user.email, user.uid), Some([]), Some(at))
  }

  /** The likes list of a comment, an absent one read as empty (`comment.likes || []`). */
  function LikesOf(c: Comment): (likes: seq<string>)
    ensures c.likes.None? ==> likes == []
    ensures c.likes.Some? ==> likes == c.likes.value
  {
    c.likes.GetOr([])
  }

  /** The displayed like count, `comment.likes?.length || 0`. */
  function LikeCount(likes: Option<seq<string>>): (n: nat)
    ensures likes.None? ==> n == 0
    ensures likes.Some? ==> n == |likes.value|
  {
    match likes
    case None => 0
    case Some(l) => |l|
  }

  /** `arrayUnion(uid)` on a list: `uid` appended unless it is already there. */
  function ArrayUnion(xs: seq<string>, uid: string): (r: seq<string>)
    ensures uid in r
    ensures forall v :: v != uid ==> (v in r <==> v in xs)
    ensures uid in xs ==> r == xs
    ensures uid !in xs ==> |r| == |xs| + 1 && r[..|xs|] == xs
  {
    if uid in xs then xs else xs + [uid]
  }

  /** `arrayRemove(uid)` on a list: every occurrence of `uid` dropped, every other id kept as often as before. */
  function ArrayRemove(xs: seq<string>, uid: string): (r: seq<string>)
    ensures uid !in r
    ensures forall v :: v != uid ==> (v in r <==> v in xs)
    ensures forall v :: v != uid ==> multiset(r)[v] == multiset(xs)[v]
    ensures |r| <= |xs|
    ensures uid !in xs ==> r == xs
  {
    if xs == [] then []
    else
      assert xs == [xs[0]] + xs[1..];
      if xs[0] == uid then ArrayRemove(xs[1..], uid)
      else [xs[0]] + ArrayRemove(xs[1..], uid)
  }

  /** The toggle decision: remove the user's like if present, add it otherwise. */
  function ToggleLike(likes: seq<string>, uid: string): (r: seq<string>)
    ensures uid in r <==> uid !in likes
    ensures forall v :: v != uid ==> (v in r <==> v in likes)
  {
    ClickUpdate(likes, uid, uid in likes)
  }

  /** Removing a user from a duplicate-free list keeps it duplicate-free and shortens it by one. */
  lemma {:induction false} RemoveFromDistinct(xs: seq<string>, uid: string)
    requires NoDuplicates(xs)
    ensures NoDuplicates(ArrayRemove(xs, uid))
    ensures uid in xs ==> |ArrayRemove(xs, uid)| == |xs| - 1
  {
    if xs != [] {
      var tail := xs[1..];
      assert NoDuplicates(tail) by {
        forall i, j | 0 <= i < j < |tail| ensures tail[i] != tail[j] {
          assert tail[i] == xs[i + 1] && tail[j] == xs[j + 1];
        }
      }
      RemoveFromDistinct(tail, uid);
      if xs[0] == uid {
        assert uid !in tail by {
          forall k | 0 <= k < |tail| ensures tail[k] != uid {
            assert tail[k] == xs[k + 1];
          }
        }
      } else {
        var rest := ArrayRemove(tail, uid);
        assert xs[0] !in rest by {
          forall k | 0 <= k < |tail| ensures tail[k] != xs[0] {
            assert tail[k] == xs[k + 1];
          }
        }
        assert uid in xs ==> uid in tail;
        var r := [xs[0]] + rest;
        forall i, j | 0 <= i < j < |r| ensures r[i] != r[j] {
          if i == 0 {
            assert r[j] == rest[j - 1];
          } else {
            assert r[i] == rest[i - 1] && r[j] == rest[j - 1];
          }
        }
      }
    }
  }

  /** Adding a user to a duplicate-free list keeps it duplicate-free. */
  lemma AddToDistinct(xs: seq<string>, uid: string)
    requires NoDuplicates(xs)
    ensures NoDuplicates(ArrayUnion(xs, uid))
  {
  }

  /**
   * On a duplicate-free list the toggle keeps the list duplicate-free and
   * changes the like count by exactly one.
   */
  lemma ToggleOnDistinct(likes: seq<string>, uid: string)
    requires NoDuplicates(likes)
    ensures NoDuplicates(ToggleLike(likes, uid))
    ensures |ToggleLike(likes, uid)| == if uid in likes then |likes| - 1 else |likes| + 1
  {
    UpdatesKeepDistinct(likes, uid);
    RemoveFromDistinct(likes, uid);
  }

  /** Toggling twice restores the set of users who like the comment. */
  lemma ToggleTwice(likes: seq<string>, uid: string)
    ensures forall v :: v in ToggleLike(ToggleLike(likes, uid), uid) <==> v in likes
  {
  }

  /** The date label: "Just now" while the timestamp is absent, the localized date otherwise. */
  function FormatDate(createdAt: Option<int>, localized: int -> string): (shown: string)
    ensures createdAt.None? ==> shown == JustNow
    ensures createdAt.Some? ==> shown == localized(createdAt.value)
  {
    match createdAt
    case None => JustNow
    case Some(t) => localized(t)
  }

  /** Every likes list in the store is duplicate-free. */
  ghost predicate DistinctLikes(store: map<string, Comment>) {
    forall id :: id in store && store[id].likes.Some? ==> NoDuplicates(store[id].likes.value)
  }

  /** Replacing one document's likes with a duplicate-free list keeps the whole store duplicate-free. */
  lemma SetLikesKeepsDistinct(store: map<string, Comment>, id: string, likes: seq<string>)
    requires DistinctLikes(store) && id in store && NoDuplicates(likes)
    ensures DistinctLikes(store[id := store[id].(likes := Some(likes))])
  {
  }

  /** Both store updates keep a duplicate-free list duplicate-free. */
  lemma UpdatesKeepDistinct(xs: seq<string>, uid: string)
    ensures NoDuplicates(xs) ==> NoDuplicates(ArrayRemove(xs, uid)) && NoDuplicates(ArrayUnion(xs, uid))
  {
    if NoDuplicates(xs) {
      RemoveFromDistinct(xs, uid);
      AddToDistinct(xs, uid);
    }
  }

  /** The stored list after a click: remove when the rendered likes held the uid, add otherwise. */
  function ClickUpdate(stored: seq<string>, uid: string, renderedLiked: bool): (r: seq<string>)
    ensures renderedLiked ==> uid !in r
    ensures !renderedLiked ==> uid in r
    ensures forall v :: v != uid ==> (v in r <==> v in stored)
    ensures NoDuplicates(stored) ==> NoDuplicates(r)
  {
    UpdatesKeepDistinct(stored, uid);
    if renderedLiked then ArrayRemove(stored, uid) else ArrayUnion(stored, uid)
  }

  class Section {
    const user: Option<User>
    var newComment: string
    var loading: bool
    var store: map<string, Comment>

    /** Every stored likes list is duplicate-free. */
    ghost predicate Valid()
      reads this
    {
      DistinctLikes(store)
    }

    constructor (user: Option<User>, store: map<string, Comment>)
      requires DistinctLikes(store)
      ensures Valid()
      ensures this.user == user && this.store == store && newComment == "" && !loading
    {
      this.user := user;
      this.store := store;
      newComment := "";
      loading := false;
    }

    /** The text area's change handler. */
    method SetDraft(text: string)
      requires Valid()
      modifies this`newComment
      ensures Valid() && newComment == text
    {
      newComment := text;
    }

    /** The submit handler; `outcome` is what the store's `addDoc` does. */
    method SubmitComment(outcome: AddOutcome)
      requires Valid()
      requires outcome.Added? ==> outcome.id !in store
      modifies this`newComment, this`loading, this`store
      ensures Valid()
      ensures user.None? || Text.Trim(old(newComment)) == [] ==>
        newComment == old(newComment) && loading == old(loading) && store == old(store)
      ensures user.Some? && Text.Trim(old(newComment)) != [] ==>
        && !loading
        && (outcome.AddFailed? ==> newComment == old(newComment) && store == old(store))
        && (outcome.Added? ==>
              && newComment == ""
              && store == old(store)[outcome.id := NewComment(user.value, old(newComment), outcome.at)])
    {
      if user.None? || Text.Trim(newComment) == [] {
        return;
      }
      loading := true;
      if outcome.Added? {
        store := store[outcome.id := NewComment(user.value, newComment, outcome.at)];
        newComment := "";
      }
      loading := false;
    }

    /**
     * The like handler. `currentLikes` is the list the button was rendered
     * with, which decides between removing and adding; the store applies the
     * update to its own list. `written` says whether `updateDoc` succeeds (it
     * fails on a missing document).
     */
    method Like(commentId: string, currentLikes: seq<string>, written: bool)
      requires Valid()
      modifies this`store
      ensures Valid()
      ensures user.None? || !written || commentId !in old(store) ==> store == old(store)
      ensures user.Some? && written && commentId in old(store) ==>
        var uid := user.value.uid;
        var stored := LikesOf(old(store)[commentId]);
        store == old(store)[commentId := old(store)[commentId].(likes := Some(
          ClickUpdate(stored, uid, uid in currentLikes)))]
    {
      if user.None? {
        return;
      }
      var uid := user.value.uid;
      var userHasLiked := uid in currentLikes;
      if written && commentId in store {
        var stored := LikesOf(store[commentId]);
        var updated := ClickUpdate(stored, uid, userHasLiked);
        SetLikesKeepsDistinct(store, commentId, updated);
        store := store[commentId := store[commentId].(likes := Some(updated))];
      }
    }
  }

  /**
   * When the rendered list matches the stored one, a like click is exactly
   * the toggle: the user's membership flips and the count moves by one.
   */
  lemma LikeClickToggles(c: Comment, uid: string)
    requires c.likes.Some? ==> NoDuplicates(c.likes.value)
    ensures
      var likes := LikesOf(c);
      var updated := ClickUpdate(likes, uid, uid in likes);
      && updated == ToggleLike(likes, uid)
      && (uid in updated <==> uid !in likes)
      && LikeCount(Some(updated)) == if uid in likes then LikeCount(c.likes) - 1 else LikeCount(c.likes) + 1
  {
    ToggleOnDistinct(LikesOf(c), uid);
  }
}
