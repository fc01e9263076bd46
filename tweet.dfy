/** One post card of the feed and its like button. The card keeps
    `(isLiked, likesCount)`, computed once from the post's `likes` list,
    and changes it only after the like or unlike request has completed:
    nothing is optimistic, and a rejected request leaves both untouched. */
module Tweet {
  import opened Outcomes

  /** An entry of the post's joined `likes ( id )` list: the like row's own id. */
  datatype LikeRef = LikeRef(id: string)

  datatype Author = Author(username: string, fullName: string, avatarUrl: string)

  /** A row of the feed query: the post joined with its author, likes and comments. */
  datatype TweetRow = TweetRow(
    id: string,
    content: Text,
    mediaUrl: Option<seq<string>>,
    createdAt: string,
    author: Author,
    likes: seq<LikeRef>,
    comments: seq<string>)

  /** The store request a like click issues. */
  datatype LikeCall = InsertLike(userId: string, tweetId: string) | DeleteLike(userId: string, tweetId: string)

  /** The card's like state. */
  datatype LikeState = LikeState(isLiked: bool, likesCount: int)

  /** `tweet.likes.some(like => like.id === user?.id)`. It compares the like
      row's id, not the liker's id, with the user id; with no user the right
      side is `undefined`, which no id equals. */
  function InitiallyLiked(likes: seq<LikeRef>, user: Option<User>): (liked: bool)
    ensures liked <==> user.Some? && exists i :: 0 <= i < |likes| && likes[i].id == user.value.id
  {
    if user.None? || likes == [] then false
    else if likes[0].id == user.value.id then true
    else
      var rest := InitiallyLiked(likes[1..], user);
      assert forall i :: 1 <= i < |likes| ==> likes[i] == likes[1..][i - 1];
      rest
  }

  /** The state a card starts with. */
  function InitialState(tweet: TweetRow, user: Option<User>): LikeState {
    LikeState(InitiallyLiked(tweet.likes, user), |tweet.likes|)
  }

  /** The count shown is never negative, and a liked card shows at least one like. */
  predicate LikeInvariant(s: LikeState) {
    s.likesCount >= 0 && (s.isLiked ==> s.likesCount >= 1)
  }

  /** The request `handleLike` issues from state `s`. */
  function LikeCallFor(s: LikeState, userId: string, tweetId: string): LikeCall {
    if s.isLiked then DeleteLike(userId, tweetId) else InsertLike(userId, tweetId)
  }

  /** The state after `handleLike` with the request's outcome. With no user
      nothing happens; a rejected request is caught before either setter runs;
      a resolved request flips the flag and moves the count by one, and an
      error it returns is never looked at. */
  function AfterLike(s: LikeState, user: Option<User>, outcome: Reply<()>): (t: LikeState)
    ensures t == s <==> user.None? || outcome.Rejected?
    ensures t != s ==> t.isLiked == !s.isLiked && t.likesCount - s.likesCount == (if t.isLiked then 1 else -1)
  {
    if user.None? || outcome.Rejected? then s
    else if s.isLiked then LikeState(false, s.likesCount - 1)
    else LikeState(true, s.likesCount + 1)
  }

  lemma InitialStateFacts(tweet: TweetRow, user: Option<User>)
    ensures InitialState(tweet, user).likesCount == |tweet.likes|
    ensures InitialState(tweet, user).isLiked <==>
              user.Some? && exists i :: 0 <= i < |tweet.likes| && tweet.likes[i].id == user.value.id
    ensures user.None? ==> !InitialState(tweet, user).isLiked
    ensures LikeInvariant(InitialState(tweet, user))
  {
    if InitialState(tweet, user).isLiked {
      var i :| 0 <= i < |tweet.likes| && tweet.likes[i].id == user.value.id;
    }
  }

  /** Without a signed-in user a click changes nothing. */
  lemma NoUserNoChange(s: LikeState, outcome: Reply<()>)
    ensures AfterLike(s, None, outcome) == s
  {
  }

  /** A rejected request leaves flag and count as they were. */
  lemma RejectedNoChange(s: LikeState, user: Option<User>, e: Error)
    ensures AfterLike(s, user, Rejected(e)) == s
  {
  }

  /** A completed request on a liked card unlikes it and removes exactly one
      like; on an unliked card it likes it and adds exactly one. A returned
      error makes no difference. */
  lemma CompletedToggles(s: LikeState, u: User, data: Option<()>, error: Option<Error>)
    ensures AfterLike(s, Some(u), Resolved(data, error)).isLiked == !s.isLiked
    ensures AfterLike(s, Some(u), Resolved(data, error)).likesCount ==
              if s.isLiked then s.likesCount - 1 else s.likesCount + 1
    ensures AfterLike(s, Some(u), Resolved(data, error)) == AfterLike(s, Some(u), Resolved(None, None))
  {
  }

  /** Every click preserves the invariant, whatever its outcome. */
  lemma AfterLikeKeepsInvariant(s: LikeState, user: Option<User>, outcome: Reply<()>)
    requires LikeInvariant(s)
    ensures LikeInvariant(AfterLike(s, user, outcome))
  {
  }

  /** Two completed clicks by a user restore the original flag and count. */
  lemma TwoCompletedLikesRestore(s: LikeState, u: User, first: Reply<()>, second: Reply<()>)
    requires first.Resolved? && second.Resolved?
    ensures AfterLike(AfterLike(s, Some(u), first), Some(u), second) == s
  {
  }

  /** The like button of one card. */
  class TweetCard {
    const tweetId: string
    var isLiked: bool
    var likesCount: int

    function State(): LikeState
      reads this
    {
      LikeState(isLiked, likesCount)
    }

    ghost predicate Valid()
      reads this
    {
      LikeInvariant(State())
    }

    /** The first render: both state hooks are initialised from the post and
        the user the store holds at that moment. */
    constructor (tweet: TweetRow, user: Option<User>)
      ensures tweetId == tweet.id
      ensures State() == InitialState(tweet, user)
      ensures Valid()
    {
      tweetId := tweet.id;
      isLiked := InitiallyLiked(tweet.likes, user);
      likesCount := |tweet.likes|;
      InitialStateFacts(tweet, user);
    }

    /** `handleLike`, with the awaited store request's outcome. `user` is the
        value the store holds when the button is clicked. */
    method HandleLike(user: Option<User>, outcome: Reply<()>) returns (call: Option<LikeCall>, toast: Option<Toast>)
      requires Valid()
      modifies this
      ensures Valid()
      ensures State() == AfterLike(old(State()), user, outcome)
      ensures call == if user.None? then None else Some(LikeCallFor(old(State()), user.value.id, tweetId))
      ensures toast == if user.Some? && outcome.Rejected? then Some(ErrorToast("Failed to like echo")) else None
    {
      call, toast := None, None;
      if user.None? {
        return;
      }
      var uid := user.value.id;
      if isLiked {
        call := Some(DeleteLike(uid, tweetId));
      } else {
        call := Some(InsertLike(uid, tweetId));
      }
      if outcome.Rejected? {
        toast := Some(ErrorToast("Failed to like echo"));
        return;
      }
      if isLiked {
        likesCount := likesCount - 1;
      } else {
        likesCount := likesCount + 1;
      }
      isLiked := !isLiked;
    }
  }

  /** Two completed clicks on a card bring it back to where it started. */
  method LikeThenUnlike(card: TweetCard, u: User, first: Reply<()>, second: Reply<()>)
    requires card.Valid() && first.Resolved? && second.Resolved?
    modifies card
    ensures card.Valid() && card.State() == old(card.State())
  {
    var s0 := card.State();
    var c1, t1 := card.HandleLike(Some(u), first);
    var c2, t2 := card.HandleLike(Some(u), second);
    TwoCompletedLikesRestore(s0, u, first, second);
  }
}
