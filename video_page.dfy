/** The watch page's own state machines: the like/dislike buttons, the local
    comment list with its draft, and the subscription wiring. Durations are
    rendered by `Helpers.FormatDuration`; the page's local copy of that
    function is the same text. */
module VideoPage {
  import opened Common
  import opened Text

  /** A comment as the page keeps it in local state. */
  datatype LocalComment = LocalComment(id: nat, user: string, avatar: string, comment: string, likes: nat, time: string)

  /** The three placeholder comments the page starts with. */
  function MockComments(): (r: seq<LocalComment>)
    ensures |r| == 3 && forall i :: 0 <= i < 3 ==> r[i].id == i + 1
  {
    [ LocalComment(1, "John Developer", "https://api.dicebear.com/7.x/avataaars/svg?seed=John",
        "This is exactly what I needed! The explanations are crystal clear.", 245, "2 days ago"),
      LocalComment(2, "Sarah Chen", "https://api.dicebear.com/7.x/avataaars/svg?seed=Sarah",
        "Best React tutorial I've watched. Thanks for making this!", 189, "1 day ago"),
      LocalComment(3, "Mike Rodriguez", "https://api.dicebear.com/7.x/avataaars/svg?seed=Mike",
        "The timestamps are super helpful. Great content as always! \U{1F525}", 156, "18 hours ago") ]
  }

  /** The like and dislike toggles. */
  datatype Reaction = Reaction(liked: bool, disliked: bool)

  /** `handleLike`: un-like when liked, else like and drop the dislike. */
  function Like(r: Reaction): Reaction {
    if r.liked then r.(liked := false) else Reaction(true, false)
  }

  /** `handleDislike`: the mirror image of `Like`. */
  function Dislike(r: Reaction): Reaction {
    if r.disliked then r.(disliked := false) else Reaction(false, true)
  }

  datatype Click = LikeClick | DislikeClick

  function ApplyClicks(r: Reaction, clicks: seq<Click>): Reaction
    decreases |clicks|
  {
    if clicks == [] then r
    else ApplyClicks(if clicks[0] == LikeClick then Like(r) else Dislike(r), clicks[1..])
  }

  predicate Exclusive(r: Reaction) {
    !(r.liked && r.disliked)
  }

  /** Each handler keeps the two flags exclusive, and leaves the other
      button off whenever it turns its own on. */
  lemma ReactionStep(r: Reaction)
    requires Exclusive(r)
    ensures Exclusive(Like(r)) && Exclusive(Dislike(r))
    ensures Like(r).liked != r.liked && Dislike(r).disliked != r.disliked
    ensures Like(r).liked ==> !Like(r).disliked
    ensures Dislike(r).disliked ==> !Dislike(r).liked
    ensures !r.liked ==> Like(r).disliked == false
    ensures r.liked ==> Like(r).disliked == r.disliked
  {
  }

  /** From both off, no sequence of clicks ends with both on. */
  lemma {:induction false} ClicksStayExclusive(r: Reaction, clicks: seq<Click>)
    requires Exclusive(r)
    ensures Exclusive(ApplyClicks(r, clicks))
    decreases |clicks|
  {
    if clicks != [] {
      ReactionStep(r);
      ClicksStayExclusive(if clicks[0] == LikeClick then Like(r) else Dislike(r), clicks[1..]);
    }
  }

  /** The ids of the local comments are exactly 1 .. n, each once. */
  predicate IdsArePositions(comments: seq<LocalComment>) {
    && (forall i :: 0 <= i < |comments| ==> 1 <= comments[i].id <= |comments|)
    && (forall i, j :: 0 <= i < j < |comments| ==> comments[i].id != comments[j].id)
  }

  /** Prepending a comment whose id is one past the length keeps the ids
      exactly 1 .. n. */
  lemma PrependNextId(comments: seq<LocalComment>, c: LocalComment)
    requires IdsArePositions(comments) && c.id == |comments| + 1
    ensures IdsArePositions([c] + comments)
  {
    var r := [c] + comments;
    forall i | 0 <= i < |r| ensures 1 <= r[i].id <= |r| {
      if i > 0 { assert r[i] == comments[i - 1]; }
    }
    forall i, j | 0 <= i < j < |r| ensures r[i].id != r[j].id {
      assert r[j] == comments[j - 1];
      if i > 0 { assert r[i] == comments[i - 1]; }
    }
  }

  /** The channel id an entry of `subscribedChannels` names: `ch.channel?._id`. */
  function ChannelIdOf(entry: Value): Option<Id> {
    match entry
    case Obj(fields) =>
      if "channel" in fields && fields["channel"].Obj? && "_id" in fields["channel"].fields
        && fields["channel"].fields["_id"].Str?
      then Some(fields["channel"].fields["_id"].s)
      else None
    case _ => None
  }

  /** The subscription check: nothing is dispatched unless the video's channel
      id is known and the list is non-empty; then the flag dispatched says
      whether some entry names that channel. */
  function SubscriptionCheck(channelId: Option<Id>, subscribedChannels: seq<Value>): (flag: Option<bool>)
    ensures flag.Some? <==> Truthy(channelId) && |subscribedChannels| > 0
    ensures flag.Some? ==>
      (flag.value <==> exists i :: 0 <= i < |subscribedChannels| && ChannelIdOf(subscribedChannels[i]) == channelId)
  {
    if Truthy(channelId) && |subscribedChannels| > 0 then
      Some(exists i :: 0 <= i < |subscribedChannels| && ChannelIdOf(subscribedChannels[i]) == channelId)
    else None
  }

  /** A thunk the subscribe button dispatches. */
  datatype Request = ToggleSubscription(channelId: Id) | GetSubscribedChannels(subscriberId: Option<Id>)

  /** `handleSubscribe`: with no owner id, nothing; else toggle the subscription
      to the owner and reload the viewer's subscriptions, in that order. */
  function HandleSubscribe(ownerId: Option<Id>, userId: Option<Id>): (requests: seq<Request>)
    ensures !Truthy(ownerId) ==> requests == []
    ensures Truthy(ownerId) ==> requests == [ToggleSubscription(ownerId.value), GetSubscribedChannels(userId)]
  {
    if !Truthy(ownerId) then [] else [ToggleSubscription(ownerId.value), GetSubscribedChannels(userId)]
  }

  /** The page's local state. */
  class Page {
    var liked: bool
    var disliked: bool
    var comment: string
    var comments: seq<LocalComment>

    predicate Valid()
      reads this
    {
      !(liked && disliked) && IdsArePositions(comments)
    }

    constructor ()
      ensures Valid()
      ensures !liked && !disliked && comment == "" && comments == MockComments()
    {
      liked := false;
      disliked := false;
      comment := "";
      comments := MockComments();
    }

    method HandleLike()
      requires Valid()
      modifies this`liked, this`disliked
      ensures Valid()
      ensures Reaction(liked, disliked) == Like(old(Reaction(liked, disliked)))
    {
      if liked {
        liked := false;
      } else {
        liked := true;
        disliked := false;
      }
    }

    method HandleDislike()
      requires Valid()
      modifies this`liked, this`disliked
      ensures Valid()
      ensures Reaction(liked, disliked) == Dislike(old(Reaction(liked, disliked)))
    {
      if disliked {
        disliked := false;
      } else {
        disliked := true;
        liked := false;
      }
    }

    /** Typing into the comment box. */
    method SetComment(text: string)
      modifies this`comment
      ensures comment == text
    {
      comment := text;
    }

    /** `handleComment`: a draft that trims to nothing changes nothing;
        otherwise the draft goes in front as a fresh comment with the next id
        and no likes, and the box is cleared. */
    method HandleComment()
      requires Valid()
      modifies this`comment, this`comments
      ensures Valid()
      ensures Trim(old(comment)) == "" ==> comment == old(comment) && comments == old(comments)
      ensures Trim(old(comment)) != "" ==>
        && comment == ""
        && comments == [LocalComment(|old(comments)| + 1, "Current User",
             "https://api.dicebear.com/7.x/avataaars/svg?seed=CurrentUser", old(comment), 0, "Just now")]
           + old(comments)
    {
      if Trim(comment) != "" {
        var newComment := LocalComment(|comments| + 1, "Current User",
          "https://api.dicebear.com/7.x/avataaars/svg?seed=CurrentUser", comment, 0, "Just now");
        PrependNextId(comments, newComment);
        comments := [newComment] + comments;
        comment := "";
      }
    }
  }
}
