/** The tweet page's composer, its limits, the owner check on each tweet and
    the edit dialog. The requests themselves are dispatched to the tweet
    slice; here only what the page does before and after they settle. */
module TweetPage {
  import opened Common
  import opened Text
  import opened TweetSlice

  const MaxChars: int := 280

  /** `maxChars - tweetContent.length`, counted in UTF-16 code units. */
  function CharsRemaining(content: string): (r: int)
    ensures r <= MaxChars
    ensures r == MaxChars <==> content == []
    ensures r < 0 <==> Utf16Length(content) > MaxChars
  {
    MaxChars - Utf16Length(content)
  }

  /** The Post button is disabled for blank content, while posting, or when
      over the limit. */
  predicate PostDisabled(content: string, isPosting: bool) {
    Trim(content) == [] || isPosting || CharsRemaining(content) < 0
  }

  /** The numeric counter: shown inside the ring, which is shown only for non-empty
      content, and only when fewer than 20 characters remain. */
  predicate ShowCounter(content: string) {
    Utf16Length(content) > 0 && CharsRemaining(content) < 20
  }

  /** Post is enabled exactly for content that is not blank and fits in 280
      code units, when no post is running. */
  lemma PostEnabledExactly(content: string, isPosting: bool)
    ensures !PostDisabled(content, isPosting) <==>
      !isPosting && !AllWhiteSpace(content) && Utf16Length(content) <= MaxChars
  {
  }

  /** The counter shows exactly when fewer than 20 code units remain: the
      non-empty condition around it never hides it then. */
  lemma ShowCounterExactly(content: string)
    ensures ShowCounter(content) <==> CharsRemaining(content) < 20
  {
  }

  /** Edit and Delete are shown only on the viewer's own tweets: a missing
      viewer owns nothing. */
  predicate IsOwner(tweet: Tweet, userId: Option<Id>) {
    userId == Some(tweet.owner.id)
  }

  /** The edit and delete controls show exactly when a viewer is signed in
      and is the tweet's owner: a missing viewer sees them on no tweet, and
      no two viewers see them on the same tweet. */
  lemma OwnerControlsExactly(tweet: Tweet, userId: Option<Id>, otherId: Option<Id>)
    ensures IsOwner(tweet, userId) <==> userId.Some? && userId.value == tweet.owner.id
    ensures !IsOwner(tweet, None)
    ensures IsOwner(tweet, userId) && IsOwner(tweet, otherId) ==> userId == otherId
  {
  }

  /** What the page shows and keeps once the create request has settled. */
  datatype PostOutcome = PostOutcome(content: string, toast: Toast)

  /** The code as written: `await dispatch(createTweet(..))` without
      `.unwrap()` resolves on rejection too, so the `catch` never runs. This
      takes `createTweet` to be the create-tweet thunk the page evidently
      means; the thunks module exports it as `createTweetThunk`. */
  function PostOutcomeAsWritten(content: string, settled: Settlement): PostOutcome {
    PostOutcome("", SuccessToast("Tweet created successfully"))
  }

  /** The outcome the `try`/`catch` evidently intends: success clears the box
      and says so; failure keeps the text and reports the error. */
  function PostOutcomeIntended(content: string, settled: Settlement): (r: PostOutcome)
    ensures settled == Fulfilled ==> r == PostOutcome("", SuccessToast("Tweet created successfully"))
    ensures settled == Rejected ==> r == PostOutcome(content, ErrorToast("Failed to post tweet"))
  {
    match settled
    case Fulfilled => PostOutcome("", SuccessToast("Tweet created successfully"))
    case Rejected => PostOutcome(content, ErrorToast("Failed to post tweet"))
  }

  /** As written, a rejected post still clears the box and reports success,
      which the intended outcome does not. */
  lemma RejectedPostReportsSuccess(content: string)
    requires content != ""
    ensures PostOutcomeAsWritten(content, Rejected).toast == SuccessToast("Tweet created successfully")
    ensures PostOutcomeAsWritten(content, Rejected).content == ""
    ensures PostOutcomeIntended(content, Rejected) != PostOutcomeAsWritten(content, Rejected)
    ensures PostOutcomeIntended(content, Fulfilled) == PostOutcomeAsWritten(content, Fulfilled)
  {
  }

  /** `handleDelete`: the request is unwrapped, so the toast follows the outcome. */
  function DeleteToast(settled: Settlement): (t: Toast)
    ensures t.SuccessToast? <==> settled == Fulfilled
  {
    if settled == Fulfilled then SuccessToast("Tweet deleted") else ErrorToast("Failed to delete tweet")
  }

  /** The `updateTweet` request the dialog sends. */
  datatype UpdateRequest = UpdateRequest(tweetId: Id, content: string)

  /** The composer and the edit dialog. */
  class Composer {
    var tweetContent: string
    var isPosting: bool
    var editingTweet: Option<Tweet>
    var editContent: string

    constructor ()
      ensures tweetContent == "" && !isPosting && editingTweet == None && editContent == ""
    {
      tweetContent := "";
      isPosting := false;
      editingTweet := None;
      editContent := "";
    }

    method SetTweetContent(text: string)
      modifies this`tweetContent
      ensures tweetContent == text
    {
      tweetContent := text;
    }

    /** The start of `handlePostTweet`: blank content returns at once without
        dispatching; otherwise posting starts and `createTweet(content)` is sent. */
    method BeginPost() returns (dispatched: Option<string>)
      modifies this`isPosting
      ensures Trim(tweetContent) == [] ==> dispatched == None && isPosting == old(isPosting)
      ensures Trim(tweetContent) != [] ==> dispatched == Some(tweetContent) && isPosting
    {
      if Trim(tweetContent) == [] {
        return None;
      }
      isPosting := true;
      dispatched := Some(tweetContent);
    }

    /** The rest of `handlePostTweet` once the request settled: the intended
        outcome, and posting ends whatever happened. */
    method FinishPost(settled: Settlement) returns (toast: Toast)
      modifies this`tweetContent, this`isPosting
      ensures !isPosting
      ensures PostOutcome(tweetContent, toast) == PostOutcomeIntended(old(tweetContent), settled)
    {
      var outcome := PostOutcomeIntended(tweetContent, settled);
      tweetContent := outcome.content;
      toast := outcome.toast;
      isPosting := false;
    }

    /** `openEditModal`: the dialog opens on the tweet with its text. */
    method OpenEditModal(tweet: Tweet)
      modifies this`editingTweet, this`editContent
      ensures editingTweet == Some(tweet) && editContent == tweet.content
    {
      editingTweet := Some(tweet);
      editContent := tweet.content;
    }

    method SetEditContent(text: string)
      modifies this`editContent
      ensures editContent == text
    {
      editContent := text;
    }

    /** `handleUpdateTweet`: with no dialog open, nothing is sent; otherwise
        the edited text is sent for the tweet's id, and only a success closes
        the dialog. */
    method HandleUpdateTweet(settled: Settlement) returns (request: Option<UpdateRequest>, toast: Option<Toast>)
      modifies this`editingTweet
      ensures old(editingTweet) == None ==> request == None && toast == None && editingTweet == None
      ensures old(editingTweet).Some? ==>
        && request == Some(UpdateRequest(old(editingTweet).value.id, editContent))
        && (settled == Fulfilled ==> toast == Some(SuccessToast("Tweet updated")) && editingTweet == None)
        && (settled == Rejected ==> toast == Some(ErrorToast("Failed to update tweet")) && editingTweet == old(editingTweet))
    {
      if editingTweet == None {
        return None, None;
      }
      request := Some(UpdateRequest(editingTweet.value.id, editContent));
      if settled == Fulfilled {
        toast := Some(SuccessToast("Tweet updated"));
        editingTweet := None;
      } else {
        toast := Some(ErrorToast("Failed to update tweet"));
      }
    }
  }
}
