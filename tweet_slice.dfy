/** The `tweets` slice: the feed, the signed-in user's own tweets and the
    request flags, updated in place by the settled tweet requests. */
module TweetSlice {
  import opened Common
  import opened KeyedLists

  datatype TweetOwner = TweetOwner(username: string, avatar: string, id: Id, fullName: string)

  datatype Tweet = Tweet(id: Id, content: string, owner: TweetOwner, createdAt: string, updatedAt: string)

  function TweetId(t: Tweet): Id { t.id }

  /** The three tweet requests that have pending cases; their pending and
      rejected cases are identical. */
  datatype ListRequest = GetUserTweets | GetAllTweets | CreateTweet

  class Slice {
    var tweets: seq<Tweet>
    var userTweets: seq<Tweet>
    var loading: bool
    var error: Option<string>

    constructor ()
      ensures tweets == [] && userTweets == [] && !loading && error == None
    {
      tweets := [];
      userTweets := [];
      loading := false;
      error := None;
    }

    /** The pending case of getUserTweets, getAllTweets or createTweet. */
    method Pending(request: ListRequest)
      modifies this`loading
      ensures loading
    {
      loading := true;
    }

    /** The rejected case of getUserTweets, getAllTweets or createTweet: both
        lists stay as they were. */
    method Rejected(request: ListRequest, payload: Option<string>)
      modifies this`loading, this`error
      ensures !loading && error == payload
    {
      loading := false;
      error := payload;
    }

    /** getUserTweets fulfilled: `userTweets` becomes `payload.tweets`; the feed is untouched. */
    method GetUserTweetsFulfilled(payloadTweets: seq<Tweet>)
      modifies this`loading, this`userTweets
      ensures !loading && userTweets == payloadTweets
    {
      loading := false;
      userTweets := payloadTweets;
    }

    /** getAllTweets fulfilled: the feed is replaced. */
    method GetAllTweetsFulfilled(payload: seq<Tweet>)
      modifies this`loading, this`tweets
      ensures !loading && tweets == payload
    {
      loading := false;
      tweets := payload;
    }

    /** createTweet fulfilled: the new tweet goes in front of the feed. */
    method CreateTweetFulfilled(created: Tweet)
      modifies this`loading, this`tweets
      ensures !loading && tweets == [created] + old(tweets)
    {
      loading := false;
      tweets := [created] + tweets;
    }

    /** updateTweet fulfilled: tweets carrying the payload's id are replaced;
        length and order are kept and `loading` is not touched. */
    method UpdateTweetFulfilled(updated: Tweet)
      modifies this`tweets
      ensures tweets == ReplaceById(old(tweets), TweetId, updated)
      ensures |tweets| == |old(tweets)|
      ensures forall i :: 0 <= i < |tweets| ==>
        tweets[i] == if old(tweets)[i].id == updated.id then updated else old(tweets)[i]
    {
      tweets := ReplaceById(tweets, TweetId, updated);
    }

    /** deleteTweet fulfilled: tweets with the id go, the rest keep their order;
        `loading` is not touched. */
    method DeleteTweetFulfilled(tweetId: Id)
      modifies this`tweets
      ensures tweets == RemoveById(old(tweets), TweetId, tweetId)
      ensures forall t :: t in tweets <==> t in old(tweets) && t.id != tweetId
      ensures IsSubsequence(tweets, old(tweets))
    {
      RemoveByIdIsSubsequence(tweets, TweetId, tweetId);
      tweets := RemoveById(tweets, TweetId, tweetId);
    }

    /** updateTweet or deleteTweet rejected: only the error is recorded. */
    method MutationRejected(payload: Option<string>)
      modifies this`error
      ensures error == payload
    {
      error := payload;
    }
  }

  /** Deleting a tweet id that is not in the feed leaves the feed as it was;
      deleting twice is deleting once. */
  lemma DeleteTweetAbsentAndTwice(tweets: seq<Tweet>, tweetId: Id)
    ensures (forall i :: 0 <= i < |tweets| ==> tweets[i].id != tweetId) ==>
      RemoveById(tweets, TweetId, tweetId) == tweets
    ensures RemoveById(RemoveById(tweets, TweetId, tweetId), TweetId, tweetId)
      == RemoveById(tweets, TweetId, tweetId)
  {
    if forall i :: 0 <= i < |tweets| ==> tweets[i].id != tweetId {
      RemoveByIdAbsent(tweets, TweetId, tweetId);
    }
    var once := RemoveById(tweets, TweetId, tweetId);
    forall i | 0 <= i < |once| ensures once[i].id != tweetId {
      assert once[i] in once;
    }
    RemoveByIdAbsent(once, TweetId, tweetId);
  }
}
