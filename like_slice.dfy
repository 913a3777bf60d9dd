/** The `likes` slice: the like state of the open video, the last comment and
    tweet like results, the liked-videos list and the request flags. */
module LikeSlice {
  import opened Common

  /** The four like requests; their pending and rejected cases are identical. */
  datatype LikeRequest = ToggleVideoLike | ToggleCommentLike | ToggleTweetLike | GetAllLikedVideos

  class Slice {
    var likedVideos: seq<Value>
    var isLiked: Option<bool>
    var likesCount: int
    /** Declared `boolean | null`; the request stores `res.data.data`, an
        object, so any value can be here. */
    var commentLiked: Value
    var tweetLiked: Value
    var loading: bool
    var error: Option<string>

    constructor ()
      ensures likedVideos == [] && isLiked == None && likesCount == 0
      ensures commentLiked == Null && tweetLiked == Null && !loading && error == None
    {
      likedVideos := [];
      isLiked := None;
      likesCount := 0;
      commentLiked := Null;
      tweetLiked := Null;
      loading := false;
      error := None;
    }

    /** `setInitialLikeState`: only the video's like flag and count are set. */
    method SetInitialLikeState(payloadIsLiked: Option<bool>, payloadLikesCount: int)
      modifies this`isLiked, this`likesCount
      ensures isLiked == payloadIsLiked && likesCount == payloadLikesCount
    {
      isLiked := payloadIsLiked;
      likesCount := payloadLikesCount;
    }

    /** Any pending case: loading starts; the error is kept. */
    method Pending(request: LikeRequest)
      modifies this`loading
      ensures loading
    {
      loading := true;
    }

    /** Any rejected case: loading ends, the payload is the error, and the
        like fields stay as they were. */
    method Rejected(request: LikeRequest, payload: Option<string>)
      modifies this`loading, this`error
      ensures !loading && error == payload
    {
      loading := false;
      error := payload;
    }

    /** toggleVideoLike fulfilled: the server's flag and total replace the old
        ones, so the last payload applied decides the state. */
    method ToggleVideoLikeFulfilled(payloadIsLiked: Option<bool>, payloadTotalLikes: int)
      modifies this`loading, this`isLiked, this`likesCount
      ensures !loading && isLiked == payloadIsLiked && likesCount == payloadTotalLikes
    {
      loading := false;
      isLiked := payloadIsLiked;
      likesCount := payloadTotalLikes;
    }

    /** toggleCommentLike fulfilled: `commentLiked` becomes the payload. */
    method ToggleCommentLikeFulfilled(payload: Value)
      modifies this`loading, this`commentLiked
      ensures !loading && commentLiked == payload
    {
      loading := false;
      commentLiked := payload;
    }

    /** toggleTweetLike fulfilled: `tweetLiked` becomes the payload. */
    method ToggleTweetLikeFulfilled(payload: Value)
      modifies this`loading, this`tweetLiked
      ensures !loading && tweetLiked == payload
    {
      loading := false;
      tweetLiked := payload;
    }

    /** getAllLikedVideos fulfilled: the list is replaced. */
    method GetAllLikedVideosFulfilled(payload: seq<Value>)
      modifies this`loading, this`likedVideos
      ensures !loading && likedVideos == payload
    {
      loading := false;
      likedVideos := payload;
    }
  }
}
