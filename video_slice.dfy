/** The `videos` slice: the loaded list of videos, the video being watched and
    the request flags, updated in place by the settled video requests. */
module VideoSlice {
  import opened Common
  import opened KeyedLists

  /** A video record; `extra` holds whatever other fields the server sends. */
  datatype Video = Video(
    id: Id,
    title: string,
    description: Option<string>,
    thumbnail: Option<string>,
    videoUrl: string,
    isPublished: bool,
    createdAt: string,
    updatedAt: string,
    extra: map<string, Value>)

  function VideoId(v: Video): Id { v.id }

  /** A response body that either wraps the value in `data` or is the value. */
  datatype Payload<T> = Enveloped(data: T) | Bare(item: T)

  /** `payload.data || payload`. */
  function Unwrap<T>(p: Payload<T>): T {
    match p
    case Enveloped(d) => d
    case Bare(x) => x
  }

  /** The six video requests; their pending and rejected cases are identical. */
  datatype VideoRequest = PublishVideo | GetAllVideos | GetVideoById | DeleteVideo | UpdateVideo | TogglePublishStatus

  /** `{ ...v, isPublished: !v.isPublished }`. */
  function FlipPublished(v: Video): (r: Video)
    ensures r.id == v.id && r.isPublished == !v.isPublished
    ensures r.(isPublished := v.isPublished) == v
  {
    v.(isPublished := !v.isPublished)
  }

  /** The list after togglePublishStatus fulfilled for `videoId`. */
  function TogglePublished(videos: seq<Video>, videoId: Id): seq<Video> {
    MapWhereId(videos, VideoId, videoId, FlipPublished)
  }

  class Slice {
    var videos: seq<Video>
    var selectedVideo: Option<Video>
    var loading: bool
    var error: Option<string>
    var successMessage: Option<string>

    constructor ()
      ensures videos == [] && selectedVideo == None && !loading
      ensures error == None && successMessage == None
    {
      videos := [];
      selectedVideo := None;
      loading := false;
      error := None;
      successMessage := None;
    }

    /** `clearVideoState`: resets the request flags; the lists are untouched. */
    method ClearVideoState()
      modifies this`loading, this`error, this`successMessage
      ensures !loading && error == None && successMessage == None
    {
      loading := false;
      error := None;
      successMessage := None;
    }

    /** Any pending case: loading starts; the error is kept. */
    method Pending(request: VideoRequest)
      modifies this`loading
      ensures loading
    {
      loading := true;
    }

    /** Any rejected case: loading ends and the payload becomes the error. */
    method Rejected(request: VideoRequest, payload: Option<string>)
      modifies this`loading, this`error
      ensures !loading && error == payload
    {
      loading := false;
      error := payload;
    }

    /** publishVideo fulfilled: the new video goes in front of the list. */
    method PublishVideoFulfilled(payload: Payload<Video>)
      modifies this`loading, this`videos, this`successMessage
      ensures !loading && successMessage == Some("Video published successfully")
      ensures videos == [Unwrap(payload)] + old(videos)
      ensures |videos| == |old(videos)| + 1 && videos[0] == Unwrap(payload) && videos[1..] == old(videos)
    {
      loading := false;
      videos := [Unwrap(payload)] + videos;
      successMessage := Some("Video published successfully");
    }

    /** getAllVideos fulfilled: the list is replaced wholesale. */
    method GetAllVideosFulfilled(payload: Payload<seq<Video>>)
      modifies this`loading, this`videos
      ensures !loading && videos == Unwrap(payload)
    {
      loading := false;
      videos := Unwrap(payload);
    }

    /** getVideoById fulfilled: only the selected video is set. */
    method GetVideoByIdFulfilled(payload: Payload<Video>)
      modifies this`loading, this`selectedVideo
      ensures !loading && selectedVideo == Some(Unwrap(payload))
    {
      loading := false;
      selectedVideo := Some(Unwrap(payload));
    }

    /** deleteVideo fulfilled: every video with the id goes, the rest stay in order. */
    method DeleteVideoFulfilled(videoId: Id)
      modifies this`loading, this`videos, this`successMessage
      ensures !loading && successMessage == Some("Video deleted successfully")
      ensures videos == RemoveById(old(videos), VideoId, videoId)
      ensures forall v :: v in videos <==> v in old(videos) && v.id != videoId
      ensures IsSubsequence(videos, old(videos))
    {
      loading := false;
      RemoveByIdIsSubsequence(videos, VideoId, videoId);
      videos := RemoveById(videos, VideoId, videoId);
      successMessage := Some("Video deleted successfully");
    }

    /** updateVideo fulfilled: every video carrying the payload's id becomes the payload. */
    method UpdateVideoFulfilled(updated: Video)
      modifies this`loading, this`videos, this`successMessage
      ensures !loading && successMessage == Some("Video updated successfully")
      ensures videos == ReplaceById(old(videos), VideoId, updated)
      ensures |videos| == |old(videos)|
      ensures forall i :: 0 <= i < |videos| ==>
        videos[i] == if old(videos)[i].id == updated.id then updated else old(videos)[i]
    {
      loading := false;
      videos := ReplaceById(videos, VideoId, updated);
      successMessage := Some("Video updated successfully");
    }

    /** togglePublishStatus fulfilled: the matching videos flip `isPublished`. */
    method TogglePublishStatusFulfilled(videoId: Id)
      modifies this`loading, this`videos, this`successMessage
      ensures !loading && successMessage == Some("Video publish status toggled")
      ensures videos == TogglePublished(old(videos), videoId)
    {
      loading := false;
      videos := TogglePublished(videos, videoId);
      successMessage := Some("Video publish status toggled");
    }
  }

  /** Toggling changes the flag of exactly the matching videos and nothing else. */
  lemma TogglePublishedPointwise(videos: seq<Video>, videoId: Id)
    ensures |TogglePublished(videos, videoId)| == |videos|
    ensures forall i :: 0 <= i < |videos| ==>
      var r := TogglePublished(videos, videoId)[i];
      && r.(isPublished := videos[i].isPublished) == videos[i]
      && (r.isPublished <==> (videos[i].id == videoId) != videos[i].isPublished)
  {
  }

  /** Toggling the same id twice restores the list. */
  lemma TogglePublishedTwice(videos: seq<Video>, videoId: Id)
    ensures TogglePublished(TogglePublished(videos, videoId), videoId) == videos
  {
    MapWhereIdInvolution(videos, VideoId, videoId, FlipPublished);
  }

  /** Applying the same update twice is the same as applying it once. */
  lemma UpdateVideoIdempotent(videos: seq<Video>, updated: Video)
    ensures ReplaceById(ReplaceById(videos, VideoId, updated), VideoId, updated)
      == ReplaceById(videos, VideoId, updated)
  {
    ReplaceByIdIdempotent(videos, VideoId, updated);
  }

  /** Deleting removes exactly as many videos as carry the id. */
  lemma DeleteVideoCount(videos: seq<Video>, videoId: Id)
    ensures |RemoveById(videos, VideoId, videoId)| == |videos| - CountId(videos, VideoId, videoId)
  {
    RemoveByIdLength(videos, VideoId, videoId);
  }
}
