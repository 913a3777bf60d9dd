/** The upload page: two file slots gated by MIME type, the title and
    description rules, the publish button, and the simulated upload whose
    progress climbs in steps of ten. Timers become explicit steps: `Tick` is
    one firing of the interval, `Complete` the first timeout, `ResetAfterSuccess`
    the second. */
module Upload {
  import opened Common
  import opened Text

  /** `file && file.type.startsWith(prefix)`. */
  predicate Accepts(file: Option<File>, prefix: string) {
    file.Some? && StartsWith(file.value.mimeType, prefix)
  }

  /** `required` with `minLength: 3` and `maxLength: 100`. */
  predicate TitleValid(title: string) {
    title != "" && 3 <= Utf16Length(title) <= 100
  }

  /** `required` with `minLength: 10` and `maxLength: 5000`. */
  predicate DescriptionValid(description: string) {
    description != "" && 10 <= Utf16Length(description) <= 5000
  }

  /** The interval's updater: `prev >= 100 ? 100 : prev + 10`. */
  function ProgressStep(prev: int): (next: int)
    ensures prev >= 100 ==> next == 100
    ensures prev < 100 ==> next == prev + 10
    ensures 0 <= prev <= 100 && prev % 10 == 0 ==> 0 <= next <= 100 && next % 10 == 0
  {
    if prev >= 100 then 100 else prev + 10
  }

  function ProgressAfter(ticks: nat): int {
    if ticks == 0 then 0 else ProgressStep(ProgressAfter(ticks - 1))
  }

  /** From zero, after n firings the bar shows `min(10 n, 100)`: it never
      leaves [0, 100] and stays on multiples of ten. */
  lemma {:induction false} ProgressAfterTicks(ticks: nat)
    ensures ProgressAfter(ticks) == if 10 * ticks >= 100 then 100 else 10 * ticks
    ensures 0 <= ProgressAfter(ticks) <= 100 && ProgressAfter(ticks) % 10 == 0
  {
    if ticks > 0 {
      ProgressAfterTicks(ticks - 1);
    }
  }

  class Page {
    var videoFile: Option<File>
    var thumbnailFile: Option<File>
    var videoPreview: string
    var thumbnailPreview: string
    var isUploading: bool
    var uploadProgress: int
    var uploadSuccess: bool
    var title: string
    var description: string
    /** The previews seen by the render whose `onSubmit` started the upload:
        its timeouts call that render's `removeVideo` and `removeThumbnail`,
        so these, not the previews current at reset, are what gets revoked. */
    var submittedVideoPreview: string
    var submittedThumbnailPreview: string

    /** The bar never leaves [0, 100] and moves in steps of ten. */
    predicate Valid()
      reads this
    {
      0 <= uploadProgress <= 100 && uploadProgress % 10 == 0
    }

    constructor ()
      ensures Valid()
      ensures videoFile == None && thumbnailFile == None && videoPreview == "" && thumbnailPreview == ""
      ensures !isUploading && uploadProgress == 0 && !uploadSuccess && title == "" && description == ""
    {
      videoFile := None;
      thumbnailFile := None;
      videoPreview := "";
      thumbnailPreview := "";
      isUploading := false;
      uploadProgress := 0;
      uploadSuccess := false;
      title := "";
      description := "";
      submittedVideoPreview := "";
      submittedThumbnailPreview := "";
    }

    /** Typing into the two form fields. */
    method SetFields(newTitle: string, newDescription: string)
      modifies this`title, this`description
      ensures title == newTitle && description == newDescription
    {
      title := newTitle;
      description := newDescription;
    }

    predicate FormValid()
      reads this
    {
      TitleValid(title) && DescriptionValid(description)
    }

    /** The publish button's enabling condition. */
    predicate PublishEnabled()
      reads this
    {
      videoFile.Some? && thumbnailFile.Some? && FormValid() && !isUploading && !uploadSuccess
    }

    /** `handleVideoChange`: a video file fills the slot and its object URL
        (made by the browser) becomes the preview; anything else changes nothing. */
    method HandleVideoChange(file: Option<File>, objectUrl: string)
      modifies this`videoFile, this`videoPreview
      ensures Accepts(file, "video/") ==> videoFile == file && videoPreview == objectUrl
      ensures !Accepts(file, "video/") ==> videoFile == old(videoFile) && videoPreview == old(videoPreview)
    {
      if file.Some? && StartsWith(file.value.mimeType, "video/") {
        videoFile := file;
        videoPreview := objectUrl;
      }
    }

    /** `handleThumbnailChange`: the same gate for images. */
    method HandleThumbnailChange(file: Option<File>, objectUrl: string)
      modifies this`thumbnailFile, this`thumbnailPreview
      ensures Accepts(file, "image/") ==> thumbnailFile == file && thumbnailPreview == objectUrl
      ensures !Accepts(file, "image/") ==> thumbnailFile == old(thumbnailFile) && thumbnailPreview == old(thumbnailPreview)
    {
      if file.Some? && StartsWith(file.value.mimeType, "image/") {
        thumbnailFile := file;
        thumbnailPreview := objectUrl;
      }
    }

    /** `removeVideo`: empties the slot and hands back the preview URL to
        revoke, if there was one. */
    method RemoveVideo() returns (revoked: Option<string>)
      modifies this`videoFile, this`videoPreview
      ensures videoFile == None && videoPreview == ""
      ensures revoked == if old(videoPreview) != "" then Some(old(videoPreview)) else None
    {
      revoked := if videoPreview != "" then Some(videoPreview) else None;
      videoFile := None;
      videoPreview := "";
    }

    /** `removeThumbnail`: the same for the image slot. */
    method RemoveThumbnail() returns (revoked: Option<string>)
      modifies this`thumbnailFile, this`thumbnailPreview
      ensures thumbnailFile == None && thumbnailPreview == ""
      ensures revoked == if old(thumbnailPreview) != "" then Some(old(thumbnailPreview)) else None
    {
      revoked := if thumbnailPreview != "" then Some(thumbnailPreview) else None;
      thumbnailFile := None;
      thumbnailPreview := "";
    }

    /** `handleSubmit(onSubmit)`: an invalid form or a missing file changes
        nothing; otherwise the upload starts from zero, and the timeouts it
        arms keep this render's two previews. */
    method Submit() returns (started: bool)
      requires Valid()
      modifies this`isUploading, this`uploadProgress, this`submittedVideoPreview, this`submittedThumbnailPreview
      ensures Valid()
      ensures started <==> FormValid() && videoFile.Some? && thumbnailFile.Some?
      ensures started ==> isUploading && uploadProgress == 0
      ensures started ==> submittedVideoPreview == videoPreview && submittedThumbnailPreview == thumbnailPreview
      ensures !started ==> isUploading == old(isUploading) && uploadProgress == old(uploadProgress)
      ensures !started ==> submittedVideoPreview == old(submittedVideoPreview)
      ensures !started ==> submittedThumbnailPreview == old(submittedThumbnailPreview)
    {
      if !FormValid() || videoFile.None? || thumbnailFile.None? {
        return false;
      }
      isUploading := true;
      uploadProgress := 0;
      submittedVideoPreview := videoPreview;
      submittedThumbnailPreview := thumbnailPreview;
      started := true;
    }

    /** One firing of the progress interval. */
    method Tick()
      requires Valid()
      modifies this`uploadProgress
      ensures Valid()
      ensures uploadProgress == ProgressStep(old(uploadProgress))
    {
      uploadProgress := ProgressStep(uploadProgress);
    }

    /** The first timeout: the upload is reported done. */
    method Complete()
      modifies this`uploadProgress, this`isUploading, this`uploadSuccess
      ensures Valid()
      ensures uploadProgress == 100 && !isUploading && uploadSuccess
    {
      uploadProgress := 100;
      isUploading := false;
      uploadSuccess := true;
    }

    /** The second timeout: the form and both slots are cleared, and the page
        is ready for the next upload. The remove handlers it runs are the ones
        of the submitting render, so they revoke the previews recorded at
        submit, even if the user has since cleared or replaced a file. */
    method ResetAfterSuccess() returns (revokedVideo: Option<string>, revokedThumbnail: Option<string>)
      modifies this`title, this`description, this`videoFile, this`videoPreview,
        this`thumbnailFile, this`thumbnailPreview, this`uploadSuccess, this`uploadProgress
      ensures Valid()
      ensures title == "" && description == ""
      ensures videoFile == None && videoPreview == "" && thumbnailFile == None && thumbnailPreview == ""
      ensures !uploadSuccess && uploadProgress == 0
      ensures revokedVideo == if submittedVideoPreview != "" then Some(submittedVideoPreview) else None
      ensures revokedThumbnail == if submittedThumbnailPreview != "" then Some(submittedThumbnailPreview) else None
    {
      title := "";
      description := "";
      videoFile := None;
      videoPreview := "";
      revokedVideo := if submittedVideoPreview != "" then Some(submittedVideoPreview) else None;
      thumbnailFile := None;
      thumbnailPreview := "";
      revokedThumbnail := if submittedThumbnailPreview != "" then Some(submittedThumbnailPreview) else None;
      uploadSuccess := false;
      uploadProgress := 0;
    }
  }

  /** Publish is enabled exactly when both files are chosen, the title has 3
      to 100 code units, the description 10 to 5000, and no upload is running
      or just finished. */
  lemma PublishEnabledExactly(page: Page)
    ensures page.PublishEnabled() <==>
      && page.videoFile.Some? && page.thumbnailFile.Some?
      && 3 <= Utf16Length(page.title) <= 100
      && 10 <= Utf16Length(page.description) <= 5000
      && !page.isUploading && !page.uploadSuccess
  {
  }
}
