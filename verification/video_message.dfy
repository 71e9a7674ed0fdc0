/** The video bubble's attachment loading: whether a video loads on its own,
    the loading flags the media status drives, and the jobs that starting
    and cancelling a load queue. Network reachability and the job queues
    are inputs and recorded effects. */
module VideoMessage {
  import opened Common

  /** The auto-download setting, stored as its integer raw value. */
  datatype AutoDownload = Never | Wifi | WifiAndCellular

  function AutoDownloadRaw(a: AutoDownload): int {
    match a
    case Never => 0
    case Wifi => 1
    case WifiAndCellular => 2
  }

  function AutoDownloadFromRaw(n: int): (r: Option<AutoDownload>)
    ensures r.Some? <==> 0 <= n <= 2
  {
    if n == 0 then Some(Never) else if n == 1 then Some(Wifi) else if n == 2 then Some(WifiAndCellular) else None
  }

  lemma AutoDownloadRoundTrip(a: AutoDownload)
    ensures AutoDownloadFromRaw(AutoDownloadRaw(a)) == Some(a)
  {
  }

  /** `automaticallyLoadsAttachment`: a video this device still has to
      upload never loads on its own. */
  function AutomaticallyLoadsAttachment(setting: AutoDownload, reachableOnWifi: bool, shouldUpload: bool): (r: bool)
    ensures shouldUpload ==> !r
    ensures setting == Never ==> !r
    ensures !shouldUpload && setting == WifiAndCellular ==> r
    ensures setting == Wifi ==> (r <==> !shouldUpload && reachableOnWifi)
  {
    var shouldAutoDownload :=
      match setting
      case Never => false
      case Wifi => reachableOnWifi
      case WifiAndCellular => true;
    !shouldUpload && shouldAutoDownload
  }

  /** A more permissive setting loads at least whatever a stricter one does. */
  lemma AutoLoadMonotone(a: AutoDownload, b: AutoDownload, reachableOnWifi: bool, shouldUpload: bool)
    requires AutoDownloadRaw(a) <= AutoDownloadRaw(b)
    ensures AutomaticallyLoadsAttachment(a, reachableOnWifi, shouldUpload) ==> AutomaticallyLoadsAttachment(b, reachableOnWifi, shouldUpload)
  {
  }

  const PendingStatus := "PENDING"
  const CanceledStatus := "CANCELED"

  datatype VideoView = VideoView(
    messageId: string, conversationId: string,
    mediaStatus: Option<string>, progress: Option<real>, isLoading: bool)

  /** The `mediaStatus` setter: anything but PENDING ends a load. */
  function SetMediaStatus(v: VideoView, status: Option<string>): (r: VideoView)
    ensures r.mediaStatus == status
    ensures r.messageId == v.messageId && r.conversationId == v.conversationId
    ensures status != Some(PendingStatus) ==> r.progress.None? && !r.isLoading
    ensures status == Some(PendingStatus) ==> r.progress == v.progress && r.isLoading == v.isLoading
  {
    if status != Some(PendingStatus) then v.(mediaStatus := status, progress := None, isLoading := false)
    else v.(mediaStatus := status)
  }

  /** A video job, named by the message it is for (its job id). */
  datatype Job = VideoUpload(messageId: string) | VideoDownload(messageId: string)

  datatype Effect =
    | MarkMediaStatus(messageId: string, conversationId: string, status: string)
    | AddJob(job: Job)
    | CancelJob(job: Job)

  function JobFor(v: VideoView, shouldUpload: bool): Job {
    if shouldUpload then VideoUpload(v.messageId) else VideoDownload(v.messageId)
  }

  predicate CanBeginLoading(v: VideoView) {
    v.mediaStatus == Some(PendingStatus) || v.mediaStatus == Some(CanceledStatus)
  }

  /** `beginAttachmentLoading`. The database is told PENDING; the view
      model's own status changes only when that update comes back. */
  function BeginAttachmentLoading(v: VideoView, shouldUpload: bool): (r: (VideoView, seq<Effect>))
    ensures !CanBeginLoading(v) ==> r == (v, [])
    ensures CanBeginLoading(v) ==> r.0 == v.(isLoading := true)
    ensures CanBeginLoading(v) ==> r.1 == [MarkMediaStatus(v.messageId, v.conversationId, PendingStatus), AddJob(JobFor(v, shouldUpload))]
    ensures CanBeginLoading(v) && shouldUpload ==> r.1[1] == AddJob(VideoUpload(v.messageId))
    ensures CanBeginLoading(v) && !shouldUpload ==> r.1[1] == AddJob(VideoDownload(v.messageId))
  {
    if !CanBeginLoading(v) then (v, [])
    else (v.(isLoading := true), [MarkMediaStatus(v.messageId, v.conversationId, PendingStatus), AddJob(JobFor(v, shouldUpload))])
  }

  /** `cancelAttachmentLoading`. */
  function CancelAttachmentLoading(v: VideoView, shouldUpload: bool, markCanceled: bool): (r: seq<Effect>)
    ensures |r| >= 1 && r[0] == CancelJob(JobFor(v, shouldUpload))
    ensures markCanceled <==> |r| == 2
    ensures markCanceled ==> r[1] == MarkMediaStatus(v.messageId, v.conversationId, CanceledStatus)
  {
    [CancelJob(JobFor(v, shouldUpload))]
      + (if markCanceled then [MarkMediaStatus(v.messageId, v.conversationId, CanceledStatus)] else [])
  }

  /** Cancelling cancels exactly the job starting queued, and once the
      CANCELED status it records reaches the view model, loading can begin
      again, with loading flags cleared. */
  lemma CancelUndoesBegin(v: VideoView, shouldUpload: bool)
    requires CanBeginLoading(v)
    ensures var (started, added) := BeginAttachmentLoading(v, shouldUpload);
      var cancelled := CancelAttachmentLoading(started, shouldUpload, true);
      added[1].job == cancelled[0].job
      && cancelled[1].status == CanceledStatus
      && var back := SetMediaStatus(started, Some(cancelled[1].status));
      CanBeginLoading(back) && !back.isLoading && back.progress.None?
  {
  }

  /** Until the PENDING update comes back, a second start queues a second
      job: starting is not coalesced in the view model itself. */
  lemma BeginTwiceQueuesTwice(v: VideoView, shouldUpload: bool)
    requires CanBeginLoading(v)
    ensures var once := BeginAttachmentLoading(v, shouldUpload);
      var twice := BeginAttachmentLoading(once.0, shouldUpload);
      twice.1 == once.1
  {
  }
}
