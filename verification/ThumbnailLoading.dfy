/**
 * The thumbnail load registry shared by the two view models: the cache of
 * loaded thumbnails and the in-flight task registry, both keyed by media ID
 * alone, with the transitions the view models apply to them.
 *
 * A spawned Swift `Task` is split into two events: `loadThumbnail`
 * registers it synchronously, and a later completion runs its body. A task
 * is a `LoadTask` object, so two tasks for the same ID are told apart by
 * identity.
 */
module ThumbnailLoading {
  import opened Wrappers
  import opened Entities

  /** The handle of one spawned thumbnail-loading task: what it captured, and whether it was cancelled or has run. */
  class LoadTask {
    const mediaID: MediaID
    const size: Size
    var isCancelled: bool
    var isFinished: bool

    constructor (mediaID: MediaID, size: Size)
      ensures this.mediaID == mediaID && this.size == size
      ensures !isCancelled && !isFinished
    {
      this.mediaID := mediaID;
      this.size := size;
      isCancelled := false;
      isFinished := false;
    }

    /** `Task.cancel()`: only a request; the task body is not stopped and does not look at it. */
    method Cancel()
      modifies this
      ensures isCancelled && isFinished == old(isFinished)
    {
      isCancelled := true;
    }
  }

  /** The two dictionaries of a view model: `thumbnails` and `thumbnailLoadingTasks`. */
  datatype ThumbnailState = ThumbnailState(thumbnails: map<MediaID, Thumbnail>, tasks: map<MediaID, LoadTask>)

  /** Every registered task is registered under the ID it loads. */
  predicate Keyed(s: ThumbnailState) {
    forall id :: id in s.tasks ==> s.tasks[id].mediaID == id
  }

  /** The dedup test of loadThumbnail: the ID is already cached or already loading; the size plays no part. */
  predicate Skips(s: ThumbnailState, mediaID: MediaID): (skip: bool)
    ensures !skip ==> mediaID !in s.thumbnails && mediaID !in s.tasks
    ensures skip && mediaID !in s.thumbnails ==>
      mediaID in s.tasks && (Keyed(s) ==> s.tasks[mediaID].mediaID == mediaID)
  {
    mediaID in s.thumbnails || mediaID in s.tasks
  }

  /** The synchronous part of loadThumbnail, for the task it would spawn. */
  function Register(s: ThumbnailState, task: LoadTask): (t: ThumbnailState)
    ensures Skips(s, task.mediaID) ==> t == s
    ensures !Skips(s, task.mediaID) ==>
      t.thumbnails == s.thumbnails && t.tasks.Keys == s.tasks.Keys + {task.mediaID} && t.tasks[task.mediaID] == task
    ensures forall id :: id in s.tasks ==> id in t.tasks && t.tasks[id] == s.tasks[id]
    ensures Keyed(s) ==> Keyed(t)
  {
    if Skips(s, task.mediaID) then s
    else s.(tasks := s.tasks[task.mediaID := task])
  }

  /**
   * The body of a task once its fetch has returned or thrown: a thumbnail is
   * stored whether or not the task was cancelled, and the registry entry for
   * the task's ID is removed whichever task it belongs to.
   */
  function Complete(s: ThumbnailState, task: LoadTask, outcome: Result<Thumbnail, ThrownError>): (t: ThumbnailState)
    ensures outcome.Success? ==> t.thumbnails == s.thumbnails[task.mediaID := outcome.value]
    ensures outcome.Failure? ==> t.thumbnails == s.thumbnails
    ensures t.tasks == s.tasks - {task.mediaID}
    ensures Keyed(s) ==> Keyed(t)
  {
    var thumbnails := if outcome.Success? then s.thumbnails[task.mediaID := outcome.value] else s.thumbnails;
    ThumbnailState(thumbnails, s.tasks - {task.mediaID})
  }

  /** cancelThumbnailLoading: the ID's registry entry goes; the cache and other entries stay. */
  function CancelOne(s: ThumbnailState, mediaID: MediaID): (t: ThumbnailState)
    ensures t.thumbnails == s.thumbnails
    ensures mediaID !in t.tasks
    ensures forall id :: id != mediaID ==> (id in t.tasks <==> id in s.tasks)
    ensures forall id :: id in t.tasks ==> t.tasks[id] == s.tasks[id]
  {
    s.(tasks := s.tasks - {mediaID})
  }

  /** cancelAllThumbnailTasks: the registry is emptied, the cache kept. */
  function CancelAll(s: ThumbnailState): (t: ThumbnailState)
    ensures t.thumbnails == s.thumbnails && t.tasks == map[]
  {
    s.(tasks := map[])
  }

  /** The error a failed loadPhotos shows: a MediaError as it is, anything else as mediaLoadFailed. */
  function ErrorShownFor(e: ThrownError): (shown: MediaError)
    ensures e.DomainError? ==> shown == e.error
    ensures e.OtherError? ==> shown == MediaLoadFailed
  {
    match e
    case DomainError(mediaError) => mediaError
    case OtherError(_) => MediaLoadFailed
  }

  /**
   * Back-to-back loads of one ID register only the first task, whatever
   * size the second asks for.
   */
  lemma BackToBackLoadsRegisterOnce(s: ThumbnailState, first: LoadTask, second: LoadTask)
    requires first.mediaID == second.mediaID
    ensures Register(Register(s, first), second) == Register(s, first)
    ensures first.mediaID in Register(s, first).tasks || first.mediaID in s.thumbnails
  {
  }

  /** Failure does not poison the ID: after a failed completion the next load registers a task again. */
  lemma RetryAfterFailure(s: ThumbnailState, task: LoadTask, e: ThrownError, retry: LoadTask)
    requires task.mediaID !in s.thumbnails && retry.mediaID == task.mediaID
    ensures !Skips(Complete(s, task, Failure(e)), retry.mediaID)
    ensures Register(Complete(s, task, Failure(e)), retry).tasks[retry.mediaID] == retry
  {
  }

  /** Cancelling an ID that is not cached lets the next load of it register a new task. */
  lemma RetryAfterCancel(s: ThumbnailState, retry: LoadTask)
    requires retry.mediaID !in s.thumbnails
    ensures Register(CancelOne(s, retry.mediaID), retry).tasks[retry.mediaID] == retry
  {
  }

  /** Once a thumbnail is stored, every later load of that ID is skipped. */
  lemma LoadedIsNeverRefetched(s: ThumbnailState, task: LoadTask, thumbnail: Thumbnail, later: LoadTask)
    requires later.mediaID == task.mediaID
    ensures Register(Complete(s, task, Success(thumbnail)), later) == Complete(s, task, Success(thumbnail))
  {
  }

  /** The body never checks cancellation: a fetch that succeeds after a cancel still fills the cache. */
  lemma SuccessAfterCancelIsStored(s: ThumbnailState, task: LoadTask, thumbnail: Thumbnail)
    ensures Complete(CancelOne(s, task.mediaID), task, Success(thumbnail)).thumbnails[task.mediaID] == thumbnail
  {
  }

  /**
   * A task cancelled and superseded still clears the registry entry of its
   * successor when it completes, so a third load of the ID registers a task
   * while the second has not finished: the registry no longer keeps one
   * live load per ID.
   */
  lemma {:induction false} StaleCompletionAllowsSecondLiveLoad(
    s: ThumbnailState, first: LoadTask, second: LoadTask, third: LoadTask, e: ThrownError)
    requires !Skips(s, first.mediaID)
    requires second.mediaID == first.mediaID && third.mediaID == first.mediaID
    requires first != second
    ensures
      var afterCancel := CancelOne(Register(s, first), first.mediaID);
      var afterReload := Register(afterCancel, second);
      var afterStale := Complete(afterReload, first, Failure(e));
      && afterReload.tasks[first.mediaID] == second
      && Register(afterStale, third).tasks[first.mediaID] == third
  {
    var id := first.mediaID;
    var afterCancel := CancelOne(Register(s, first), id);
    assert !Skips(afterCancel, id);
    var afterReload := Register(afterCancel, second);
    var afterStale := Complete(afterReload, first, Failure(e));
    assert afterStale.thumbnails == s.thumbnails;
    assert !Skips(afterStale, id);
  }
}
