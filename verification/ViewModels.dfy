/**
 * The two view models of the photo grid screen, MediaLibraryViewModel and
 * its older twin PhotoLibraryViewModel. Both hold the loaded media, the
 * loading flag, the last error, the thumbnail cache and the registry of
 * in-flight thumbnail tasks, and update them in place. The asynchronous
 * service calls they await are given as inputs: `LoadPhotos` receives what
 * loadMedia returned or threw, and a task body runs as `CompleteLoad` with
 * what its fetch returned or threw.
 */
module ViewModels {
  import opened Wrappers
  import opened Entities
  import opened MediaLibraryAppService
  import opened ThumbnailLoading

  class MediaLibraryViewModel {
    var media: seq<Media>
    var isLoading: bool
    var error: Option<MediaError>
    var permissionStatus: PermissionStatus
    var thumbnails: map<MediaID, Thumbnail>
    var thumbnailLoadingTasks: map<MediaID, LoadTask>
    /** Every task loadThumbnail has spawned, in order: one thumbnail fetch each. */
    ghost var spawned: seq<LoadTask>

    /** Registered tasks sit under their own ID, were spawned here, and are neither cancelled nor finished. */
    ghost predicate Valid()
      reads this, thumbnailLoadingTasks.Values
    {
      forall id :: id in thumbnailLoadingTasks ==>
        && thumbnailLoadingTasks[id].mediaID == id
        && thumbnailLoadingTasks[id] in spawned
        && !thumbnailLoadingTasks[id].isCancelled
        && !thumbnailLoadingTasks[id].isFinished
    }

    /** The cache and the registry as one value. */
    function State(): ThumbnailState
      reads this
    {
      ThumbnailState(thumbnails, thumbnailLoadingTasks)
    }

    /** hasError: an error is being shown. */
    predicate HasError(): (has: bool)
      reads this
      ensures has <==> error != None
    {
      error.Some?
    }

    constructor ()
      ensures Valid()
      ensures media == [] && !isLoading && error == None && permissionStatus == NotDetermined
      ensures thumbnails == map[] && thumbnailLoadingTasks == map[] && spawned == []
    {
      media := [];
      isLoading := false;
      error := None;
      permissionStatus := NotDetermined;
      thumbnails := map[];
      thumbnailLoadingTasks := map[];
      spawned := [];
    }

    /** loadPhotos, given what the service's loadMedia returned or threw. */
    method LoadPhotos(loaded: Result<seq<Media>, ThrownError>)
      requires Valid()
      modifies this`media, this`isLoading, this`error
      ensures Valid()
      ensures !isLoading
      ensures loaded.Success? ==> media == loaded.value && error == None
      ensures loaded.Failure? ==> media == [] && error == Some(ErrorShownFor(loaded.error))
      ensures HasError() <==> loaded.Failure?
    {
      isLoading := true;
      error := None;
      match loaded {
        case Success(items) =>
          media := items;
        case Failure(DomainError(mediaError)) =>
          error := Some(mediaError);
          media := [];
        case Failure(OtherError(_)) =>
          error := Some(MediaLoadFailed);
          media := [];
      }
      isLoading := false;
    }

    /**
     * loadThumbnail: skipped when the ID is cached or already loading;
     * otherwise one task is spawned and registered under the ID.
     */
    method LoadThumbnail(mediaID: MediaID, size: Size)
      requires Valid()
      modifies this`thumbnailLoadingTasks, this`spawned
      ensures Valid()
      ensures old(Skips(State(), mediaID)) ==> State() == old(State()) && spawned == old(spawned)
      ensures !old(Skips(State(), mediaID)) ==>
        && mediaID in thumbnailLoadingTasks
        && fresh(thumbnailLoadingTasks[mediaID])
        && thumbnailLoadingTasks[mediaID].size == size
        && State() == Register(old(State()), thumbnailLoadingTasks[mediaID])
        && spawned == old(spawned) + [thumbnailLoadingTasks[mediaID]]
    {
      if mediaID in thumbnails || mediaID in thumbnailLoadingTasks {
        return;
      }
      var task := new LoadTask(mediaID, size);
      thumbnailLoadingTasks := thumbnailLoadingTasks[mediaID := task];
      spawned := spawned + [task];
    }

    /**
     * The body of a spawned task, run once its fetch has returned or thrown.
     * It does not look at its own cancellation, and it clears the registry
     * entry of its ID even when that entry now holds a newer task.
     */
    method CompleteLoad(task: LoadTask, outcome: Result<Thumbnail, ThrownError>)
      requires Valid()
      requires task in spawned && !task.isFinished
      modifies this`thumbnails, this`thumbnailLoadingTasks, task
      ensures Valid()
      ensures task.isFinished && task.isCancelled == old(task.isCancelled)
      ensures State() == Complete(old(State()), task, outcome)
    {
      if outcome.Success? {
        thumbnails := thumbnails[task.mediaID := outcome.value];
      }
      thumbnailLoadingTasks := thumbnailLoadingTasks - {task.mediaID};
      task.isFinished := true;
    }

    /** clearError. */
    method ClearError()
      modifies this`error
      ensures error == None && !HasError()
    {
      error := None;
    }

    /** cancelThumbnailLoading: cancels the ID's registered task, if any, and unregisters it. */
    method CancelThumbnailLoading(mediaID: MediaID)
      requires Valid()
      modifies this`thumbnailLoadingTasks
      modifies if mediaID in thumbnailLoadingTasks then {thumbnailLoadingTasks[mediaID]} else {}
      ensures Valid()
      ensures State() == CancelOne(old(State()), mediaID)
      ensures mediaID in old(thumbnailLoadingTasks) ==>
        old(thumbnailLoadingTasks)[mediaID].isCancelled && !old(thumbnailLoadingTasks)[mediaID].isFinished
    {
      if mediaID in thumbnailLoadingTasks {
        thumbnailLoadingTasks[mediaID].Cancel();
      }
      thumbnailLoadingTasks := thumbnailLoadingTasks - {mediaID};
    }

    /** cancelAllThumbnailTasks: cancels every registered task, then empties the registry. */
    method CancelAllThumbnailTasks()
      requires Valid()
      modifies this`thumbnailLoadingTasks, thumbnailLoadingTasks.Values
      ensures Valid()
      ensures State() == CancelAll(old(State()))
      ensures forall task :: task in old(thumbnailLoadingTasks).Values ==> task.isCancelled && !task.isFinished
    {
      var pending := thumbnailLoadingTasks.Values;
      while pending != {}
        invariant pending <= thumbnailLoadingTasks.Values
        invariant thumbnailLoadingTasks == old(thumbnailLoadingTasks)
        invariant forall task :: task in thumbnailLoadingTasks.Values ==> !task.isFinished
        invariant forall task :: task in thumbnailLoadingTasks.Values - pending ==> task.isCancelled
        decreases pending
      {
        var task :| task in pending;
        task.Cancel();
        pending := pending - {task};
      }
      thumbnailLoadingTasks := map[];
    }
  }

  class PhotoLibraryViewModel {
    var media: seq<Media>
    var isLoading: bool
    var error: Option<MediaError>
    var permissionStatus: PermissionStatus
    var thumbnails: map<MediaID, Thumbnail>
    var thumbnailLoadingTasks: map<MediaID, LoadTask>
    /** Every task loadThumbnail has spawned, in order: one thumbnail fetch each. */
    ghost var spawned: seq<LoadTask>

    /** Registered tasks sit under their own ID, were spawned here, and are neither cancelled nor finished. */
    ghost predicate Valid()
      reads this, thumbnailLoadingTasks.Values
    {
      forall id :: id in thumbnailLoadingTasks ==>
        && thumbnailLoadingTasks[id].mediaID == id
        && thumbnailLoadingTasks[id] in spawned
        && !thumbnailLoadingTasks[id].isCancelled
        && !thumbnailLoadingTasks[id].isFinished
    }

    /** The cache and the registry as one value. */
    function State(): ThumbnailState
      reads this
    {
      ThumbnailState(thumbnails, thumbnailLoadingTasks)
    }

    /** hasError: an error is being shown. */
    predicate HasError(): (has: bool)
      reads this
      ensures has <==> error != None
    {
      error.Some?
    }

    constructor ()
      ensures Valid()
      ensures media == [] && !isLoading && error == None && permissionStatus == NotDetermined
      ensures thumbnails == map[] && thumbnailLoadingTasks == map[] && spawned == []
    {
      media := [];
      isLoading := false;
      error := None;
      permissionStatus := NotDetermined;
      thumbnails := map[];
      thumbnailLoadingTasks := map[];
      spawned := [];
    }

    /** loadPhotos, given what the service's loadMedia returned or threw. */
    method LoadPhotos(loaded: Result<seq<Media>, ThrownError>)
      requires Valid()
      modifies this`media, this`isLoading, this`error
      ensures Valid()
      ensures !isLoading
      ensures loaded.Success? ==> media == loaded.value && error == None
      ensures loaded.Failure? ==> media == [] && error == Some(ErrorShownFor(loaded.error))
      ensures HasError() <==> loaded.Failure?
    {
      isLoading := true;
      error := None;
      match loaded {
        case Success(items) =>
          media := items;
        case Failure(DomainError(mediaError)) =>
          error := Some(mediaError);
          media := [];
        case Failure(OtherError(_)) =>
          error := Some(MediaLoadFailed);
          media := [];
      }
      isLoading := false;
    }

    /**
     * loadThumbnail: skipped when the ID is cached or already loading;
     * otherwise one task is spawned and registered under the ID.
     */
    method LoadThumbnail(mediaID: MediaID, size: Size)
      requires Valid()
      modifies this`thumbnailLoadingTasks, this`spawned
      ensures Valid()
      ensures old(Skips(State(), mediaID)) ==> State() == old(State()) && spawned == old(spawned)
      ensures !old(Skips(State(), mediaID)) ==>
        && mediaID in thumbnailLoadingTasks
        && fresh(thumbnailLoadingTasks[mediaID])
        && thumbnailLoadingTasks[mediaID].size == size
        && State() == Register(old(State()), thumbnailLoadingTasks[mediaID])
        && spawned == old(spawned) + [thumbnailLoadingTasks[mediaID]]
    {
      if mediaID in thumbnails || mediaID in thumbnailLoadingTasks {
        return;
      }
      var task := new LoadTask(mediaID, size);
      thumbnailLoadingTasks := thumbnailLoadingTasks[mediaID := task];
      spawned := spawned + [task];
    }

    /**
     * The body of a spawned task, run once its fetch has returned or thrown.
     * It does not look at its own cancellation, and it clears the registry
     * entry of its ID even when that entry now holds a newer task.
     */
    method CompleteLoad(task: LoadTask, outcome: Result<Thumbnail, ThrownError>)
      requires Valid()
      requires task in spawned && !task.isFinished
      modifies this`thumbnails, this`thumbnailLoadingTasks, task
      ensures Valid()
      ensures task.isFinished && task.isCancelled == old(task.isCancelled)
      ensures State() == Complete(old(State()), task, outcome)
    {
      if outcome.Success? {
        thumbnails := thumbnails[task.mediaID := outcome.value];
      }
      thumbnailLoadingTasks := thumbnailLoadingTasks - {task.mediaID};
      task.isFinished := true;
    }

    /** clearError. */
    method ClearError()
      modifies this`error
      ensures error == None && !HasError()
    {
      error := None;
    }

    /** cancelAllThumbnailTasks: cancels every registered task, then empties the registry. */
    method CancelAllThumbnailTasks()
      requires Valid()
      modifies this`thumbnailLoadingTasks, thumbnailLoadingTasks.Values
      ensures Valid()
      ensures State() == CancelAll(old(State()))
      ensures forall task :: task in old(thumbnailLoadingTasks).Values ==> task.isCancelled && !task.isFinished
    {
      var pending := thumbnailLoadingTasks.Values;
      while pending != {}
        invariant pending <= thumbnailLoadingTasks.Values
        invariant thumbnailLoadingTasks == old(thumbnailLoadingTasks)
        invariant forall task :: task in thumbnailLoadingTasks.Values ==> !task.isFinished
        invariant forall task :: task in thumbnailLoadingTasks.Values - pending ==> task.isCancelled
        decreases pending
      {
        var task :| task in pending;
        task.Cancel();
        pending := pending - {task};
      }
      thumbnailLoadingTasks := map[];
    }
  }

  /**
   * A client of MediaLibraryViewModel: two back-to-back loads of one ID
   * spawn one fetch; after a cancel and a reload, the cancelled task's late
   * success still fills the cache and unregisters the reload's task, which
   * has not finished.
   */
  method ThumbnailScenario(mediaID: MediaID, size: Size, otherSize: Size, thumbnail: Thumbnail)
  {
    var viewModel := new MediaLibraryViewModel();
    viewModel.LoadThumbnail(mediaID, size);
    var first := viewModel.thumbnailLoadingTasks[mediaID];
    viewModel.LoadThumbnail(mediaID, otherSize);
    assert viewModel.spawned == [first] && first.size == size;

    viewModel.CancelThumbnailLoading(mediaID);
    assert first.isCancelled && mediaID !in viewModel.thumbnailLoadingTasks;
    viewModel.LoadThumbnail(mediaID, size);
    var second := viewModel.thumbnailLoadingTasks[mediaID];
    assert viewModel.spawned == [first, second];

    viewModel.CompleteLoad(first, Success(thumbnail));
    assert viewModel.thumbnails[mediaID] == thumbnail;
    assert mediaID !in viewModel.thumbnailLoadingTasks && !second.isFinished;
  }
}
