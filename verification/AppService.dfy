/**
 * The application service between the screens and the photo library:
 * `loadMedia` checks (and if need be requests) permission before it
 * enumerates the library, and `loadThumbnail` delegates to the repository.
 * The permission service and the repository are collaborators: what they
 * return is given as input, and each run records the calls it made.
 */
module MediaLibraryAppService {
  import opened Wrappers
  import opened Entities

  /** PhotoLibraryPermissionStatus. */
  datatype PermissionStatus = Authorized | Limited | Denied | Restricted | NotDetermined

  /** A call the service makes on one of its collaborators. */
  datatype Call =
    | CheckPermissionStatus
    | RequestPermission
    | FetchMedia
    | FetchThumbnail(mediaID: MediaID, size: Size)

  /** One run of a service operation: the collaborator calls in order, and what it returned or threw. */
  datatype Run<T> = Run(calls: seq<Call>, result: Result<T, ThrownError>)

  /** The statuses under which the library may be read. */
  predicate Grants(status: PermissionStatus) {
    status == Authorized || status == Limited
  }

  /**
   * loadMedia, given the status the permission service reports, the status
   * a permission request would return, and what fetchMedia returns or throws.
   */
  function LoadMedia(current: PermissionStatus, requested: PermissionStatus,
                     fetched: Result<seq<Media>, ThrownError>): (run: Run<seq<Media>>)
    ensures |run.calls| >= 1 && run.calls[0] == CheckPermissionStatus
    ensures RequestPermission in run.calls <==> current == NotDetermined
    ensures multiset(run.calls)[RequestPermission] <= 1
    ensures FetchMedia in run.calls <==> Grants(current) || (current == NotDetermined && Grants(requested))
    ensures FetchMedia in run.calls ==> run.calls[|run.calls| - 1] == FetchMedia && run.result == fetched
    ensures FetchMedia !in run.calls ==> run.result == Failure(DomainError(PermissionDenied))
  {
    match current
    case NotDetermined =>
      if Grants(requested) then Run([CheckPermissionStatus, RequestPermission, FetchMedia], fetched)
      else Run([CheckPermissionStatus, RequestPermission], Failure(DomainError(PermissionDenied)))
    case Denied | Restricted =>
      Run([CheckPermissionStatus], Failure(DomainError(PermissionDenied)))
    case Authorized | Limited =>
      Run([CheckPermissionStatus, FetchMedia], fetched)
  }

  /** loadThumbnail: no permission check, one repository call, its outcome passed on unchanged. */
  function LoadThumbnail(mediaID: MediaID, size: Size,
                         fetched: Result<Thumbnail, ThrownError>): (run: Run<Thumbnail>)
    ensures run.calls == [FetchThumbnail(mediaID, size)]
    ensures CheckPermissionStatus !in run.calls && RequestPermission !in run.calls
    ensures run.result == fetched
  {
    Run([FetchThumbnail(mediaID, size)], fetched)
  }

  /** Denied or restricted access fails with permissionDenied without asking again or touching the library. */
  lemma RefusedStatusNeverFetches(current: PermissionStatus, requested: PermissionStatus,
                                  fetched: Result<seq<Media>, ThrownError>)
    requires current == Denied || current == Restricted
    ensures LoadMedia(current, requested, fetched) == Run([CheckPermissionStatus], Failure(DomainError(PermissionDenied)))
  {
  }

  /** Granted access asks nothing and returns exactly what the repository returns or throws. */
  lemma GrantedStatusPassesFetchThrough(current: PermissionStatus, requested: PermissionStatus,
                                        fetched: Result<seq<Media>, ThrownError>)
    requires Grants(current)
    ensures LoadMedia(current, requested, fetched) == Run([CheckPermissionStatus, FetchMedia], fetched)
  {
  }

  /**
   * An undetermined status asks once; only a grant lets the enumeration go
   * ahead, and the requested status is looked at in no other case.
   */
  lemma UndeterminedStatusAsksOnce(requested: PermissionStatus, other: PermissionStatus,
                                   fetched: Result<seq<Media>, ThrownError>)
    ensures LoadMedia(NotDetermined, requested, fetched).calls[..2] == [CheckPermissionStatus, RequestPermission]
    ensures LoadMedia(NotDetermined, requested, fetched).result.Success? ==> Grants(requested)
    ensures !Grants(requested) ==> LoadMedia(NotDetermined, requested, fetched).result == Failure(DomainError(PermissionDenied))
    ensures forall current :: current != NotDetermined ==>
              LoadMedia(current, requested, fetched) == LoadMedia(current, other, fetched)
  {
  }
}
