# Photo grid core: preheat geometry, thumbnail load registry, permission gate

A Dafny model of the logic behind a scrollable photo-library grid (the
`MediaLibrary` Swift package), with proofs of what it promises:

- **Preheat geometry** (`RectangleDifference.dfy`): `calculateDifferences`
  splits the move of the preheat window into the vertical strips that enter it
  and the strips that leave it; `shouldUpdateCache` is a strict threshold on
  the move of the vertical midpoint; `createPreheatRect` grows the visible
  rectangle symmetrically. Coordinates are reals. `calculateDifferences` is a
  method that builds its two lists by appends. It is proved equal to the
  function `Differences`. The lemmas prove that the strips cover exactly the
  range gained and the range lost.
- **Thumbnail load registry** (`ThumbnailLoading.dfy`, `ViewModels.dfy`):
  `MediaLibraryViewModel` and its older twin `PhotoLibraryViewModel` are
  classes whose methods update `media`, `isLoading`, `error`, `thumbnails` and
  `thumbnailLoadingTasks` in place. A spawned Swift `Task` becomes two events:
  - `LoadThumbnail` registers a `LoadTask` handle synchronously.
  - `CompleteLoad(task, outcome)` later runs the task body with what its fetch
    returned or threw.

  Each method's new state is tied to a pure transition on `ThumbnailState`.
  The lemmas about those transitions give the dedup rule (keyed by media ID
  only, size ignored), retry after failure or cancel, and the two behaviours
  the code has:
  - a success that arrives after a cancel is still stored;
  - a completion clears the registry entry of its ID even when that entry
    belongs to a newer task.
- **Permission gate** (`AppService.dfy`): `loadMedia` of
  `MediaLibraryAppServiceImpl` and of `MediaLibraryService` (the two bodies are
  identical, MediaLibrary/Sources/Application/Services/MediaLibraryService.swift:24-50)
  as a function of three inputs: the current status, the status a request
  would return, and the repository's outcome. It records the collaborator
  calls it makes.
- **Value objects and arithmetic** (`Entities.dfy`, `GridLayout.dfy`,
  `MediaItems.dfy`): the throwing initialisers of `Media.ID`,
  `Media.Thumbnail` and `Media`; grid item and thumbnail sizes; `MediaItem`
  equality and hashing.

Behaviours of the code that the model keeps as written:
- A load that was cancelled still fills the cache if its fetch succeeds. The
  task body never checks `Task.isCancelled`.
- Completion removes the registry entry unconditionally. So a cancelled task
  that finishes after a reload unregisters the reload's task. A further load
  then starts a second fetch while the reload's fetch has not finished
  (`StaleCompletionAllowsSecondLiveLoad`, and `ViewModels.ThumbnailScenario`
  on the class). At most one fetch in flight per ID therefore holds only
  while no cancelled task is still running.
- No cache-window controller exists in the code. The scroll handler is empty
  (MediaLibrary/Sources/Presentation/Components/MediaLibraryCollectionView.swift:209-211).
  The caching hooks are only declared
  (MediaLibrary/Sources/Application/Services/MediaLibraryAppService.swift:13-19).
  Only the geometry is modelled.
- `createPreheatRect` grows (0, 400, 200, 200) to (0, 300, 200, 400). This is
  the window that `PreheatAfterScroll`, `ScrollIsSignificant` and
  `ScrollDifferences` use.
- A strip is built from its window's `origin.x` and its `width`, which
  `CGRect` standardises. For a window stored with a negative width, the strip
  therefore lies to the right of the window's columns rather than over them
  (`StripColumns`, `NegativeWidthStripStartsAtOrigin`).

## Model

| member | source | states |
|---|---|---|
| Entities.NewMediaID | MediaLibrary/Sources/Domain/Entities/Media.swift:6-15 | fails with invalidMediaID exactly when the string is empty; otherwise `value` and `id` are the string |
| Entities.MediaIDEquality | MediaLibrary/Sources/Domain/Entities/Media.swift:6-7 | two IDs built from non-empty strings are equal iff the strings are equal |
| Entities.NewThumbnail | MediaLibrary/Sources/Domain/Entities/Media.swift:35-43 | fails with invalidThumbnailData exactly when the image data is empty; otherwise stores ID, data and size unchanged (size not validated) |
| Entities.NewMedia | MediaLibrary/Sources/Domain/Entities/Media.swift:55-64 | fails with invalidFilePath exactly when the path is empty; otherwise stores all four fields unchanged |
| RectangleDifferenceCalculator.Differences | MediaLibrary/Sources/Domain/Utils/RectangleDifferenceCalculator.swift:21-74 | non-intersecting windows give exactly added = [new], removed = [old]; at most two strips in all; with an overlap every added strip has new's origin x and standardised width, every removed strip old's, and every strip a positive height |
| RectangleDifferenceCalculator.CalculateDifferences | MediaLibrary/Sources/Domain/Utils/RectangleDifferenceCalculator.swift:21-74 | the append-by-append construction returns exactly `Differences(old, new)` |
| RectangleDifferenceCalculator.AddedCoverGainedRange | MediaLibrary/Sources/Domain/Utils/RectangleDifferenceCalculator.swift:29-47 | with an overlap, a y lies in some added strip iff it lies in the new window and not in the old one |
| RectangleDifferenceCalculator.RemovedCoverLostRange | MediaLibrary/Sources/Domain/Utils/RectangleDifferenceCalculator.swift:49-67 | with an overlap, a y lies in some removed strip iff it lies in the old window and not in the new one |
| RectangleDifferenceCalculator.DifferencesAccountForBothWindows | MediaLibrary/Sources/Domain/Utils/RectangleDifferenceCalculator.swift:25-69 | the new window lies within the old window plus the added strips; the old window minus the removed strips lies within the new window |
| RectangleDifferenceCalculator.StripColumns | MediaLibrary/Sources/Domain/Utils/RectangleDifferenceCalculator.swift:31-66 | every strip spans from its window's origin x over the window's standardised width; for a window of non-negative width that is exactly its column span |
| RectangleDifferenceCalculator.NegativeWidthStripStartsAtOrigin | MediaLibrary/Sources/Domain/Utils/RectangleDifferenceCalculator.swift:31-37 | old (0,0,100,100) and new (100,0,−100,150) intersect, and the only strip is the added (100,100,100,50), to the right of new's columns |
| RectangleDifferenceCalculator.IdenticalWindows | MediaLibrary/Tests/MediaLibraryTests/RectangleDifferenceCalculatorTests.swift:117-128 | a rectangle with area compared with itself yields no added and no removed strips; a degenerate one is swapped whole |
| RectangleDifferenceCalculator.ShouldUpdateCache | MediaLibrary/Sources/Domain/Utils/RectangleDifferenceCalculator.swift:82-89 | true iff either midpoint exceeds the other by more than the threshold |
| RectangleDifferenceCalculator.ShouldUpdateCacheSymmetric | MediaLibrary/Sources/Domain/Utils/RectangleDifferenceCalculator.swift:87-88 | swapping current and previous does not change the decision |
| RectangleDifferenceCalculator.ShouldUpdateCacheStrict | MediaLibrary/Tests/MediaLibraryTests/RectangleDifferenceCalculatorTests.swift:162-175 | a midpoint move of exactly the threshold gives false, a longer one true |
| RectangleDifferenceCalculator.CreatePreheatRect | MediaLibrary/Sources/Domain/Utils/RectangleDifferenceCalculator.swift:96-101 | keeps x, width and midY; y moves up by ratio·height; height becomes height·(1+2·ratio); the result contains the visible rect; ratio 0 returns it unchanged |
| RectangleDifferenceCalculator.PreheatDefaultExpansion | MediaLibrary/Tests/MediaLibraryTests/RectangleDifferenceCalculatorTests.swift:179-189 | the default ratio 0.5 grows (0,100,200,200) to (0,0,200,400) |
| RectangleDifferenceCalculator.PreheatAfterScroll | MediaLibrary/Sources/Domain/Utils/RectangleDifferenceCalculator.swift:98-100 | the default ratio grows (0,400,200,200) to (0,300,200,400) |
| RectangleDifferenceCalculator.ScrollIsSignificant | MediaLibrary/Sources/Domain/Utils/RectangleDifferenceCalculator.swift:80-88 | a 300-point midpoint move exceeds a threshold of a third of a 200-point viewport |
| RectangleDifferenceCalculator.ScrollDifferences | MediaLibrary/Sources/Domain/Utils/RectangleDifferenceCalculator.swift:29-67 | moving (0,0,200,400) to (0,300,200,400) adds (0,400,200,300) and removes (0,0,200,300) |
| MediaLibraryAppService.LoadMedia | MediaLibrary/Sources/Application/Services/MediaLibraryAppServiceImpl.swift:26-42 | checks the status first; requests permission exactly once iff the status is notDetermined; fetches iff the status (or, when undetermined, the requested status) is authorized or limited, and then returns the repository's result or error unchanged; otherwise fails with permissionDenied |
| MediaLibraryAppService.LoadThumbnail | MediaLibrary/Sources/Application/Services/MediaLibraryAppServiceImpl.swift:50-52 | one fetchThumbnail call with the same ID and size, no permission call, its result or error passed on unchanged |
| MediaLibraryAppService.RefusedStatusNeverFetches | MediaLibrary/Sources/Application/Services/MediaLibraryService.swift:33-34 | denied or restricted: only the status check is made and the run fails with permissionDenied |
| MediaLibraryAppService.GrantedStatusPassesFetchThrough | MediaLibrary/Sources/Application/Services/MediaLibraryService.swift:35-39 | authorized or limited: no request, one fetch, and its outcome is the result |
| MediaLibraryAppService.UndeterminedStatusAsksOnce | MediaLibrary/Sources/Application/Services/MediaLibraryService.swift:28-32 | notDetermined: check then request; success only if the request grants; a refused request fails with permissionDenied; the requested status matters in no other case |
| GridLayoutCalculator.CalculateItemSize | MediaLibrary/Sources/Presentation/Utils/GridLayoutCalculator.swift:11-19 | a square item; columns·w + (columns−1)·spacing equals the container width |
| GridLayoutCalculator.ItemWidthIsUnique | MediaLibrary/Sources/Presentation/Utils/GridLayoutCalculator.swift:16-17 | any width that fills the container with the given columns and spacing is the computed width |
| GridLayoutCalculator.ItemSizeSpecialCases | MediaLibrary/Tests/PresentationTests/GridLayoutCalculatorTests.swift:46-70 | zero spacing gives containerWidth / columns; one column gives containerWidth |
| GridLayoutCalculator.ItemSizeExample | MediaLibrary/Tests/PresentationTests/GridLayoutCalculatorTests.swift:7-18 | 320 points, 4 columns, spacing 2 give 78.5-point squares |
| GridLayoutCalculator.CalculateThumbnailSize | MediaLibrary/Sources/Presentation/Utils/GridLayoutCalculator.swift:27-34 | a square of side itemWidth·qualityMultiplier·scale |
| GridLayoutCalculator.ThumbnailIgnoresItemHeight | MediaLibrary/Sources/Presentation/Utils/GridLayoutCalculator.swift:32-33 | items of equal width get the same thumbnail size whatever their heights |
| GridLayoutCalculator.DefaultQualityExample | MediaLibrary/Tests/PresentationTests/GridLayoutCalculatorTests.swift:113-123 | with the default multiplier 3.0, a 60-point item at scale 2 gives 360 |
| MediaItems.NewMediaItem | MediaLibrary/Sources/Presentation/Models/MediaItem.swift:13-16 | keeps the media; isSelected defaults to false |
| MediaItems.Equal | MediaLibrary/Sources/Presentation/Models/MediaItem.swift:20-28 | equal items feed the hasher the same inputs, so they hash alike (Hashable's requirement); items that differ in selection are never equal |
| MediaItems.HashInputs | MediaLibrary/Sources/Presentation/Models/MediaItem.swift:20-23 | the hasher is fed the media ID and nothing else |
| MediaItems.EqualIsEquivalence | MediaLibrary/Sources/Presentation/Models/MediaItem.swift:25-28 | `==` (same media ID and same selection) is reflexive, symmetric and transitive |
| MediaItems.SelectionChangesEqualityNotHash | MediaLibrary/Sources/Presentation/Models/MediaItem.swift:20-28 | flipping isSelected makes the item unequal to itself before, with the same hash |
| ThumbnailLoading.LoadTask.Cancel | MediaLibrary/Sources/Presentation/ViewModels/MediaLibraryViewModel.swift:101 | marks the task cancelled and nothing else; the task body keeps running |
| ThumbnailLoading.Skips | MediaLibrary/Sources/Presentation/ViewModels/MediaLibraryViewModel.swift:61-63 | a load goes ahead only for an ID neither cached nor registered; an uncached ID is skipped only for a registered task that loads that same ID |
| ThumbnailLoading.Register | MediaLibrary/Sources/Presentation/ViewModels/MediaLibraryViewModel.swift:59-91 | unchanged state when the ID is cached or already registered; otherwise the task is registered under its ID and the cache and all other entries stay as they were; keeps tasks keyed by their own ID |
| ThumbnailLoading.Complete | MediaLibrary/Sources/Presentation/ViewModels/MediaLibraryViewModel.swift:66-88 | success stores the thumbnail under the task's ID, failure leaves the cache alone; either way the ID's registry entry is removed |
| ThumbnailLoading.CancelOne | MediaLibrary/Sources/Presentation/ViewModels/MediaLibraryViewModel.swift:100-103 | removes only the ID's registry entry; cache and other entries unchanged |
| ThumbnailLoading.CancelAll | MediaLibrary/Sources/Presentation/ViewModels/MediaLibraryViewModel.swift:106-109 | empties the registry, keeps the cache |
| ThumbnailLoading.ErrorShownFor | MediaLibrary/Sources/Presentation/ViewModels/MediaLibraryViewModel.swift:44-50 | a MediaError is shown as itself, any other error as mediaLoadFailed |
| ThumbnailLoading.BackToBackLoadsRegisterOnce | MediaLibrary/Sources/Presentation/ViewModels/MediaLibraryViewModel.swift:61-63 | a second load of an ID, at any size, changes nothing after the first |
| ThumbnailLoading.RetryAfterFailure | MediaLibrary/Sources/Presentation/ViewModels/MediaLibraryViewModel.swift:61-90 | after a failed completion the ID is neither cached nor registered, and the next load registers its task |
| ThumbnailLoading.RetryAfterCancel | MediaLibrary/Sources/Presentation/ViewModels/MediaLibraryViewModel.swift:59-103 | after cancelThumbnailLoading an uncached ID is loaded again by the next call |
| ThumbnailLoading.LoadedIsNeverRefetched | MediaLibrary/Sources/Presentation/ViewModels/MediaLibraryViewModel.swift:61-77 | after a successful completion every load of that ID is skipped |
| ThumbnailLoading.SuccessAfterCancelIsStored | MediaLibrary/Sources/Presentation/ViewModels/MediaLibraryViewModel.swift:66-77 | a success completing after a cancel still puts the thumbnail in the cache |
| ThumbnailLoading.StaleCompletionAllowsSecondLiveLoad | MediaLibrary/Sources/Presentation/ViewModels/MediaLibraryViewModel.swift:85-87 | load, cancel, reload, then the first task completes: the reload's entry is gone and a third load registers while the reload is unfinished |
| ViewModels.MediaLibraryViewModel.HasError | MediaLibrary/Sources/Presentation/ViewModels/MediaLibraryViewModel.swift:25-27 | true exactly when an error is set |
| ViewModels.MediaLibraryViewModel.constructor | MediaLibrary/Sources/Presentation/ViewModels/MediaLibraryViewModel.swift:12-33 | no media, not loading, no error, permission notDetermined, empty cache and registry |
| ViewModels.MediaLibraryViewModel.LoadPhotos | MediaLibrary/Sources/Presentation/ViewModels/MediaLibraryViewModel.swift:38-53 | ends not loading; success sets media to the result and clears the error; failure empties media and sets the shown error; hasError iff the load failed |
| ViewModels.MediaLibraryViewModel.LoadThumbnail | MediaLibrary/Sources/Presentation/ViewModels/MediaLibraryViewModel.swift:59-91 | skipped (no state change, no fetch) when cached or registered; otherwise exactly one fresh task with the requested size is spawned and registered, as `Register` says |
| ViewModels.MediaLibraryViewModel.CompleteLoad | MediaLibrary/Sources/Presentation/ViewModels/MediaLibraryViewModel.swift:66-88 | the task body: new state is `Complete` of the old one; the task is finished and its cancellation flag untouched |
| ViewModels.MediaLibraryViewModel.ClearError | MediaLibrary/Sources/Presentation/ViewModels/MediaLibraryViewModel.swift:94-96 | error is nil and hasError false |
| ViewModels.MediaLibraryViewModel.CancelThumbnailLoading | MediaLibrary/Sources/Presentation/ViewModels/MediaLibraryViewModel.swift:100-103 | the ID's registered task, if any, is cancelled; new state is `CancelOne` of the old one |
| ViewModels.MediaLibraryViewModel.CancelAllThumbnailTasks | MediaLibrary/Sources/Presentation/ViewModels/MediaLibraryViewModel.swift:106-109 | every registered task is cancelled (loop over the registry's values); new state is `CancelAll` of the old one |
| ViewModels.PhotoLibraryViewModel.HasError | MediaLibrary/Sources/Presentation/ViewModels/PhotoLibraryViewModel.swift:25-27 | true exactly when an error is set |
| ViewModels.PhotoLibraryViewModel.constructor | MediaLibrary/Sources/Presentation/ViewModels/PhotoLibraryViewModel.swift:12-33 | no media, not loading, no error, empty cache and registry |
| ViewModels.PhotoLibraryViewModel.LoadPhotos | MediaLibrary/Sources/Presentation/ViewModels/PhotoLibraryViewModel.swift:38-53 | as for MediaLibraryViewModel: not loading after; media and error from the result |
| ViewModels.PhotoLibraryViewModel.LoadThumbnail | MediaLibrary/Sources/Presentation/ViewModels/PhotoLibraryViewModel.swift:59-89 | no-op when cached or registered, otherwise one task spawned and registered |
| ViewModels.PhotoLibraryViewModel.CompleteLoad | MediaLibrary/Sources/Presentation/ViewModels/PhotoLibraryViewModel.swift:66-86 | stores the thumbnail only on success; always removes the ID's registry entry |
| ViewModels.PhotoLibraryViewModel.ClearError | MediaLibrary/Sources/Presentation/ViewModels/PhotoLibraryViewModel.swift:92-94 | error is nil and hasError false |
| ViewModels.PhotoLibraryViewModel.CancelAllThumbnailTasks | MediaLibrary/Sources/Presentation/ViewModels/PhotoLibraryViewModel.swift:97-100 | every registered task cancelled, registry empty, cache untouched |

## Left out

- Swift concurrency: task scheduling, `MainActor.run` hops, `[weak self]` and `deinit`. So the model has no path where the view model is gone and a finished fetch is dropped. `deinit`'s cancel-all is not modelled.
- The intermediate state of `loadPhotos` while it awaits (`isLoading` true, `error` nil). `LoadPhotos` receives the service's outcome at once.
- Notifications: `objectWillChange.send()` and the `@Published` publishers are UI plumbing. The `print` of a failed thumbnail load is logging.
- `permissionStatus` in the view models is never updated by the modelled code. It is kept at its initial value.
- The cache-window controller (preheat bookkeeping and caching hints): it is not implemented in the code.
- `startCaching`, `stopCaching` and `resetCache`: they are only declared, and their PhotoKit implementations are not part of this model.
- The repository and permission-service implementations (PhotoKit), the UIKit/SwiftUI views and controllers, selection mode (the view model's `isSelectionMode` is read by MediaLibraryView.swift and its `toggleSelection` is called by the collection view, but neither is defined in MediaLibraryViewModel.swift), dependency wiring, error message tables and `ThumbnailConverter`.
- `CGFloat` is IEEE-754. The model uses exact reals, so there is no rounding, infinity or NaN.
- RectangleDifferenceCalculator.Intersects: CoreGraphics is not part of this model. `intersects` is taken to mean an overlap of positive area on both axes. So rectangles that only touch, or have zero width or height, do not intersect.
- RectangleDifferenceCalculator.CreatePreheatRect: requires a non-negative width, a non-negative height and a non-negative ratio. Under those, `insetBy` neither standardises nor returns the null rectangle. Those other cases are not modelled.
- GridLayoutCalculator.CalculateItemSize: requires `columns != 0`. A division by zero gives an IEEE infinity or NaN, which reals cannot express.
- Entities.MediaIDEquality: IDs, and the dictionary keys of the thumbnail cache and the task registry, are compared as code-point sequences. Swift compares strings by Unicode canonical equivalence, so `"é"` and `"e\u{301}"` name one ID in the code but two in the model.
- MediaType's declaration is not part of this model. It is kept as an opaque name.
