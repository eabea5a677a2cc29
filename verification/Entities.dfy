/**
 * The domain value objects of Media.swift, the MediaError enum and the
 * errors a `throws` call can raise.
 */
module Entities {
  import opened Wrappers

  /** The domain errors of the library (MediaError.swift); the message table is not modelled. */
  datatype MediaError =
    | InvalidMediaID
    | InvalidFilePath
    | InvalidThumbnailData
    | PermissionDenied
    | MediaNotFound
    | UnsupportedFormat
    | ThumbnailGenerationFailed
    | MediaLoadFailed

  /**
   * What a Swift `throws` call can raise: a MediaError, or any other error
   * (from PhotoKit, for instance), identified here only by a description.
   */
  datatype ThrownError = DomainError(error: MediaError) | OtherError(description: string)

  /** CGSize, with real coordinates. */
  datatype Size = Size(width: real, height: real)

  /**
   * Media.ID: equality and hashing are those of the wrapped string, taken
   * here as a sequence of code points (Swift's canonical equivalence of
   * strings is not modelled).
   */
  datatype MediaID = MediaID(value: string) {
    /** The `Identifiable` id of a media ID is its value. */
    function Id(): string { value }
  }

  datatype MediaFormat = JPEG | PNG | HEIC

  /** MediaType is declared outside the modelled files; only its identity matters here. */
  datatype MediaType = MediaType(name: string)

  /** Media.Metadata; `capturedAt` is a Date, kept as seconds since the reference date. */
  datatype Metadata = Metadata(format: MediaFormat, capturedAt: real)

  /** Media.Thumbnail: encoded image bytes for one media item at one size. */
  datatype Thumbnail = Thumbnail(mediaID: MediaID, imageData: seq<bv8>, size: Size)

  /** Media: one photo library asset. */
  datatype Media = Media(id: MediaID, mediaType: MediaType, metadata: Metadata, filePath: string)

  /** The throwing initialiser `Media.ID(_:)`: an empty string is not an ID. */
  function NewMediaID(value: string): (r: Result<MediaID, MediaError>)
    ensures r.Failure? <==> value == []
    ensures r.Failure? ==> r.error == InvalidMediaID
    ensures r.Success? ==> r.value.value == value && r.value.Id() == value
  {
    if value == [] then Failure(InvalidMediaID) else Success(MediaID(value))
  }

  /** The throwing initialiser of Media.Thumbnail: empty image data is refused, the size is not checked. */
  function NewThumbnail(mediaID: MediaID, imageData: seq<bv8>, size: Size): (r: Result<Thumbnail, MediaError>)
    ensures r.Failure? <==> imageData == []
    ensures r.Failure? ==> r.error == InvalidThumbnailData
    ensures r.Success? ==> r.value.mediaID == mediaID && r.value.imageData == imageData && r.value.size == size
  {
    if imageData == [] then Failure(InvalidThumbnailData) else Success(Thumbnail(mediaID, imageData, size))
  }

  /** The throwing initialiser of Media: an empty file path is refused. */
  function NewMedia(id: MediaID, mediaType: MediaType, metadata: Metadata, filePath: string): (r: Result<Media, MediaError>)
    ensures r.Failure? <==> filePath == []
    ensures r.Failure? ==> r.error == InvalidFilePath
    ensures r.Success? ==> r.value.id == id && r.value.mediaType == mediaType
                           && r.value.metadata == metadata && r.value.filePath == filePath
  {
    if filePath == [] then Failure(InvalidFilePath) else Success(Media(id, mediaType, metadata, filePath))
  }

  /**
   * Two IDs built from non-empty strings are equal exactly when the strings
   * are equal as code-point sequences.
   */
  lemma MediaIDEquality(a: string, b: string)
    requires a != [] && b != []
    ensures NewMediaID(a).Success? && NewMediaID(b).Success?
    ensures NewMediaID(a).value == NewMediaID(b).value <==> a == b
  {
  }
}
