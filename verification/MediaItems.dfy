/**
 * MediaItem, the diffable-data-source item of the grid: equality looks at
 * the media ID and the selection flag, hashing only at the media ID.
 */
module MediaItems {
  import opened Entities

  datatype MediaItem = MediaItem(media: Media, isSelected: bool)

  /** `MediaItem.init(media:isSelected:)` with the default argument: items start unselected. */
  function NewMediaItem(media: Media): (item: MediaItem)
    ensures item.media == media && !item.isSelected
  {
    MediaItem(media, false)
  }

  /**
   * The `==` of MediaItem. Hashable's requirement holds: equal items feed the
   * hasher the same inputs, so they hash alike under any hasher.
   */
  predicate Equal(lhs: MediaItem, rhs: MediaItem): (eq: bool)
    ensures eq ==> HashInputs(lhs) == HashInputs(rhs)
    ensures lhs.isSelected != rhs.isSelected ==> !eq
  {
    lhs.media.id == rhs.media.id && lhs.isSelected == rhs.isSelected
  }

  /** What `hash(into:)` feeds the hasher, in order: the media ID alone. */
  function HashInputs(item: MediaItem): (inputs: seq<MediaID>)
    ensures |inputs| == 1 && inputs[0] == item.media.id
  {
    [item.media.id]
  }

  /** `==` is an equivalence relation. */
  lemma EqualIsEquivalence(a: MediaItem, b: MediaItem, c: MediaItem)
    ensures Equal(a, a)
    ensures Equal(a, b) ==> Equal(b, a)
    ensures Equal(a, b) && Equal(b, c) ==> Equal(a, c)
  {
  }

  /** Toggling the selection makes an item unequal to what it was, with the same hash. */
  lemma SelectionChangesEqualityNotHash(a: MediaItem)
    ensures !Equal(a, a.(isSelected := !a.isSelected))
    ensures HashInputs(a) == HashInputs(a.(isSelected := !a.isSelected))
  {
  }
}
