/** Size arithmetic of the photo grid: item size from the container width, thumbnail pixel size from the item size. */
module GridLayoutCalculator {
  import opened Entities

  /** The default quality multiplier of calculateThumbnailSize. */
  const DefaultQualityMultiplier: real := 3.0

  /**
   * calculateItemSize: `columns` equal square items with `spacing` between
   * neighbours fill `containerWidth` exactly.
   */
  function CalculateItemSize(containerWidth: real, columns: real, spacing: real): (item: Size)
    requires columns != 0.0
    ensures item.width == item.height
    ensures columns * item.width + (columns - 1.0) * spacing == containerWidth
  {
    var totalSpacing := spacing * (columns - 1.0);
    var itemWidth := (containerWidth - totalSpacing) / columns;
    Size(itemWidth, itemWidth)
  }

  /** The item width is the only width for which the columns and their gaps fill the container. */
  lemma ItemWidthIsUnique(containerWidth: real, columns: real, spacing: real, w: real)
    requires columns != 0.0
    requires columns * w + (columns - 1.0) * spacing == containerWidth
    ensures CalculateItemSize(containerWidth, columns, spacing).width == w
  {
    var item := CalculateItemSize(containerWidth, columns, spacing);
    assert columns * item.width == columns * w;
  }

  /** Without spacing the container is split evenly; with one column the item is the container width. */
  lemma ItemSizeSpecialCases(containerWidth: real, columns: real, spacing: real)
    requires columns != 0.0
    ensures spacing == 0.0 ==> CalculateItemSize(containerWidth, columns, spacing).width == containerWidth / columns
    ensures columns == 1.0 ==> CalculateItemSize(containerWidth, columns, spacing).width == containerWidth
  {
  }

  /** Four columns 2 points apart in a 320-point container are 78.5 points wide. */
  lemma ItemSizeExample()
    ensures CalculateItemSize(320.0, 4.0, 2.0) == Size(78.5, 78.5)
  {
  }

  /** calculateThumbnailSize: a square whose side is the item width scaled by quality and screen scale. */
  function CalculateThumbnailSize(itemSize: Size, scale: real, qualityMultiplier: real): (target: Size)
    ensures target.width == target.height
    ensures target.width == itemSize.width * qualityMultiplier * scale
  {
    var side := itemSize.width * qualityMultiplier * scale;
    Size(side, side)
  }

  /** The item height plays no part in the thumbnail size. */
  lemma ThumbnailIgnoresItemHeight(a: Size, b: Size, scale: real, qualityMultiplier: real)
    requires a.width == b.width
    ensures CalculateThumbnailSize(a, scale, qualityMultiplier) == CalculateThumbnailSize(b, scale, qualityMultiplier)
  {
  }

  /** With the default multiplier, a 60-point item at scale 2 asks for a 360-pixel thumbnail. */
  lemma DefaultQualityExample()
    ensures CalculateThumbnailSize(Size(60.0, 60.0), 2.0, DefaultQualityMultiplier) == Size(360.0, 360.0)
  {
  }
}
