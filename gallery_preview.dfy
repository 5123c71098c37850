/**
 * The current-image preview: where the current image sits in its gallery
 * category, and whether the previous and next buttons show.
 */
module GalleryPreview {
  import opened Wrappers

  datatype GalleryCategory = Result | User

  datatype GalleryImage = GalleryImage(uuid: string, url: string, width: int, height: int, category: GalleryCategory)

  /** The gallery state the selector reads: the two categories' image lists. */
  datatype GalleryState = GalleryState(
    currentCategory: GalleryCategory,
    currentImage: Option<GalleryImage>,
    intermediateImage: Option<GalleryImage>,
    resultImages: seq<GalleryImage>,
    userImages: seq<GalleryImage>)

  function CategoryImages(g: GalleryState, c: GalleryCategory): seq<GalleryImage> {
    match c
    case Result => g.resultImages
    case User => g.userImages
  }

  /** The list searched: the current image's category, or the results when there is no current image. */
  function SearchedImages(g: GalleryState): (images: seq<GalleryImage>)
    ensures g.currentImage.None? ==> images == g.resultImages
    ensures g.currentImage.Some? ==> images == CategoryImages(g, g.currentImage.value.category)
  {
    CategoryImages(g, if g.currentImage.Some? then g.currentImage.value.category else Result)
  }

  /** The uuid the search compares with; with no current image it is `undefined`, which no uuid equals. */
  function Matches(image: GalleryImage, uuid: Option<string>): bool {
    uuid == Some(image.uuid)
  }

  /** `findIndex`: the first index whose image matches, or -1 when none does. */
  function FindIndex(images: seq<GalleryImage>, uuid: Option<string>): (i: int)
    ensures -1 <= i < |images|
    ensures i >= 0 ==> Matches(images[i], uuid)
    ensures i >= 0 ==> forall j :: 0 <= j < i ==> !Matches(images[j], uuid)
    ensures i == -1 <==> forall j :: 0 <= j < |images| ==> !Matches(images[j], uuid)
    decreases |images|
  {
    if |images| == 0 then -1
    else if Matches(images[0], uuid) then 0
    else
      var k := FindIndex(images[1..], uuid);
      if k == -1 then -1 else k + 1
  }

  function CurrentUuid(g: GalleryState): Option<string> {
    if g.currentImage.Some? then Some(g.currentImage.value.uuid) else None
  }

  /** The selector's result. */
  datatype PreviewInfo = PreviewInfo(
    imageToDisplay: Option<GalleryImage>,
    currentCategory: GalleryCategory,
    isOnFirstImage: bool,
    isOnLastImage: bool,
    shouldShowImageDetails: bool,
    shouldShowPrevImageButton: bool,
    shouldShowNextImageButton: bool)

  /** `imagesSelector`. Its `isNaN` test never fails, since `findIndex` returns an integer. */
  function ImagesSelector(g: GalleryState, shouldShowImageDetails: bool): (p: PreviewInfo)
    ensures p.imageToDisplay == if g.intermediateImage.Some? then g.intermediateImage else g.currentImage
    ensures p.currentCategory == g.currentCategory && p.shouldShowImageDetails == shouldShowImageDetails
    ensures var images := SearchedImages(g);
      p.isOnFirstImage <==> |images| > 0 && Matches(images[0], CurrentUuid(g))
    ensures var images := SearchedImages(g);
      p.isOnLastImage <==>
        || |images| == 0
        || (&& Matches(images[|images| - 1], CurrentUuid(g))
            && forall j :: 0 <= j < |images| - 1 ==> !Matches(images[j], CurrentUuid(g)))
    ensures p.shouldShowPrevImageButton == p.isOnFirstImage
    ensures p.shouldShowNextImageButton == p.isOnLastImage
  {
    var images := SearchedImages(g);
    var currentImageIndex := FindIndex(images, CurrentUuid(g));
    var imagesLength := |images|;
    PreviewInfo(
      imageToDisplay := if g.intermediateImage.Some? then g.intermediateImage else g.currentImage,
      currentCategory := g.currentCategory,
      isOnFirstImage := currentImageIndex == 0,
      isOnLastImage := currentImageIndex == imagesLength - 1,
      shouldShowImageDetails := shouldShowImageDetails,
      shouldShowPrevImageButton := currentImageIndex == 0,
      shouldShowNextImageButton := currentImageIndex == imagesLength - 1)
  }

  /** A current image missing from a non-empty list is neither first nor last. */
  lemma MissingImageIsNeitherEnd(g: GalleryState, details: bool)
    requires |SearchedImages(g)| > 0
    requires forall j :: 0 <= j < |SearchedImages(g)| ==> !Matches(SearchedImages(g)[j], CurrentUuid(g))
    ensures !ImagesSelector(g, details).isOnFirstImage && !ImagesSelector(g, details).isOnLastImage
  {
  }

  /** An empty list counts as "on the last image" and not as "on the first". */
  lemma EmptyListIsLastOnly(g: GalleryState, details: bool)
    requires SearchedImages(g) == []
    ensures ImagesSelector(g, details).isOnLastImage && !ImagesSelector(g, details).isOnFirstImage
  {
  }

  /** The buttons the preview renders. */
  datatype Buttons = Buttons(prev: bool, next: bool)

  /** Both buttons sit in trigger areas shown only with details hidden; each needs the hover flag. */
  function RenderedButtons(p: PreviewInfo, hovering: bool): (b: Buttons)
    ensures b.prev <==> !p.shouldShowImageDetails && hovering && !p.isOnFirstImage
    ensures b.next <==> !p.shouldShowImageDetails && hovering && !p.isOnLastImage
  {
    if p.shouldShowImageDetails then Buttons(false, false)
    else Buttons(hovering && !p.isOnFirstImage, hovering && !p.isOnLastImage)
  }

  /**
   * Hovering a current image that is the one and only image of its list
   * shows neither button; hovering one strictly inside the list shows both.
   */
  lemma {:induction false} ButtonsFollowPosition(g: GalleryState, k: nat)
    requires g.currentImage.Some? && k < |SearchedImages(g)|
    requires SearchedImages(g)[k] == g.currentImage.value
    requires forall j :: 0 <= j < k ==> SearchedImages(g)[j].uuid != g.currentImage.value.uuid
    ensures var b := RenderedButtons(ImagesSelector(g, false), true);
      && (|SearchedImages(g)| == 1 ==> !b.prev && !b.next)
      && (0 < k < |SearchedImages(g)| - 1 ==> b.prev && b.next)
  {
    var images := SearchedImages(g);
    var p := ImagesSelector(g, false);
    assert Matches(images[k], CurrentUuid(g));
    if 0 < k < |images| - 1 {
      assert !Matches(images[0], CurrentUuid(g));
      assert !(forall j :: 0 <= j < |images| - 1 ==> !Matches(images[j], CurrentUuid(g)));
    }
  }

  /** The component's hover flag, raised and lowered by the two trigger areas. */
  class CurrentImagePreview {
    var shouldShowNextPrevButtons: bool

    constructor ()
      ensures !shouldShowNextPrevButtons
    {
      shouldShowNextPrevButtons := false;
    }

    method HandleMouseOver()
      modifies this
      ensures shouldShowNextPrevButtons
    {
      shouldShowNextPrevButtons := true;
    }

    method HandleMouseOut()
      modifies this
      ensures !shouldShowNextPrevButtons
    {
      shouldShowNextPrevButtons := false;
    }

    /** The buttons rendered now, for the selector's result. */
    function Shown(p: PreviewInfo): (b: Buttons)
      reads this
      ensures !shouldShowNextPrevButtons ==> b == Buttons(false, false)
      ensures b.prev ==> !p.isOnFirstImage && !p.shouldShowImageDetails
      ensures b.next ==> !p.isOnLastImage && !p.shouldShowImageDetails
    {
      RenderedButtons(p, shouldShowNextPrevButtons)
    }
  }
}
