/**
 * The clothing gallery (src/ClothingGallery.js): the list of clothing images
 * fetched for the signed-in user, a search box whose committed query filters
 * the list, a window of six thumbnails, and the selected image.
 *
 * Search terms are compared case-insensitively.  A term made only of decimal
 * digits must equal an image's clothing number exactly; any other term must
 * occur in the number followed by the version, or in the image's name.
 */
module ClothingGallery {
  import opened Wrappers

  /**
   * A gallery item.  The optional fields are `None` when the backend sends
   * no value (or an empty one); they then read as "".
   */
  datatype ClothingImage = ClothingImage(
    id: int,
    name: Option<string>,
    clothingNumber: Option<string>,
    version: Option<string>,
    imageUrl: string)

  /** Number of thumbnails shown at a time. */
  const ItemsPerPage: nat := 6

  const FetchError := "Failed to load clothing images. Please ensure you are logged in and authorized."

  // ---------------------------------------------------------------------
  // Text helpers
  // ---------------------------------------------------------------------

  function LowerChar(c: char): char {
    if 'A' <= c <= 'Z' then (c as int - 'A' as int + 'a' as int) as char else c
  }

  /** Lower-cases the ASCII letters A-Z and keeps every other character. */
  function ToLower(s: string): (r: string)
    ensures |r| == |s|
    ensures forall i :: 0 <= i < |s| ==> r[i] == LowerChar(s[i])
  {
    if s == [] then [] else [LowerChar(s[0])] + ToLower(s[1..])
  }

  /** `/^\d+$/`: non-empty and made only of the digits 0-9. */
  predicate IsDigits(s: string) {
    |s| > 0 && forall i :: 0 <= i < |s| ==> '0' <= s[i] <= '9'
  }

  /** A missing field reads as the empty string. */
  function FieldText(field: Option<string>): string {
    match field
    case None => ""
    case Some(text) => text
  }

  /** `term` occurs in `s` starting at `i`. */
  predicate OccursAt(s: string, term: string, i: nat) {
    i + |term| <= |s| && s[i..i + |term|] == term
  }

  /** `term` occurs somewhere in `s`. */
  ghost predicate Contains(s: string, term: string) {
    exists i: nat :: OccursAt(s, term, i)
  }

  /** `String.prototype.includes`, computed by scanning `s` from the left. */
  function Includes(s: string, term: string): (r: bool)
    ensures r <==> Contains(s, term)
  {
    if |term| <= |s| && s[..|term|] == term then
      assert OccursAt(s, term, 0);
      true
    else if s == [] then
      assert forall i: nat :: !OccursAt(s, term, i);
      false
    else
      var r := Includes(s[1..], term);
      assert r ==> exists i: nat :: OccursAt(s, term, i) by {
        if r {
          var i: nat :| OccursAt(s[1..], term, i);
          assert s[i + 1..i + 1 + |term|] == s[1..][i..i + |term|];
          assert OccursAt(s, term, i + 1);
        }
      }
      assert (exists i: nat :: OccursAt(s, term, i)) ==> r by {
        if exists i: nat :: OccursAt(s, term, i) {
          var i: nat :| OccursAt(s, term, i);
          assert i != 0;
          assert s[1..][i - 1..i - 1 + |term|] == s[i..i + |term|];
          assert OccursAt(s[1..], term, i - 1);
        }
      }
      r
  }

  // ---------------------------------------------------------------------
  // The search filter
  // ---------------------------------------------------------------------

  /**
   * Whether `image` passes the committed search `currentSearch`: always when
   * the search is empty; for an all-digit term, exactly when the lower-cased
   * number equals it; otherwise exactly when the lower-cased term occurs in
   * the lower-cased number followed by the version, or in the lower-cased name.
   */
  predicate Matches(image: ClothingImage, currentSearch: string): (r: bool)
    ensures currentSearch == "" ==> r
    ensures currentSearch != "" && IsDigits(ToLower(currentSearch)) ==>
              (r <==> ToLower(FieldText(image.clothingNumber)) == ToLower(currentSearch))
    ensures currentSearch != "" && !IsDigits(ToLower(currentSearch)) ==>
              (r <==> Contains(ToLower(FieldText(image.clothingNumber)) + ToLower(FieldText(image.version)), ToLower(currentSearch))
                      || Contains(ToLower(FieldText(image.name)), ToLower(currentSearch)))
  {
    if currentSearch == "" then true
    else
      var lowerCaseSearchTerm := ToLower(currentSearch);
      var clothingNumber := ToLower(FieldText(image.clothingNumber));
      var versionName := ToLower(FieldText(image.version));
      var fullClothingIdentifier := clothingNumber + versionName;
      var imageName := ToLower(FieldText(image.name));
      if IsDigits(lowerCaseSearchTerm) then clothingNumber == lowerCaseSearchTerm
      else Includes(fullClothingIdentifier, lowerCaseSearchTerm) || Includes(imageName, lowerCaseSearchTerm)
  }

  /** `a` is `b` with some elements left out, the rest in their order. */
  ghost predicate IsSubsequence<T>(a: seq<T>, b: seq<T>) {
    a == [] || (b != [] && (IsSubsequence(a, b[1..]) || (a[0] == b[0] && IsSubsequence(a[1..], b[1..]))))
  }

  /** `clothingImages.filter(...)`: the images that pass the search, in list order. */
  function FilterImages(images: seq<ClothingImage>, currentSearch: string): (r: seq<ClothingImage>)
    ensures |r| <= |images|
    ensures forall x :: x in r <==> x in images && Matches(x, currentSearch)
    ensures IsSubsequence(r, images)
  {
    if images == [] then []
    else
      var rest := FilterImages(images[1..], currentSearch);
      assert forall x :: x in images <==> x == images[0] || x in images[1..];
      if Matches(images[0], currentSearch) then [images[0]] + rest else rest
  }

  /** Filtering one more image extends the result by that image exactly when it matches. */
  lemma {:induction false} FilterAppend(images: seq<ClothingImage>, image: ClothingImage, currentSearch: string)
    ensures FilterImages(images + [image], currentSearch)
            == FilterImages(images, currentSearch) + if Matches(image, currentSearch) then [image] else []
  {
    if images != [] {
      assert (images + [image])[1..] == images[1..] + [image];
      FilterAppend(images[1..], image, currentSearch);
    }
  }

  /** With no committed search every image is shown. */
  lemma {:induction false} EmptySearchKeepsAll(images: seq<ClothingImage>)
    ensures FilterImages(images, "") == images
  {
    if images != [] {
      EmptySearchKeepsAll(images[1..]);
    }
  }

  /** Searches that differ only in letter case select the same images. */
  lemma SearchIsCaseInsensitive(images: seq<ClothingImage>, search1: string, search2: string)
    requires ToLower(search1) == ToLower(search2)
    ensures FilterImages(images, search1) == FilterImages(images, search2)
  {
    assert |search1| == |search2|;
    assert forall image :: Matches(image, search1) == Matches(image, search2);
    FilterSameMatches(images, search1, search2);
  }

  lemma {:induction false} FilterSameMatches(images: seq<ClothingImage>, search1: string, search2: string)
    requires forall image :: Matches(image, search1) == Matches(image, search2)
    ensures FilterImages(images, search1) == FilterImages(images, search2)
  {
    if images != [] {
      FilterSameMatches(images[1..], search1, search2);
    }
  }

  // ---------------------------------------------------------------------
  // The page window
  // ---------------------------------------------------------------------

  /** How `Array.prototype.slice` reads an index: negative counts from the end; clamped to [0, len]. */
  function SliceIndex(i: int, len: nat): (r: nat)
    ensures r <= len
    ensures 0 <= i <= len ==> r == i
  {
    if i < 0 then (if len + i < 0 then 0 else len + i) else if i > len then len else i
  }

  /** `Array.prototype.slice(start, end)`. */
  function Slice<T>(s: seq<T>, start: int, end: int): (r: seq<T>)
    ensures |r| <= |s|
  {
    var from := SliceIndex(start, |s|);
    var to := SliceIndex(end, |s|);
    if from < to then s[from..to] else []
  }

  /** The thumbnails shown on page `currentPage` (pages count from 1). */
  function CurrentItems<T>(filtered: seq<T>, currentPage: int): seq<T> {
    var indexOfLastItem := currentPage * ItemsPerPage;
    var indexOfFirstItem := indexOfLastItem - ItemsPerPage;
    Slice(filtered, indexOfFirstItem, indexOfLastItem)
  }

  /** `Math.ceil(count / 6)`. */
  function TotalPages(count: nat): (r: nat)
    ensures count <= r * ItemsPerPage
    ensures r == 0 || (r - 1) * ItemsPerPage < count
  {
    (count + ItemsPerPage - 1) / ItemsPerPage
  }

  function Min(a: int, b: int): int {
    if a < b then a else b
  }

  /**
   * A page never holds more than six items, and page p >= 1 holds the items
   * at indices [6(p-1), 6p) of the filtered list that exist.
   */
  lemma PageWindow<T>(filtered: seq<T>, currentPage: int)
    ensures |CurrentItems(filtered, currentPage)| <= ItemsPerPage
    ensures currentPage >= 1 ==>
              CurrentItems(filtered, currentPage)
              == filtered[Min((currentPage - 1) * ItemsPerPage, |filtered|)..Min(currentPage * ItemsPerPage, |filtered|)]
  {
  }

  /** Item i of the filtered list is shown on page i / 6 + 1, at position i % 6. */
  lemma PageOfItem<T>(filtered: seq<T>, i: nat)
    requires i < |filtered|
    ensures var page := i / ItemsPerPage + 1;
            1 <= page <= TotalPages(|filtered|)
            && i % ItemsPerPage < |CurrentItems(filtered, page)|
            && CurrentItems(filtered, page)[i % ItemsPerPage] == filtered[i]
  {
    var page := i / ItemsPerPage + 1;
    PageWindow(filtered, page);
    assert (page - 1) * ItemsPerPage + i % ItemsPerPage == i;
  }

  /** A page p >= 1 is non-empty exactly when p <= totalPages. */
  lemma PageNonEmptyIff<T>(filtered: seq<T>, currentPage: int)
    requires currentPage >= 1
    ensures CurrentItems(filtered, currentPage) != [] <==> currentPage <= TotalPages(|filtered|)
  {
    PageWindow(filtered, currentPage);
  }

  // ---------------------------------------------------------------------
  // The component state
  // ---------------------------------------------------------------------

  /**
   * The gallery's state.  `showSelectedImage` belongs to the parent, which
   * passes it down with its setter; it is held here as a field.
   */
  class Gallery {
    var clothingImages: seq<ClothingImage>
    var loading: bool
    var error: Option<string>
    var selectedImage: Option<ClothingImage>
    var currentPage: int
    var searchTerm: string
    var currentSearch: string
    var showSelectedImage: bool

    constructor(showSelectedImage: bool)
      ensures clothingImages == [] && loading && error == None && selectedImage == None
      ensures currentPage == 1 && searchTerm == "" && currentSearch == ""
      ensures this.showSelectedImage == showSelectedImage
    {
      clothingImages := [];
      loading := true;
      error := None;
      selectedImage := None;
      currentPage := 1;
      searchTerm := "";
      currentSearch := "";
      this.showSelectedImage := showSelectedImage;
    }

    function FilteredImages(): seq<ClothingImage>
      reads this
    {
      FilterImages(clothingImages, currentSearch)
    }

    function PageItems(): seq<ClothingImage>
      reads this
    {
      CurrentItems(FilteredImages(), currentPage)
    }

    function PageCount(): nat
      reads this
    {
      TotalPages(|FilteredImages()|)
    }

    /**
     * Stores the fetched list (`response` is `None` when the request fails).
     * A non-empty list selects its first image and returns that image's URL,
     * which is what the parent's `onSelectClothing` receives; `None` means
     * the callback is not called.
     */
    method FetchClothingImages(response: Option<seq<ClothingImage>>) returns (reported: Option<string>)
      modifies this
      ensures !loading
      ensures response.Some? ==> clothingImages == response.value && error == old(error)
      ensures response.Some? && |response.value| > 0 ==>
                selectedImage == Some(response.value[0]) && reported == Some(response.value[0].imageUrl)
      ensures response.None? || |response.value| == 0 ==> selectedImage == old(selectedImage) && reported == None
      ensures response.None? ==> clothingImages == old(clothingImages) && error == Some(FetchError)
      ensures currentPage == old(currentPage) && searchTerm == old(searchTerm)
      ensures currentSearch == old(currentSearch) && showSelectedImage == old(showSelectedImage)
    {
      reported := None;
      loading := true;
      if response.Some? {
        clothingImages := response.value;
        if |response.value| > 0 {
          selectedImage := Some(response.value[0]);
          reported := Some(response.value[0].imageUrl);
        }
      } else {
        error := Some(FetchError);
      }
      loading := false;
    }

    /** Selects `image`, reports its URL to the parent and switches to the selected-image view. */
    method HandleThumbnailClick(image: ClothingImage) returns (reported: string)
      modifies this
      ensures selectedImage == Some(image) && reported == image.imageUrl && showSelectedImage
      ensures clothingImages == old(clothingImages) && loading == old(loading) && error == old(error)
      ensures currentPage == old(currentPage) && searchTerm == old(searchTerm) && currentSearch == old(currentSearch)
    {
      selectedImage := Some(image);
      reported := image.imageUrl;
      showSelectedImage := true;
    }

    /** Switches back to the thumbnail view; nothing else changes. */
    method HandleBackToGallery()
      modifies this
      ensures !showSelectedImage
      ensures clothingImages == old(clothingImages) && loading == old(loading) && error == old(error)
      ensures selectedImage == old(selectedImage)
      ensures currentPage == old(currentPage) && searchTerm == old(searchTerm) && currentSearch == old(currentSearch)
    {
      showSelectedImage := false;
    }

    /** Typing in the search box changes only the uncommitted term. */
    method SetSearchTerm(text: string)
      modifies this
      ensures searchTerm == text
      ensures clothingImages == old(clothingImages) && loading == old(loading) && error == old(error)
      ensures selectedImage == old(selectedImage) && showSelectedImage == old(showSelectedImage)
      ensures currentPage == old(currentPage) && currentSearch == old(currentSearch)
    {
      searchTerm := text;
    }

    /**
     * Commits the typed term as the search and goes back to page 1, so the
     * window shows the first (at most six) matching images.
     */
    method HandleSearch()
      modifies this
      ensures currentSearch == old(searchTerm) && currentPage == 1
      ensures PageItems() == FilteredImages()[..Min(ItemsPerPage, |FilteredImages()|)]
      ensures clothingImages == old(clothingImages) && loading == old(loading) && error == old(error)
      ensures selectedImage == old(selectedImage) && showSelectedImage == old(showSelectedImage)
      ensures searchTerm == old(searchTerm)
    {
      currentSearch := searchTerm;
      currentPage := 1;
      PageWindow(FilteredImages(), 1);
    }

    /** Moves to page `pageNumber`. */
    method Paginate(pageNumber: int)
      modifies this
      ensures currentPage == pageNumber
      ensures clothingImages == old(clothingImages) && loading == old(loading) && error == old(error)
      ensures selectedImage == old(selectedImage) && showSelectedImage == old(showSelectedImage)
      ensures searchTerm == old(searchTerm) && currentSearch == old(currentSearch)
    {
      currentPage := pageNumber;
    }
  }
}
