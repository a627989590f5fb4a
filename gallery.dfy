/**
 * The gallery of `src/pages/GalleryPage.tsx`: the search-and-filter over
 * artworks, the Clear Filters reset, the colour chips of a card and the
 * download name.
 */
module Gallery {
  import opened Wrappers
  import opened Strings
  import opened Types

  /** The three filter inputs of the page. */
  datatype Filters = Filters(searchTerm: string, selectedCategory: string, selectedDifficulty: string)

  const All := "all"

  /** `coloringImages.find(img => img.id === id)`: the first image with that id, if any. */
  function FindImage(images: seq<ColoringImage>, id: string): (r: Option<ColoringImage>)
    ensures r.None? <==> forall k :: 0 <= k < |images| ==> images[k].id != id
    ensures r.Some? ==> r.value in images && r.value.id == id
  {
    if images == [] then None
    else if images[0].id == id then Some(images[0])
    else FindImage(images[1..], id)
  }

  /** When several images share the id, the first of them is found. */
  lemma {:induction false} FindImageIsFirst(images: seq<ColoringImage>, id: string, k: nat)
    requires k < |images| && images[k].id == id
    requires forall j :: 0 <= j < k ==> images[j].id != id
    ensures FindImage(images, id) == Some(images[k])
  {
    if k > 0 {
      FindImageIsFirst(images[1..], id, k - 1);
    }
  }

  /** Index `k` holds the first image carrying `id`. */
  predicate FirstWithId(images: seq<ColoringImage>, id: string, k: int)
  {
    0 <= k < |images| && images[k].id == id && forall j :: 0 <= j < k ==> images[j].id != id
  }

  /** Below any index carrying the id there is a first one. */
  lemma {:induction false} FirstIndex(images: seq<ColoringImage>, id: string, k: nat)
    requires k < |images| && images[k].id == id
    ensures exists m :: 0 <= m <= k && FirstWithId(images, id, m)
    decreases k
  {
    if exists j :: 0 <= j < k && images[j].id == id {
      var j :| 0 <= j < k && images[j].id == id;
      FirstIndex(images, id, j);
    } else {
      assert FirstWithId(images, id, k);
    }
  }

  /** `find` yields an image exactly when some index is the first to carry the id, and then the image at that index. */
  lemma FindImageAtFirstIndex(images: seq<ColoringImage>, id: string)
    ensures FindImage(images, id).Some? <==> exists k :: FirstWithId(images, id, k)
    ensures forall k :: FirstWithId(images, id, k) ==> FindImage(images, id) == Some(images[k])
  {
    forall k | FirstWithId(images, id, k)
      ensures FindImage(images, id) == Some(images[k])
    {
      FindImageIsFirst(images, id, k);
    }
    if FindImage(images, id).Some? {
      var k :| 0 <= k < |images| && images[k].id == id;
      FirstIndex(images, id, k);
    }
  }

  /** The title or the description contains the term, all three lower-cased. */
  predicate MatchesSearch(a: UserArtwork, term: string): (r: bool)
    ensures r <==>
      || (exists i :: OccursAt(ToLower(a.title), ToLower(term), i))
      || (exists i :: OccursAt(ToLower(a.description), ToLower(term), i))
  {
    IncludesAt(ToLower(a.title), ToLower(term));
    IncludesAt(ToLower(a.description), ToLower(term));
    Includes(ToLower(a.title), ToLower(term)) || Includes(ToLower(a.description), ToLower(term))
  }

  /** The search ignores the letter case of the term. */
  lemma SearchIgnoresTermCase(a: UserArtwork, term: string)
    ensures MatchesSearch(a, term) <==> MatchesSearch(a, ToLower(term))
  {
    ToLowerIdempotent(term);
  }

  /** `all`, or the linked image exists and has the selected category. */
  predicate MatchesCategory(a: UserArtwork, images: seq<ColoringImage>, category: string): (r: bool)
    ensures category == All ==> r
    ensures r && category != All ==> FindImage(images, a.coloringImageId).Some?
  {
    category == All || (FindImage(images, a.coloringImageId).Some? && FindImage(images, a.coloringImageId).value.category == category)
  }

  /** `all`, or the linked image exists and has the selected difficulty. */
  predicate MatchesDifficulty(a: UserArtwork, images: seq<ColoringImage>, difficulty: string): (r: bool)
    ensures difficulty == All ==> r
    ensures r && difficulty != All ==> FindImage(images, a.coloringImageId).Some?
  {
    difficulty == All
      || (FindImage(images, a.coloringImageId).Some? && DifficultyName(FindImage(images, a.coloringImageId).value.difficulty) == difficulty)
  }

  /**
   * A selected category or difficulty is judged on the first image linked to
   * the artwork, ignoring any later image that shares its id.
   */
  lemma SelectorsJudgeFirstLinkedImage(a: UserArtwork, images: seq<ColoringImage>, category: string, difficulty: string)
    ensures category != All ==>
      (MatchesCategory(a, images, category) <==>
        exists k :: FirstWithId(images, a.coloringImageId, k) && images[k].category == category)
    ensures difficulty != All ==>
      (MatchesDifficulty(a, images, difficulty) <==>
        exists k :: FirstWithId(images, a.coloringImageId, k) && DifficultyName(images[k].difficulty) == difficulty)
  {
    FindImageAtFirstIndex(images, a.coloringImageId);
  }

  predicate Matches(a: UserArtwork, images: seq<ColoringImage>, f: Filters)
  {
    MatchesSearch(a, f.searchTerm) && MatchesCategory(a, images, f.selectedCategory)
      && MatchesDifficulty(a, images, f.selectedDifficulty)
  }

  /** `artworks.filter(...)`: the artworks that pass all three tests, in their original order. */
  function FilteredArtworks(artworks: seq<UserArtwork>, images: seq<ColoringImage>, f: Filters): (r: seq<UserArtwork>)
    ensures |r| <= |artworks|
    ensures forall a :: a in r <==> a in artworks && Matches(a, images, f)
    ensures forall a :: multiset(r)[a] == if Matches(a, images, f) then multiset(artworks)[a] else 0
  {
    if artworks == [] then []
    else
      var rest := FilteredArtworks(artworks[1..], images, f);
      assert forall a :: a in artworks <==> a == artworks[0] || a in artworks[1..];
      assert artworks == [artworks[0]] + artworks[1..];
      if Matches(artworks[0], images, f) then [artworks[0]] + rest else rest
  }

  /** `xs` is `ys` with some elements dropped and the rest in the same order. */
  predicate IsSubsequence<T(==)>(xs: seq<T>, ys: seq<T>)
    decreases |ys|
  {
    if ys == [] then xs == []
    else (xs != [] && xs[0] == ys[0] && IsSubsequence(xs[1..], ys[1..])) || IsSubsequence(xs, ys[1..])
  }

  /** The filtered list keeps the relative order of the artworks. */
  lemma {:induction false} FilteredIsSubsequence(artworks: seq<UserArtwork>, images: seq<ColoringImage>, f: Filters)
    ensures IsSubsequence(FilteredArtworks(artworks, images, f), artworks)
    decreases |artworks|
  {
    if artworks != [] {
      FilteredIsSubsequence(artworks[1..], images, f);
    }
  }

  /** The filters as the page first shows them (`useState('')`, `useState('all')` twice), and as Clear Filters leaves them. */
  const NoFilters := Filters("", All, All)

  /** Clear Filters: empty search, every category, every difficulty. */
  function ClearFilters(f: Filters): (r: Filters)
    ensures r.searchTerm == "" && r.selectedCategory == All && r.selectedDifficulty == All
    ensures r == NoFilters
  {
    f.(searchTerm := "", selectedCategory := All, selectedDifficulty := All)
  }

  /** With no search term and both selectors on `all`, every artwork is shown, in order. */
  lemma {:induction false} ClearedShowsEverything(artworks: seq<UserArtwork>, images: seq<ColoringImage>, f: Filters)
    ensures FilteredArtworks(artworks, images, ClearFilters(f)) == artworks
    decreases |artworks|
  {
    if artworks != [] {
      IncludesEmpty(ToLower(artworks[0].title));
      assert ToLower("") == "";
      ClearedShowsEverything(artworks[1..], images, f);
    }
  }

  /** An artwork whose linked image is missing is dropped as soon as a category or difficulty is selected. */
  lemma UnlinkedDroppedWhenFiltering(a: UserArtwork, images: seq<ColoringImage>, f: Filters)
    requires forall k :: 0 <= k < |images| ==> images[k].id != a.coloringImageId
    requires f.selectedCategory != All || f.selectedDifficulty != All
    ensures !Matches(a, images, f)
  {
  }

  /** The chips a card shows: at most the first five colours. */
  function VisibleColors(colors: seq<string>): (r: seq<string>)
    ensures |r| == if |colors| < 5 then |colors| else 5
    ensures r == colors[..|r|]
  {
    if |colors| <= 5 then colors else colors[..5]
  }

  /** The `+N more` caption, present exactly when there are more than five colours. */
  function MoreColorsCount(colors: seq<string>): (r: Option<nat>)
    ensures r.Some? <==> |colors| > 5
  {
    if |colors| > 5 then Some(|colors| - 5) else None
  }

  /** The chips and the caption together account for every colour. */
  lemma ChipsAccountForAllColors(colors: seq<string>)
    ensures |VisibleColors(colors)| + MoreColorsCount(colors).GetOr(0) == |colors|
  {
  }

  const PngExtension := ".png"

  /** The name a downloaded artwork is saved under. */
  function DownloadFileName(a: UserArtwork): (r: string)
    ensures StartsWith(r, a.title) && |r| == |a.title| + |PngExtension|
  {
    a.title + PngExtension
  }

  /** The title a download name was made from, if it ends in `.png`. */
  function DownloadTitleOf(name: string): Option<string>
  {
    if |name| >= |PngExtension| && name[|name| - |PngExtension|..] == PngExtension
    then Some(name[..|name| - |PngExtension|])
    else None
  }

  /** Stripping the `.png` extension reads the title back, so different titles download under different names. */
  lemma DownloadFileNameRoundTrip(a: UserArtwork, b: UserArtwork)
    ensures DownloadTitleOf(DownloadFileName(a)) == Some(a.title)
    ensures a.title != b.title ==> DownloadFileName(a) != DownloadFileName(b)
  {
    var n := DownloadFileName(a);
    assert n[|n| - |PngExtension|..] == PngExtension;
    assert n[..|n| - |PngExtension|] == a.title;
    var m := DownloadFileName(b);
    assert m[|m| - |PngExtension|..] == PngExtension;
    assert m[..|m| - |PngExtension|] == b.title;
  }
}
