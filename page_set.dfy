/**
 * The printable page set of `src/App.js`: a shuffled pool of twenty icon
 * outlines is cycled to fill the requested number of pages, and the pages are
 * written out as one printable document.
 */
module PageSet {
  import opened Strings

  /** The icon at position `i` of the pool's source list. */
  function IconAt(i: nat): string
    requires i < 20
  {
    if i == 0 then "https://img.icons8.com/ios/512/cat.png" else
    if i == 1 then "https://img.icons8.com/ios/512/dog.png" else
    if i == 2 then "https://img.icons8.com/ios/512/elephant.png" else
    if i == 3 then "https://img.icons8.com/ios/512/lion.png" else
    if i == 4 then "https://img.icons8.com/ios/512/car.png" else
    if i == 5 then "https://img.icons8.com/ios/512/airplane.png" else
    if i == 6 then "https://img.icons8.com/ios/512/train.png" else
    if i == 7 then "https://img.icons8.com/ios/512/boat.png" else
    if i == 8 then "https://img.icons8.com/ios/512/eagle.png" else
    if i == 9 then "https://img.icons8.com/ios/512/owl.png" else
    if i == 10 then "https://img.icons8.com/ios/512/butterfly.png" else
    if i == 11 then "https://img.icons8.com/ios/512/bee.png" else
    if i == 12 then "https://img.icons8.com/ios/512/tree.png" else
    if i == 13 then "https://img.icons8.com/ios/512/flower.png" else
    if i == 14 then "https://img.icons8.com/ios/512/sun.png" else
    if i == 15 then "https://img.icons8.com/ios/512/moon.png" else
    if i == 16 then "https://img.icons8.com/ios/512/star.png" else
    if i == 17 then "https://img.icons8.com/ios/512/cloud.png" else
    if i == 18 then "https://img.icons8.com/ios/512/rainbow.png" else
    "https://img.icons8.com/ios/512/mountain.png"
  }

  /** The twenty icon outlines, in the order the source lists them. */
  function FreeIconSources(): (r: seq<string>)
    ensures |r| == 20
  {
    seq(20, i requires 0 <= i < 20 => IconAt(i))
  }

  predicate Distinct<T(==)>(s: seq<T>)
  {
    forall i, j :: 0 <= i < j < |s| ==> s[i] != s[j]
  }

  /** The pool has twenty different icons. */
  lemma FreeIconSourcesDistinct()
    ensures Distinct(FreeIconSources())
  {
    forall i, j | 0 <= i < j < 20 ensures IconAt(i) != IconAt(j) {
      IconsDiffer(i, j);
    }
  }

  lemma IconsDiffer(i: nat, j: nat)
    requires i < j < 20
    ensures IconAt(i) != IconAt(j)
  {
  }

  /**
   * What `[...freeIconSources].sort(() => 0.5 - Math.random())` can produce:
   * the comparator is random, so nothing is known beyond "some permutation".
   */
  predicate IsShuffleOfPool(shuffled: seq<string>)
  {
    multiset(shuffled) == multiset(FreeIconSources())
  }

  /** A non-negative count as the loop `for (i = 0; i < count; i++)` sees it. */
  function LoopCount(count: int): nat
  {
    if count < 0 then 0 else count
  }

  /** The first `count` items of the pool repeated end to end. */
  function Cycle(pool: seq<string>, count: nat): (r: seq<string>)
    requires |pool| > 0
    ensures |r| == count
    ensures forall i :: 0 <= i < count ==> r[i] == pool[i % |pool|]
  {
    seq(count, i requires 0 <= i < count => pool[i % |pool|])
  }

  /** A shuffle has as many icons as the pool. */
  lemma ShuffleLength(shuffled: seq<string>)
    requires IsShuffleOfPool(shuffled)
    ensures |shuffled| == 20
  {
    assert |shuffled| == |multiset(shuffled)|;
  }

  /** `getRandomImages(count)`, given the shuffle the random comparator produced. */
  method GetRandomImages(count: int, shuffled: seq<string>) returns (result: seq<string>)
    requires IsShuffleOfPool(shuffled)
    ensures |shuffled| == 20
    ensures result == Cycle(shuffled, LoopCount(count))
  {
    ShuffleLength(shuffled);
    result := [];
    var i := 0;
    while i < count
      invariant 0 <= i <= LoopCount(count)
      invariant |result| == i
      invariant forall k :: 0 <= k < i ==> result[k] == shuffled[k % |shuffled|]
    {
      result := result + [shuffled[i % |shuffled|]];
      i := i + 1;
    }
  }

  /** Every image handed out is one of the pool's icons. */
  lemma {:induction false} CycleDrawsFromPool(shuffled: seq<string>, count: nat, i: nat)
    requires IsShuffleOfPool(shuffled) && i < count
    ensures |shuffled| == 20
    ensures Cycle(shuffled, count)[i] in FreeIconSources()
  {
    ShuffleLength(shuffled);
    var x := shuffled[i % 20];
    assert x in multiset(shuffled);
  }

  /** Each element of a duplicate-free sequence occurs in it exactly once, and conversely. */
  lemma {:induction false} DistinctMultiplicity(s: seq<string>)
    ensures Distinct(s) <==> forall x :: x in s ==> multiset(s)[x] == 1
  {
    if s != [] {
      var t := s[1..];
      DistinctMultiplicity(t);
      assert s == [s[0]] + t;
      assert multiset(s) == multiset{s[0]} + multiset(t);
      if Distinct(s) {
        assert Distinct(t) by {
          forall i, j | 0 <= i < j < |t| ensures t[i] != t[j] {
            assert t[i] == s[i + 1] && t[j] == s[j + 1];
          }
        }
      }
      if forall x :: x in s ==> multiset(s)[x] == 1 {
        assert s[0] !in t by {
          assert multiset(s)[s[0]] == 1 + multiset(t)[s[0]];
        }
        forall x | x in t ensures multiset(t)[x] == 1 {
          assert x in s;
          assert multiset(s)[x] == (if x == s[0] then 1 else 0) + multiset(t)[x];
        }
        forall i, j | 0 <= i < j < |s| ensures s[i] != s[j] {
          if i == 0 {
            assert s[j] == t[j - 1];
          } else {
            assert s[i] == t[i - 1] && s[j] == t[j - 1];
          }
        }
      }
    }
  }

  /** Any shuffle of the pool is itself free of duplicates. */
  lemma ShuffleIsDistinct(shuffled: seq<string>)
    requires IsShuffleOfPool(shuffled)
    ensures Distinct(shuffled)
  {
    FreeIconSourcesDistinct();
    DistinctMultiplicity(FreeIconSources());
    DistinctMultiplicity(shuffled);
    assert forall x :: x in shuffled ==> x in multiset(FreeIconSources());
  }

  /** Up to twenty pages, no icon is used twice. */
  lemma NoRepeatsUpToPoolSize(shuffled: seq<string>, count: nat)
    requires IsShuffleOfPool(shuffled) && count <= 20
    ensures Distinct(Cycle(shuffled, count))
  {
    ShuffleIsDistinct(shuffled);
    ShuffleLength(shuffled);
    var r := Cycle(shuffled, count);
    forall i, j | 0 <= i < j < count ensures r[i] != r[j] {
      assert i % 20 == i && j % 20 == j;
    }
  }

  /** One more step of the cycle: how quotient and remainder by 20 move when `c` grows by one. */
  lemma DivModStep(c: nat)
    ensures c % 20 < 19 ==> (c + 1) / 20 == c / 20 && (c + 1) % 20 == c % 20 + 1
    ensures c % 20 == 19 ==> (c + 1) / 20 == c / 20 + 1 && (c + 1) % 20 == 0
  {
  }

  /**
   * In `count` images drawn from a duplicate-free pool of twenty, the icon at
   * position j of the pool appears count / 20 times, plus once more when
   * j < count % 20.
   */
  lemma {:induction false} CycleOccurrences(pool: seq<string>, count: nat, j: nat)
    requires |pool| == 20 && Distinct(pool) && j < 20
    ensures multiset(Cycle(pool, count))[pool[j]] == count / 20 + (if j < count % 20 then 1 else 0)
  {
    var n := |pool|;
    if count > 0 {
      var c := count - 1;
      CycleOccurrences(pool, c, j);
      assert Cycle(pool, count) == Cycle(pool, c) + [pool[c % n]];
      assert multiset(Cycle(pool, count)) == multiset(Cycle(pool, c)) + multiset{pool[c % n]};
      assert pool[c % n] == pool[j] <==> c % n == j;
      DivModStep(c);
    }
  }

  /** Past twenty pages, each icon appears either the floor or the ceiling of count / 20 times. */
  lemma OccurrencesBalanced(shuffled: seq<string>, count: nat, x: string)
    requires IsShuffleOfPool(shuffled) && x in FreeIconSources()
    ensures var m := multiset(Cycle(shuffled, count))[x];
      m == count / 20 || m == (count + 19) / 20
  {
    ShuffleIsDistinct(shuffled);
    ShuffleLength(shuffled);
    assert x in multiset(shuffled);
    var j :| 0 <= j < |shuffled| && shuffled[j] == x;
    CycleOccurrences(shuffled, count, j);
    if count % 20 != 0 {
      assert (count + 19) / 20 == count / 20 + 1;
    }
  }

  /** The caption over page `number` of `total`. */
  function PageLabel(number: nat, total: nat): string
  {
    "Page " + NatToString(number) + " of " + NatToString(total)
  }

  /** Different pages of the same print job carry different captions. */
  lemma PageLabelsDistinct(m: nat, n: nat, total: nat)
    requires m != n
    ensures PageLabel(m, total) != PageLabel(n, total)
  {
    var a, b := NatToString(m), NatToString(n);
    var tail := " of " + NatToString(total);
    if PageLabel(m, total) == PageLabel(n, total) {
      assert PageLabel(m, total) == "Page " + a + tail;
      assert PageLabel(n, total) == "Page " + b + tail;
      assert |a| == |b|;
      assert a == PageLabel(m, total)[5..5 + |a|];
      assert b == PageLabel(n, total)[5..5 + |b|];
      NatToStringInjective(m, n);
    }
  }

  const PrintHead := "<html><head><title>Coloring Pages</title></head><body>"
  const PrintTail := "</body></html>"
  const PageOpen := "<div class=\"page\"><div class=\"header\"><h2>Cartoon Coloring Outline</h2><p>"
  const ImageOpen := "</p></div><div class=\"image-container\"><img src=\""
  const ImageAlt := "\" alt=\"Coloring outline "
  const PageClose := "\"></div><div class=\"footer\"><p>Name: _________________________</p><p>Date: _________________________</p></div></div>"

  /** One printed page: heading with its caption, the image, and the name/date footer. */
  function PageMarkup(i: nat, total: nat, imageUrl: string): string
  {
    PageOpen + PageLabel(i + 1, total) + ImageOpen + imageUrl + ImageAlt + NatToString(i + 1) + PageClose
  }

  /** Page `i` opens with its "Page i+1 of total" caption and shows its image right after the image tag. */
  lemma PageMarkupShowsImage(i: nat, total: nat, imageUrl: string)
    ensures StartsWith(PageMarkup(i, total, imageUrl), PageOpen + PageLabel(i + 1, total))
    ensures OccursAt(PageMarkup(i, total, imageUrl), imageUrl, |PageOpen| + |PageLabel(i + 1, total)| + |ImageOpen|)
  {
    ConcatenationParts(PageOpen, PageLabel(i + 1, total), ImageOpen, imageUrl, ImageAlt + NatToString(i + 1) + PageClose);
  }

  /** The document as it stands once the pages for the first `k` images have been appended. */
  function PrintContentUpTo(images: seq<string>, total: nat, k: nat): string
    requires k <= |images|
  {
    if k == 0 then PrintHead
    else PrintContentUpTo(images, total, k - 1) + PageMarkup(k - 1, total, images[k - 1])
  }

  /** The whole print document: the head, one page per image in order, and the closing tags. */
  function PrintDocument(images: seq<string>, total: nat): (r: string)
    ensures StartsWith(r, PrintHead)
    ensures |r| >= |PrintTail| && r[|r| - |PrintTail|..] == PrintTail
  {
    PrintContentGrows(images, total, 0, |images|);
    StartsWithExtended(PrintContentUpTo(images, total, |images|), PrintTail, PrintHead);
    PrintContentUpTo(images, total, |images|) + PrintTail
  }

  /** Appending pages never disturbs what is already written: the head and every earlier page stay in place. */
  lemma {:induction false} PrintContentGrows(images: seq<string>, total: nat, j: nat, k: nat)
    requires j <= k <= |images|
    ensures StartsWith(PrintContentUpTo(images, total, k), PrintContentUpTo(images, total, j))
    decreases k
  {
    if j < k {
      PrintContentGrows(images, total, j, k - 1);
      StartsWithExtended(PrintContentUpTo(images, total, k - 1), PageMarkup(k - 1, total, images[k - 1]),
        PrintContentUpTo(images, total, j));
    }
  }

  /** `printMultiplePages()`: the document sent to the print window, given the shuffle. */
  method PrintMultiplePages(selectedPages: nat, shuffled: seq<string>) returns (printContent: string)
    requires IsShuffleOfPool(shuffled)
    ensures printContent == PrintDocument(Cycle(shuffled, selectedPages), selectedPages)
  {
    var imagesForPrint := GetRandomImages(selectedPages, shuffled);
    printContent := PrintHead;
    var i := 0;
    while i < selectedPages
      invariant 0 <= i <= selectedPages
      invariant printContent == PrintContentUpTo(imagesForPrint, selectedPages, i)
    {
      printContent := printContent + PageMarkup(i, selectedPages, imagesForPrint[i]);
      i := i + 1;
    }
    printContent := printContent + PrintTail;
  }

  /** A page count followed by "Page", made plural for more than one page. */
  function PageCountCaption(n: nat): string
  {
    NatToString(n) + " Page" + (if n > 1 then "s" else "")
  }

  /** The print button: "Page" for one page, "Pages" otherwise. */
  function PrintButtonLabel(selectedPages: nat): (r: string)
    ensures StartsWith(r, "Print " + NatToString(selectedPages) + " Page")
  {
    "Print " + PageCountCaption(selectedPages) + " as PDF"
  }

  lemma PrintButtonPlural(selectedPages: nat)
    ensures selectedPages <= 1 ==> PrintButtonLabel(selectedPages) == "Print " + NatToString(selectedPages) + " Page as PDF"
    ensures selectedPages > 1 ==> PrintButtonLabel(selectedPages) == "Print " + NatToString(selectedPages) + " Pages as PDF"
  {
  }

  /** The choices of the page-count selector as the page writes them: value and caption. */
  const PageCountOptionsAsWritten: seq<(nat, string)> := [
    (5, "5 Page"), (10, "10 Pages"), (15, "15 Pages"), (20, "20 Pages"), (25, "25 Pages"),
    (30, "30 Pages"), (35, "35 Pages"), (40, "40 Pages"), (45, "45 Pages"), (50, "50 Pages")
  ]

  /** The first choice is captioned "5 Page", which the pluralisation rule of the button would write "5 Pages". */
  lemma FiveOptionCaptionIsSingular()
    ensures PageCountOptionsAsWritten[0] == (5, "5 Page")
    ensures PageCountOptionsAsWritten[0].1 != PageCountCaption(5)
    ensures PageCountOptionsAsWritten[1].1 == PageCountCaption(10)
  {
    assert PageCountCaption(5) == "5 Pages";
    assert NatToString(10) == "10";
  }

  /** The selector's choices, 5 to 50 in steps of 5, each captioned by the shared rule. */
  function PageCountOptions(): (r: seq<(nat, string)>)
    ensures |r| == 10
  {
    seq(10, i requires 0 <= i < 10 => (5 * (i + 1), PageCountCaption(5 * (i + 1))))
  }

  /**
   * Every choice is between 5 and 50 pages, its caption reads "<n> Pages", and
   * the print button names the same count the same way.
   */
  lemma PageCountOptionsPlural(i: nat)
    requires i < 10
    ensures var (n, caption) := PageCountOptions()[i];
      5 <= n <= 50 && caption == NatToString(n) + " Pages" && PrintButtonLabel(n) == "Print " + caption + " as PDF"
  {
  }

}
