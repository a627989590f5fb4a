/**
 * The navigation bar of `src/components/Header.tsx`: its four items and the
 * rule that decides which of them is highlighted for the current path.
 */
module Header {
  import opened Strings

  datatype NavItem = NavItem(caption: string, path: string)

  const HomePath := "/"

  const NavItems: seq<NavItem> := [
    NavItem("Home", "/"),
    NavItem("Color", "/color/new"),
    NavItem("Gallery", "/gallery"),
    NavItem("Upload", "/upload")
  ]

  /** Whether the item for `path` is highlighted while the browser shows `pathname`. */
  function IsActive(path: string, pathname: string): (r: bool)
    ensures path == HomePath ==> (r <==> pathname == HomePath)
    ensures path != HomePath ==> (r <==> StartsWith(pathname, path))
  {
    if path == "/" then pathname == "/" else StartsWith(pathname, path)
  }

  /** The home item is not highlighted on any other page, although "/" is a prefix of every path. */
  lemma HomeNotActiveOnGallery()
    ensures StartsWith("/gallery", HomePath)
    ensures !IsActive(HomePath, "/gallery")
  {
  }

  /** The match has no segment boundary: "/upload" is highlighted on "/uploads". */
  lemma UploadActiveOnUploads()
    ensures IsActive("/upload", "/uploads")
  {
  }

  /** The Color item points at "/color/new" and so is not highlighted while colouring image 5. */
  lemma ColorNotActiveOnOtherImage()
    ensures !IsActive("/color/new", "/color/5")
  {
  }

  /** There are four items and no two share a path. */
  lemma NavPathsDistinct()
    ensures |NavItems| == 4
    ensures forall i, j :: 0 <= i < j < |NavItems| ==> NavItems[i].path != NavItems[j].path
  {
  }

  /**
   * Only the first item is home; every other path is longer than "/" and is
   * told apart from the others by its second character.
   */
  lemma NavPathsKeyedBySecondChar()
    ensures NavItems[0].path == HomePath
    ensures forall k :: 1 <= k < |NavItems| ==> |NavItems[k].path| >= 2
    ensures forall k, l :: 1 <= k < |NavItems| && 1 <= l < |NavItems| && NavItems[k].path[1] == NavItems[l].path[1] ==> k == l
  {
  }

  /** Whatever page is shown, at most one navigation item is highlighted. */
  lemma AtMostOneActive(pathname: string, i: nat, j: nat)
    requires i < |NavItems| && j < |NavItems|
    requires IsActive(NavItems[i].path, pathname) && IsActive(NavItems[j].path, pathname)
    ensures i == j
  {
    NavPathsKeyedBySecondChar();
    var p, q := NavItems[i].path, NavItems[j].path;
    if i != 0 && j != 0 {
      assert pathname[1] == p[1] && pathname[1] == q[1];
    }
  }
}
