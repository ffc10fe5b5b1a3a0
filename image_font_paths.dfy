/** Image and font paths: the "Remove Slashdots" rewrite of every image
    and font path, the user's search/replace rewrite, and the panel listing
    the paths. Fonts whose path is "<builtin>" are never rewritten nor
    listed. */
module ImageFontPaths {
  import opened Common

  const Builtin := "<builtin>"

  // ---------------------------------------------------------------------
  // Remove Slashdots

  /** The literal "../" starts at position i of s. */
  predicate DotDotAt(s: string, i: int)
  {
    0 <= i && i + 3 <= |s| && s[i] == '.' && s[i + 1] == '.' && s[i + 2] == '/'
  }

  predicate HasDotDot(s: string)
  {
    exists i :: 0 <= i < |s| && DotDotAt(s, i)
  }

  /** re.sub(r'\.\./', '', s): one left-to-right scan that deletes each
      "../" it meets and resumes after it. */
  function StripDotDot(s: string): string
  {
    if |s| == 0 then ""
    else if DotDotAt(s, 0) then StripDotDot(s[3..])
    else [s[0]] + StripDotDot(s[1..])
  }

  /** The number of deletions the scan makes. */
  function Deletions(s: string): nat
  {
    if |s| == 0 then 0
    else if DotDotAt(s, 0) then 1 + Deletions(s[3..])
    else Deletions(s[1..])
  }

  /** Every deletion removes exactly three characters. */
  lemma {:induction false} StripLength(s: string)
    ensures |StripDotDot(s)| == |s| - 3 * Deletions(s)
  {
    if |s| > 0 {
      if DotDotAt(s, 0) {
        StripLength(s[3..]);
      } else {
        StripLength(s[1..]);
      }
    }
  }

  lemma DotDotShift(s: string, i: int)
    requires |s| > 0 && i >= 0
    ensures DotDotAt(s[1..], i) <==> DotDotAt(s, i + 1)
  {
  }

  /** The scan deletes something exactly when the path holds a "../": the
      occurrences cannot overlap, so the first one is never skipped. */
  lemma {:induction false} DeletionsIffDotDot(s: string)
    ensures Deletions(s) == 0 <==> !HasDotDot(s)
  {
    if |s| > 0 && !DotDotAt(s, 0) {
      DeletionsIffDotDot(s[1..]);
      if HasDotDot(s) {
        var i :| 0 <= i < |s| && DotDotAt(s, i);
        assert i >= 1;
        DotDotShift(s, i - 1);
        assert DotDotAt(s[1..], i - 1);
      }
      if HasDotDot(s[1..]) {
        var i :| 0 <= i < |s[1..]| && DotDotAt(s[1..], i);
        DotDotShift(s, i);
        assert DotDotAt(s, i + 1);
      }
    } else if |s| > 0 {
      assert DotDotAt(s, 0);
    }
  }

  /** A path without "../" is left as it is; any other path shrinks by
      three characters per deletion, so it changes. */
  lemma StripUnchangedIff(s: string)
    ensures !HasDotDot(s) ==> StripDotDot(s) == s
    ensures HasDotDot(s) ==> |StripDotDot(s)| <= |s| - 3
  {
    DeletionsIffDotDot(s);
    StripLength(s);
    if !HasDotDot(s) {
      NoDeletionsUnchanged(s);
    }
  }

  lemma {:induction false} NoDeletionsUnchanged(s: string)
    requires Deletions(s) == 0
    ensures StripDotDot(s) == s
  {
    if |s| > 0 {
      NoDeletionsUnchanged(s[1..]);
      assert [s[0]] + s[1..] == s;
    }
  }

  /** One pass can create a new "../": "....//" becomes "../", which a
      second pass empties. The rewrite is not idempotent and its result is
      not free of "../". */
  lemma StripNotIdempotent()
    ensures StripDotDot("....//") == "../"
    ensures HasDotDot(StripDotDot("....//"))
    ensures StripDotDot(StripDotDot("....//")) == ""
  {
    var s := "....//";
    assert !DotDotAt(s, 0) && !DotDotAt(s[1..], 0) && DotDotAt(s[2..], 0);
    assert s[2..][3..] == "/";
    assert !DotDotAt("/", 0);
    assert StripDotDot(s[2..]) == StripDotDot("/");
    assert StripDotDot("/") == "/";
    assert DotDotAt("../", 0);
    assert "../"[3..] == "";
  }

  /** "<builtin>" has no "../", so the font guard never changes what
      Remove Slashdots does. */
  lemma BuiltinUnchanged()
    ensures StripDotDot(Builtin) == Builtin
  {
    assert !HasDotDot(Builtin) by {
      forall i | 0 <= i < |Builtin|
        ensures !DotDotAt(Builtin, i)
      {
      }
    }
    StripUnchangedIff(Builtin);
  }

  // ---------------------------------------------------------------------
  // The two operators

  /** The rewritten path of a font: "<builtin>" stays. */
  function FontPath(path: string, rewrite: string -> string): string
  {
    if path != Builtin then rewrite(path) else path
  }

  /** The loops of both operators: every image path rewritten, every font
      path other than "<builtin>" rewritten. The image and font collections
      are distinct. */
  method RewritePaths(images: array<string>, fonts: array<string>, rewrite: string -> string)
    requires images != fonts
    modifies images, fonts
    ensures forall k :: 0 <= k < images.Length ==> images[k] == rewrite(old(images[k]))
    ensures forall k :: 0 <= k < fonts.Length ==> fonts[k] == FontPath(old(fonts[k]), rewrite)
  {
    for k := 0 to images.Length
      invariant forall j :: 0 <= j < k ==> images[j] == rewrite(old(images[j]))
      invariant forall j :: k <= j < images.Length ==> images[j] == old(images[j])
      invariant fonts[..] == old(fonts[..])
    {
      images[k] := rewrite(images[k]);
    }
    for k := 0 to fonts.Length
      invariant forall j :: 0 <= j < k ==> fonts[j] == FontPath(old(fonts[j]), rewrite)
      invariant forall j :: k <= j < fonts.Length ==> fonts[j] == old(fonts[j])
      invariant forall j :: 0 <= j < images.Length ==> images[j] == rewrite(old(images[j]))
    {
      if fonts[k] != Builtin {
        fonts[k] := rewrite(fonts[k]);
      }
    }
  }

  /** KTXIMAGEFONTPATHS_OT_RemoveSlashDots.execute. */
  method RemoveSlashDots(images: array<string>, fonts: array<string>)
    requires images != fonts
    modifies images, fonts
    ensures forall k :: 0 <= k < images.Length ==> images[k] == StripDotDot(old(images[k]))
    ensures forall k :: 0 <= k < fonts.Length ==> fonts[k] == FontPath(old(fonts[k]), StripDotDot)
  {
    RewritePaths(images, fonts, StripDotDot);
  }

  /** KTXIMAGEFONTPATHS_OT_Regex.execute, with re.sub of the search and
      replace fields given as `substitute`. */
  method SearchReplace(images: array<string>, fonts: array<string>, substitute: string -> string)
    requires images != fonts
    modifies images, fonts
    ensures forall k :: 0 <= k < images.Length ==> images[k] == substitute(old(images[k]))
    ensures forall k :: 0 <= k < fonts.Length ==> fonts[k] == FontPath(old(fonts[k]), substitute)
  {
    RewritePaths(images, fonts, substitute);
  }

  // ---------------------------------------------------------------------
  // The panel

  datatype Item =
    | Label(text: string)
    | ImagePath(index: nat)
    | FontPathField(index: nat)
    | OperatorButton(id: string)
    | SceneField(name: string, text: string)

  /** The images whose path is not empty. */
  function ListedImages(paths: seq<string>): seq<Item>
  {
    if paths == [] then []
    else ListedImages(paths[..|paths| - 1]) + (if paths[|paths| - 1] != "" then [ImagePath(|paths| - 1)] else [])
  }

  /** The fonts whose path is not "<builtin>". */
  function ListedFonts(paths: seq<string>): seq<Item>
  {
    if paths == [] then []
    else ListedFonts(paths[..|paths| - 1]) + (if paths[|paths| - 1] != Builtin then [FontPathField(|paths| - 1)] else [])
  }

  const ToolItems := [Label(" Tools:"), OperatorButton("ktximagefontpaths.removeslashdots"),
                      SceneField("ktx_searchfield", "Search"), SceneField("ktx_replacefield", "Replace"),
                      OperatorButton("ktximagefontpaths.regex")]

  function PanelSpec(images: seq<string>, fonts: seq<string>): seq<Item>
  {
    [Label(" Images:")] + ListedImages(images) + [Label(" Fonts:")] + ListedFonts(fonts) + ToolItems
  }

  /** The panel lists image k exactly when its path is not empty and font
      k exactly when its path is not "<builtin>". */
  lemma {:induction false} ListedSpec(images: seq<string>, fonts: seq<string>, k: nat)
    ensures ImagePath(k) in ListedImages(images) <==> k < |images| && images[k] != ""
    ensures FontPathField(k) in ListedFonts(fonts) <==> k < |fonts| && fonts[k] != Builtin
  {
    ListedImagesSpec(images, k);
    ListedFontsSpec(fonts, k);
  }

  lemma {:induction false} ListedImagesSpec(paths: seq<string>, k: nat)
    ensures ImagePath(k) in ListedImages(paths) <==> k < |paths| && paths[k] != ""
  {
    if paths != [] {
      ListedImagesSpec(paths[..|paths| - 1], k);
    }
  }

  lemma {:induction false} ListedFontsSpec(paths: seq<string>, k: nat)
    ensures FontPathField(k) in ListedFonts(paths) <==> k < |paths| && paths[k] != Builtin
  {
    if paths != [] {
      ListedFontsSpec(paths[..|paths| - 1], k);
    }
  }

  /** KTXIMAGEFONTPATHS_PT_Panel.draw. */
  method Draw(images: array<string>, fonts: array<string>) returns (items: seq<Item>)
    ensures items == PanelSpec(images[..], fonts[..])
  {
    items := [Label(" Images:")];
    for k := 0 to images.Length
      invariant items == [Label(" Images:")] + ListedImages(images[..k])
    {
      assert images[..k + 1][..k] == images[..k];
      if images[k] != "" {
        items := items + [ImagePath(k)];
      }
    }
    assert images[..images.Length] == images[..];
    var head := items + [Label(" Fonts:")];
    items := head;
    for k := 0 to fonts.Length
      invariant items == head + ListedFonts(fonts[..k])
    {
      assert fonts[..k + 1][..k] == fonts[..k];
      if fonts[k] != Builtin {
        items := items + [FontPathField(k)];
      }
    }
    assert fonts[..fonts.Length] == fonts[..];
    items := items + ToolItems;
  }
}
