/**
 * The asset naming rule of client/vite.config.ts: the build output places an
 * asset in a directory named after the second dot-separated piece of its name,
 * or in `images` when that piece matches `/png|jpe?g|svg|gif|tiff|bmp|ico/i`.
 * The other build options are constants handed to the bundler.
 */
module ViteConfig {
  import opened Common
  import opened JsString

  /** Output name patterns of the bundle. */
  const EntryFileNames := "js/[name].js"
  const AssetSuffix := "/[name][extname]"

  /** The literals the image pattern accepts (`jpe?g` is `jpg` or `jpeg`). */
  const ImagePatterns: seq<string> := ["png", "jpg", "jpeg", "svg", "gif", "tiff", "bmp", "ico"]

  /** ASCII lower case; the pattern has no `u` flag, so no other character folds onto these letters. */
  function Lower(s: string): (r: string)
    ensures |r| == |s|
    ensures forall i :: 0 <= i < |s| && !('A' <= s[i] <= 'Z') ==> r[i] == s[i]
  {
    seq(|s|, i requires 0 <= i < |s| => if 'A' <= s[i] <= 'Z' then (s[i] as int + 32) as char else s[i])
  }

  /** Some pattern literal occurs in `s`. */
  predicate AnyIncluded(s: string, patterns: seq<string>)
    decreases |patterns|
  {
    patterns != [] && (Includes(s, patterns[0]) || AnyIncluded(s, patterns[1..]))
  }

  /** The unanchored, case-insensitive test of the image pattern. */
  predicate IsImageType(text: string) {
    AnyIncluded(Lower(text), ImagePatterns)
  }

  /** A template literal renders a missing piece as `undefined`, and the pattern tests that text. */
  function Text(piece: Option<string>): string {
    if piece.Some? then piece.value else "undefined"
  }

  /** The directory for a piece of the name. */
  function Directory(piece: Option<string>): (r: string)
    ensures IsImageType(Text(piece)) ==> r == "images"
    ensures !IsImageType(Text(piece)) ==> r == Text(piece)
  {
    if IsImageType(Text(piece)) then "images" else Text(piece)
  }

  /** `name.split('.').at(1)`. */
  function SecondPiece(name: string): Option<string> {
    var pieces := Split(name, ".");
    if |pieces| >= 2 then Some(pieces[1]) else None
  }

  /** `assetFileNames` as written: the directory comes from the second piece. */
  function AssetFileNameAsWritten(name: string): string {
    Directory(SecondPiece(name)) + AssetSuffix
  }

  /** The extension: the last piece, when the name has a dot. */
  function Extension(name: string): Option<string> {
    var pieces := Split(name, ".");
    if |pieces| >= 2 then Some(pieces[|pieces| - 1]) else None
  }

  /** `assetFileNames` as intended: the directory comes from the extension. */
  function AssetFileName(name: string): string {
    Directory(Extension(name)) + AssetSuffix
  }

  /** For a name `base.ext` with one dot, both rules place the asset by its extension. */
  lemma OneDotNamesByExtension(base: string, ext: string)
    requires '.' !in base && '.' !in ext
    ensures var name := base + "." + ext;
      && AssetFileNameAsWritten(name) == AssetFileName(name)
      && AssetFileName(name) == (if IsImageType(ext) then "images" else ext) + AssetSuffix
  {
    SplitJoin([base, ext], '.');
    assert Join([base, ext], ".") == base + "." + ext;
  }

  /** A name with several dots is placed by its last piece. */
  lemma {:induction false} ManyDotNamesByLastPiece(pieces: seq<string>)
    requires |pieces| >= 2
    requires forall k :: 0 <= k < |pieces| ==> '.' !in pieces[k]
    ensures var name := Join(pieces, ".");
      && AssetFileName(name) == Directory(Some(pieces[|pieces| - 1])) + AssetSuffix
      && AssetFileNameAsWritten(name) == Directory(Some(pieces[1])) + AssetSuffix
  {
    PiecesOfDottedName(pieces);
  }

  lemma PiecesOfDottedName(pieces: seq<string>)
    requires |pieces| >= 2
    requires forall k :: 0 <= k < |pieces| ==> '.' !in pieces[k]
    ensures var name := Join(pieces, ".");
      Extension(name) == Some(pieces[|pieces| - 1]) && SecondPiece(name) == Some(pieces[1])
  {
    SplitJoin(pieces, '.');
    PiecesOfSplit(Join(pieces, "."), pieces);
  }

  lemma PiecesOfSplit(name: string, pieces: seq<string>)
    requires |pieces| >= 2 && Split(name, ".") == pieces
    ensures Extension(name) == Some(pieces[|pieces| - 1]) && SecondPiece(name) == Some(pieces[1])
  {
  }

  /** A name without a dot goes to `undefined/`. */
  lemma NoDotGoesToUndefined(name: string)
    requires '.' !in name
    ensures AssetFileNameAsWritten(name) == "undefined" + AssetSuffix
    ensures AssetFileName(name) == "undefined" + AssetSuffix
  {
    NoDotNoPieces(name);
    UndefinedIsNotImage();
  }

  lemma NoDotNoPieces(name: string)
    requires '.' !in name
    ensures SecondPiece(name).None? && Extension(name).None?
  {
    NotIncludesChar(name, '.');
  }

  lemma UndefinedIsNotImage()
    ensures Directory(None) == "undefined"
  {
    assert Lower("undefined") == "undefined";
    NoImageLetters("undefined");
  }

  /** A text with none of `g`, `t`, `b`, `c` contains no pattern literal. */
  lemma NoImageLetters(s: string)
    requires 'g' !in s && 't' !in s && 'b' !in s && 'c' !in s
    ensures !AnyIncluded(s, ImagePatterns)
  {
    LetterMissing(s, "png", 2);
    LetterMissing(s, "jpg", 2);
    LetterMissing(s, "jpeg", 3);
    LetterMissing(s, "svg", 2);
    LetterMissing(s, "gif", 0);
    LetterMissing(s, "tiff", 0);
    LetterMissing(s, "bmp", 0);
    LetterMissing(s, "ico", 1);
    NoneIncluded(s, ImagePatterns);
  }

  lemma LetterMissing(s: string, p: string, k: nat)
    requires k < |p| && p[k] !in s
    ensures !Includes(s, p)
  {
    forall j: nat ensures !OccursAt(s, p, j) {
      if j + |p| <= |s| {
        assert s[j..j + |p|][k] == s[j + k];
      }
    }
  }

  lemma {:induction false} NoneIncluded(s: string, patterns: seq<string>)
    requires forall p :: p in patterns ==> !Includes(s, p)
    ensures !AnyIncluded(s, patterns)
    decreases |patterns|
  {
    if patterns != [] {
      NoneIncluded(s, patterns[1..]);
    }
  }

  lemma {:induction false} IncludedAt(s: string, patterns: seq<string>, k: nat)
    requires k < |patterns| && Includes(s, patterns[k])
    ensures AnyIncluded(s, patterns)
    decreases k
  {
    if k > 0 {
      IncludedAt(s, patterns[1..], k - 1);
    }
  }

  /** The test ignores ASCII case: `LOGO.PNG` is an image. */
  lemma UpperCaseImage()
    ensures IsImageType("PNG")
  {
    assert Lower("PNG") == "png";
    assert OccursAt("png", "png", 0);
    IncludedAt("png", ImagePatterns, 0);
  }

  /**
   * The second piece of `logo.dark.svg` is `dark`, so the as-written rule puts
   * an SVG image under `dark/`; the extension rule puts it under `images/`.
   */
  lemma SecondPieceMisplacesDottedNames()
    ensures AssetFileNameAsWritten("logo.dark.svg") == "dark" + AssetSuffix
    ensures AssetFileName("logo.dark.svg") == "images" + AssetSuffix
  {
    var pieces := ["logo", "dark", "svg"];
    DottedName();
    ManyDotNamesByLastPiece(pieces);
    SvgIsImage();
    DarkIsNotImage();
  }

  lemma DottedName()
    ensures Join(["logo", "dark", "svg"], ".") == "logo.dark.svg"
  {
  }

  lemma DarkIsNotImage()
    ensures Directory(Some("dark")) == "dark"
  {
    assert Lower("dark") == "dark";
    NoImageLetters("dark");
  }

  lemma SvgIsImage()
    ensures Directory(Some("svg")) == "images"
  {
    assert Lower("svg") == "svg";
    assert OccursAt("svg", "svg", 0);
    IncludedAt("svg", ImagePatterns, 3);
  }
}
