/**
 * The template helpers of src/views/helpers/index.ts. The site URL comes from
 * the server's settings; it is given here already parsed into its parts.
 */
module ViewHelpers {
  import opened JsString
  import opened JsValue

  /** A parsed URL: `origin + pathname + search + hash` is its text. */
  datatype Url = Url(origin: string, pathname: string, search: string, hash: string)

  /** `u.toString()`. */
  function UrlText(u: Url): string {
    u.origin + u.pathname + u.search + u.hash
  }

  /** Runs of `/` collapsed into one (the part of `path.normalize` modelled here). */
  function CollapseSlashes(s: string): (r: string)
    ensures |s| > 0 ==> |r| > 0 && r[0] == s[0]
    ensures forall i :: 0 <= i < |r| - 1 ==> !(r[i] == '/' && r[i + 1] == '/')
    decreases |s|
  {
    if |s| < 2 then s
    else if s[0] == '/' && s[1] == '/' then CollapseSlashes(s[1..])
    else [s[0]] + CollapseSlashes(s[1..])
  }

  /** A path without doubled slashes is left as it is. */
  lemma {:induction false} CollapseKeepsNormalPaths(s: string)
    requires forall i :: 0 <= i < |s| - 1 ==> !(s[i] == '/' && s[i + 1] == '/')
    ensures CollapseSlashes(s) == s
    decreases |s|
  {
    if |s| >= 2 {
      CollapseKeepsNormalPaths(s[1..]);
    }
  }

  /** The non-empty segments, in order (`path.join` ignores empty ones). */
  function NonEmpty(parts: seq<string>): (r: seq<string>)
    ensures forall k :: 0 <= k < |r| ==> r[k] != ""
    decreases |parts|
  {
    if parts == [] then []
    else if parts[0] == "" then NonEmpty(parts[1..])
    else [parts[0]] + NonEmpty(parts[1..])
  }

  /** `path.join(...parts)`, without resolving `.` and `..` segments. */
  function PathJoin(parts: seq<string>): string {
    var segments := NonEmpty(parts);
    if segments == [] then "." else CollapseSlashes(Join(segments, "/"))
  }

  /** Setting `u.pathname` on a web URL: a leading `/` is added when missing. */
  function WithPathname(u: Url, path: string): (r: Url)
    ensures r.origin == u.origin && r.search == u.search && r.hash == u.hash
    ensures StartsWith(r.pathname, "/")
  {
    u.(pathname := if StartsWith(path, "/") then path else "/" + path)
  }

  /** `isExternalLink`. */
  predicate IsExternalLink(path: string) {
    StartsWith(path, "http")
  }

  /** `makeUrl(...paths)`: the site URL with the paths joined onto its pathname. */
  function MakeUrl(site: Url, paths: seq<string>): string {
    UrlText(WithPathname(site, PathJoin([site.pathname] + paths)))
  }

  /** `makeUrl` keeps the site's origin, query and fragment, and its path has no doubled slash. */
  lemma MakeUrlKeepsOrigin(site: Url, paths: seq<string>)
    requires StartsWith(site.pathname, "/")
    ensures var u := WithPathname(site, PathJoin([site.pathname] + paths));
      && MakeUrl(site, paths) == site.origin + u.pathname + site.search + site.hash
      && StartsWith(MakeUrl(site, paths), site.origin)
      && forall i :: 0 <= i < |u.pathname| - 1 ==> !(u.pathname[i] == '/' && u.pathname[i + 1] == '/')
  {
    var parts := [site.pathname] + paths;
    assert NonEmpty(parts) == [site.pathname] + NonEmpty(paths);
    var joined := Join(NonEmpty(parts), "/");
    assert joined[0] == '/' by {
      if |NonEmpty(parts)| > 1 {
        assert joined == site.pathname + "/" + Join(NonEmpty(paths), "/");
      }
    }
    assert PathJoin(parts)[0] == '/';
  }

  /** `assetUrl`. */
  function AssetUrl(site: Url, path: string): string {
    if IsExternalLink(path) then path else MakeUrl(site, ["assets", path])
  }

  /** `link`. */
  function Link(site: Url, path: string): string {
    if IsExternalLink(path) then path else MakeUrl(site, [path])
  }

  /** External paths pass through unchanged; internal ones are made site URLs (assets under `assets`). */
  lemma LinksAndAssets(site: Url, path: string)
    ensures IsExternalLink(path) ==> AssetUrl(site, path) == path && Link(site, path) == path
    ensures !IsExternalLink(path) ==>
      AssetUrl(site, path) == MakeUrl(site, ["assets", path]) && Link(site, path) == MakeUrl(site, [path])
    ensures IsExternalLink(path) <==> |path| >= 4 && path[..4] == "http"
  {
  }

  /** A site-relative asset path lands below `/assets/`. */
  lemma AssetPath(site: Url, path: string)
    requires site.pathname == "/" && path != "" && !IsExternalLink(path) && path[0] != '/'
    requires forall i :: 0 <= i < |path| - 1 ==> !(path[i] == '/' && path[i + 1] == '/')
    ensures AssetUrl(site, path) == site.origin + "/assets/" + path + site.search + site.hash
  {
    var normal := "/assets/" + path;
    AssetPathJoined(path);
    assert StartsWith(normal, "/");
    assert MakeUrl(site, ["assets", path]) == UrlText(WithPathname(site, normal));
  }

  /** Joining `/`, `assets` and a clean relative path gives `/assets/<path>`. */
  lemma AssetPathJoined(path: string)
    requires path != "" && path[0] != '/'
    requires forall i :: 0 <= i < |path| - 1 ==> !(path[i] == '/' && path[i + 1] == '/')
    ensures PathJoin(["/", "assets", path]) == "/assets/" + path
  {
    var parts := ["/", "assets", path];
    AssetPartsNonEmpty(path);
    var joined := "/" + "/" + "assets" + "/" + path;
    assert Join(parts, "/") == joined by {
      assert parts[1..] == ["assets", path];
      assert parts[1..][1..] == [path];
      assert Join(["assets", path], "/") == "assets" + "/" + path;
    }
    var normal := "/assets/" + path;
    assert CollapseSlashes(joined) == CollapseSlashes(normal) by {
      assert joined == "/" + normal;
      assert joined[1..] == normal;
    }
    AssetPathClean(path);
    CollapseKeepsNormalPaths(normal);
  }

  lemma AssetPartsNonEmpty(path: string)
    requires path != ""
    ensures NonEmpty(["/", "assets", path]) == ["/", "assets", path]
  {
    var parts := ["/", "assets", path];
    assert parts[1..] == ["assets", path];
    assert parts[1..][1..] == [path];
    assert [path][1..] == [];
    assert NonEmpty([path]) == [path];
    assert NonEmpty(["assets", path]) == ["assets", path];
  }

  lemma AssetPathClean(path: string)
    requires path != "" && path[0] != '/'
    requires forall i :: 0 <= i < |path| - 1 ==> !(path[i] == '/' && path[i + 1] == '/')
    ensures var normal := "/assets/" + path;
      forall i :: 0 <= i < |normal| - 1 ==> !(normal[i] == '/' && normal[i + 1] == '/')
  {
    var normal := "/assets/" + path;
    forall i | 0 <= i < |normal| - 1 ensures !(normal[i] == '/' && normal[i + 1] == '/') {
      if i >= 8 {
        assert normal[i] == path[i - 8] && normal[i + 1] == path[i - 7];
      }
    }
  }

  /** `isCurrent`. */
  predicate IsCurrent(currentPath: string, path: string) {
    currentPath == path
  }

  /** `isCurrentClass`. */
  function IsCurrentClass(currentPath: string, path: string): (r: string)
    ensures r == "current" <==> currentPath == path
    ensures r != "current" ==> r == ""
  {
    if IsCurrent(currentPath, path) then "current" else ""
  }

  /** `metaOrDefault`: the value unless it is empty, else the site metadata's entry. */
  function MetaOrDefault(value: string, key: string, metadata: Object): (r: Value)
    ensures value != "" ==> r == Str(value)
    ensures value == "" ==> r == Get(metadata, key)
  {
    if value != "" then Str(value) else Get(metadata, key)
  }
}
