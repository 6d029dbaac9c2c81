/**
 * The older markdown documentation plugin, server/plugins/md-docs/index.ts. It
 * discovers files and derives slugs exactly as the newer plugin does
 * (`MdDocs.Found`, `MdDocs.RoutePath`), but registers a route for every file,
 * published or not, and answers with the rendered html directly.
 */
module MdDocsLegacy {
  import opened Common
  import opened JsString
  import MdDocs

  /** The older schema: no layout, cache or meta; `published` is validated but unused. */
  datatype Frontmatter = Frontmatter(
    title: string,
    description: string,
    tags: Option<seq<string>>,
    date: int,
    published: bool,
    slug: Option<string>,
    image: Option<string>,
    httpHeaders: Option<seq<(string, string)>>)

  datatype Parsed = NoFrontmatter | Invalid(message: string) | Validated(fm: Frontmatter)

  datatype DocFile = DocFile(path: string, html: string, parsed: Parsed)

  datatype DocRoute = DocRoute(path: string, html: string, headers: seq<(string, string)>)

  /** A response: body, content type, status code and headers. */
  datatype Response = Response(body: string, contentType: string, code: int, headers: map<string, string>)

  function ErrorOf(file: DocFile): MdDocs.RegisterError
    requires !file.parsed.Validated?
  {
    if file.parsed.NoFrontmatter? then MdDocs.MissingFrontmatter("No frontmatter found in " + file.path)
    else MdDocs.SchemaError(file.parsed.message, "docs/" + file.path)
  }

  /** The route every file gets. */
  function DocRouteOf(file: DocFile, fm: Frontmatter): DocRoute {
    DocRoute(MdDocs.RoutePath(file.path, fm.slug), file.html, fm.httpHeaders.GetOr([]))
  }

  /** The routes registered for the files; the first file without valid frontmatter aborts. */
  function Routes(files: seq<DocFile>): Result<seq<DocRoute>, MdDocs.RegisterError>
    decreases |files|
  {
    if files == [] then Ok([])
    else
      var prev := Routes(files[..|files| - 1]);
      var file := files[|files| - 1];
      if prev.Err? then prev
      else if !file.parsed.Validated? then Err(ErrorOf(file))
      else Ok(prev.value + [DocRouteOf(file, file.parsed.fm)])
  }

  /** `register`'s loop over the discovered files. */
  method Register(files: seq<DocFile>) returns (r: Result<seq<DocRoute>, MdDocs.RegisterError>)
    ensures r == Routes(files)
  {
    var routes: seq<DocRoute> := [];
    for i := 0 to |files|
      invariant Routes(files[..i]) == Ok(routes)
    {
      assert files[..i + 1][..i] == files[..i];
      var file := files[i];
      if !file.parsed.Validated? {
        r := Err(ErrorOf(file));
        assert Routes(files[..i + 1]) == r;
        RoutesErrorSticks(files, i + 1);
        return;
      }
      routes := routes + [DocRouteOf(file, file.parsed.fm)];
    }
    assert files[..|files|] == files;
    r := Ok(routes);
  }

  /** Once a prefix of the files fails, the whole list fails with the same error. */
  lemma {:induction false} RoutesErrorSticks(files: seq<DocFile>, n: nat)
    requires n <= |files| && Routes(files[..n]).Err?
    ensures Routes(files) == Routes(files[..n])
    decreases |files| - n
  {
    if n < |files| {
      assert files[..n + 1][..n] == files[..n];
      RoutesErrorSticks(files, n + 1);
    } else {
      assert files[..n] == files;
    }
  }

  /**
   * Every file gets a route, published or not, in file order, at the path its
   * slug gives.
   */
  lemma {:induction false} EveryFileRouted(files: seq<DocFile>)
    requires Routes(files).Ok?
    ensures |Routes(files).value| == |files|
    ensures forall k :: 0 <= k < |files| ==>
      files[k].parsed.Validated? && Routes(files).value[k].path == MdDocs.RoutePath(files[k].path, files[k].parsed.fm.slug)
    decreases |files|
  {
    if files != [] {
      var init := files[..|files| - 1];
      EveryFileRouted(init);
      forall k | 0 <= k < |files| - 1
        ensures files[k].parsed.Validated? && Routes(files).value[k].path == MdDocs.RoutePath(files[k].path, files[k].parsed.fm.slug)
      {
        assert files[k] == init[k];
      }
    }
  }

  /** A file without valid frontmatter aborts registration with its error. */
  lemma BadFrontmatterAborts(files: seq<DocFile>, file: DocFile)
    requires Routes(files).Ok? && !file.parsed.Validated?
    ensures Routes(files + [file]) == Err(ErrorOf(file))
  {
    assert (files + [file])[..|files|] == files;
  }

  /** The handler: the html as `text/html` with status 200, then each header in order. */
  method Handle(route: DocRoute) returns (r: Response)
    ensures r == Response(route.html, "text/html", 200, MdDocs.HeaderMap(route.headers))
    ensures r.code == 200 && r.contentType == "text/html"
  {
    var headers := MdDocs.ApplyHeaders(map[], route.headers);
    r := Response(route.html, "text/html", 200, headers);
  }
}
