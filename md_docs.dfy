/**
 * The markdown documentation plugin of src/server/plugins/md-docs/index.ts:
 * discovery of `.md` files under the docs directory, and for each file the
 * route it registers (slug, publication and update dates, keywords, headers).
 *
 * The directory is an abstract tree; reading a file, `stat`, markdown-it and
 * the frontmatter schema are foreign: each file comes with its modification
 * time, the html it renders to and the outcome of parsing and validating its
 * frontmatter.
 */
module MdDocs {
  import opened Common
  import opened JsString
  import opened JsValue

  // ---------------------------------------------------------------- discovery

  /** An entry of a directory listing, in `readdirSync` order. */
  datatype Node = File(name: string) | Dir(name: string, entries: seq<Node>)

  /** `files.filter((file) => file.endsWith('.md'))`: directories with such names included. */
  function MdNames(entries: seq<Node>): (r: seq<string>)
    ensures |r| <= |entries|
    ensures forall k :: 0 <= k < |r| ==> EndsWith(r[k], ".md")
    decreases |entries|
  {
    if entries == [] then []
    else
      var last := entries[|entries| - 1];
      MdNames(entries[..|entries| - 1]) + (if EndsWith(last.name, ".md") then [last.name] else [])
  }

  /** `subFiles.map((file) => `${directory}/${file}`)`. */
  function Prefixed(dir: string, files: seq<string>): (r: seq<string>)
    ensures |r| == |files|
    ensures forall k :: 0 <= k < |files| ==> r[k] == dir + "/" + files[k]
    decreases |files|
  {
    if files == [] then [] else [dir + "/" + files[0]] + Prefixed(dir, files[1..])
  }

  /** `findMarkdownFiles`: this level's `.md` names, then every directory's results under its name. */
  function Found(entries: seq<Node>): seq<string>
    decreases entries, 1
  {
    MdNames(entries) + FoundBelow(entries)
  }

  /** The results of the directories among `entries`, in listing order. */
  function FoundBelow(entries: seq<Node>): seq<string>
    decreases entries, 0
  {
    if entries == [] then []
    else
      var last := entries[|entries| - 1];
      assert last in entries;
      FoundBelow(entries[..|entries| - 1]) + (if last.Dir? then Prefixed(last.name, Found(last.entries)) else [])
  }

  /** `findMarkdownFiles`, pushing each directory's results onto the filtered list. */
  method FindMarkdownFiles(entries: seq<Node>) returns (files: seq<string>)
    ensures files == Found(entries)
    decreases entries, 1
  {
    var top := FilterMdNames(entries);
    var below := PushDirectories(entries);
    files := top + below;
  }

  /** The `.md` filter over a listing. */
  method FilterMdNames(entries: seq<Node>) returns (names: seq<string>)
    ensures names == MdNames(entries)
  {
    names := [];
    for i := 0 to |entries|
      invariant names == MdNames(entries[..i])
    {
      assert entries[..i + 1][..i] == entries[..i];
      if EndsWith(entries[i].name, ".md") {
        names := names + [entries[i].name];
      }
    }
    assert entries[..|entries|] == entries;
  }

  /** The `directories.forEach`: each directory's results, prefixed by its name. */
  method PushDirectories(entries: seq<Node>) returns (files: seq<string>)
    ensures files == FoundBelow(entries)
    decreases entries, 0
  {
    files := [];
    for i := 0 to |entries|
      invariant files == FoundBelow(entries[..i])
    {
      assert entries[..i + 1][..i] == entries[..i];
      if entries[i].Dir? {
        assert entries[i] in entries;
        var sub := FindMarkdownFiles(entries[i].entries);
        files := files + Prefixed(entries[i].name, sub);
      }
    }
    assert entries[..|entries|] == entries;
  }

  /** Every discovered path ends in `.md`. */
  lemma {:induction false} FoundEndsWithMd(entries: seq<Node>)
    ensures forall k :: 0 <= k < |Found(entries)| ==> EndsWith(Found(entries)[k], ".md")
    decreases entries, 1
  {
    FoundBelowEndsWithMd(entries);
  }

  lemma {:induction false} FoundBelowEndsWithMd(entries: seq<Node>)
    ensures forall k :: 0 <= k < |FoundBelow(entries)| ==> EndsWith(FoundBelow(entries)[k], ".md")
    decreases entries, 0
  {
    if entries != [] {
      var last := entries[|entries| - 1];
      assert last in entries;
      FoundBelowEndsWithMd(entries[..|entries| - 1]);
      if last.Dir? {
        FoundEndsWithMd(last.entries);
        var sub := Found(last.entries);
        forall k | 0 <= k < |sub| ensures EndsWith(last.name + "/" + sub[k], ".md") {
          var s := last.name + "/" + sub[k];
          assert s[|s| - 3..] == sub[k][|sub[k]| - 3..];
        }
      }
    }
  }

  /** A `.md` entry of this level is listed. */
  lemma {:induction false} TopLevelFileFound(entries: seq<Node>, k: nat)
    requires k < |entries| && EndsWith(entries[k].name, ".md")
    ensures entries[k].name in Found(entries)
    decreases |entries|
  {
    if k < |entries| - 1 {
      TopLevelFileFound(entries[..|entries| - 1], k);
    }
  }

  /** What a subdirectory finds is listed under the subdirectory's name. */
  lemma {:induction false} SubdirectoryFileFound(entries: seq<Node>, k: nat, file: string)
    requires k < |entries| && entries[k].Dir? && file in Found(entries[k].entries)
    ensures entries[k].name + "/" + file in Found(entries)
    decreases |entries|
  {
    if k < |entries| - 1 {
      SubdirectoryFileFound(entries[..|entries| - 1], k, file);
    } else {
      var sub := Found(entries[k].entries);
      var j :| 0 <= j < |sub| && sub[j] == file;
      assert Prefixed(entries[k].name, sub)[j] == entries[k].name + "/" + file;
    }
  }

  // ---------------------------------------------------------------- routes

  /** The validated frontmatter, with the schema's defaults (`published` false, `layout` 'main') applied. */
  datatype Frontmatter = Frontmatter(
    title: string,
    description: string,
    tags: Option<seq<string>>,
    date: int,
    published: bool,
    slug: Option<string>,
    image: Option<string>,
    layout: string,
    httpHeaders: Option<seq<(string, string)>>,
    cache: Value)

  /** The outcome of rendering a file and validating its frontmatter. */
  datatype Parsed = NoFrontmatter | Invalid(message: string) | Validated(fm: Frontmatter)

  /** A discovered file: its path under the docs directory, `stat.mtime` and what rendering gave. */
  datatype DocFile = DocFile(path: string, mtime: int, html: string, parsed: Parsed)

  /** Why registration aborts: no frontmatter, or a schema error whose `cause` names the file. */
  datatype RegisterError = MissingFrontmatter(message: string) | SchemaError(message: string, cause: string)

  /** The `app` settings of a doc route (and the `meta` its view receives). */
  datatype DocMeta = DocMeta(
    publishedAt: int, updatedAt: int, title: string, description: string,
    image: Option<string>, keywords: string)

  datatype DocRoute = DocRoute(
    path: string, meta: DocMeta, layout: string, headers: seq<(string, string)>, cache: Value, html: string)

  /** `Path.basename(file)`: the text after the last `/`. */
  function Basename(file: string): string {
    var parts := Split(file, "/");
    parts[|parts| - 1]
  }

  /** The route path below `/docs`: the first `.md` removed, or the base name replaced by the slug. */
  function SlugPath(file: string, slug: Option<string>): string {
    if slug.Some? then ReplaceFirst(file, Basename(file), slug.value)
    else ReplaceFirst(file, ".md", "")
  }

  /** `Path.join('/docs', slugPath)` (path normalisation is not modelled). */
  function RoutePath(file: string, slug: Option<string>): string {
    "/docs/" + SlugPath(file, slug)
  }

  /** Without a slug, the route path is the file path with its first `.md` cut out. */
  lemma SlugWithoutFrontmatterSlug(file: string)
    requires IndexOf(file, ".md").Some?
    ensures var i := IndexOf(file, ".md").value;
      RoutePath(file, None) == "/docs/" + file[..i] + file[i + 3..]
  {
    ReplaceFirstSpec(file, ".md", "");
  }

  /** With a slug (without `$` patterns), the first occurrence of the base name is replaced by it. */
  lemma SlugReplacesBasename(file: string, slug: string)
    requires '$' !in slug && IndexOf(file, Basename(file)).Some?
    ensures var b := Basename(file);
      var i := IndexOf(file, b).value;
      RoutePath(file, Some(slug)) == "/docs/" + file[..i] + slug + file[i + |b|..]
  {
    ReplaceFirstSpec(file, Basename(file), slug);
  }

  /** `stat.mtime < publishedAt ? publishedAt : stat.mtime`. */
  function UpdatedAt(mtime: int, publishedAt: int): (r: int)
    ensures r >= mtime && r >= publishedAt
    ensures r == mtime || r == publishedAt
  {
    if mtime < publishedAt then publishedAt else mtime
  }

  /** `tags?.join(',') || ''`. */
  function Keywords(tags: Option<seq<string>>): (r: string)
    ensures tags.None? ==> r == ""
    ensures tags.Some? ==> r == Join(tags.value, ",")
  {
    if tags.Some? then Join(tags.value, ",") else ""
  }

  /** The route a published file gets. */
  function DocRouteOf(file: DocFile, fm: Frontmatter): DocRoute {
    var meta := DocMeta(fm.date, UpdatedAt(file.mtime, fm.date), fm.title, fm.description, fm.image, Keywords(fm.tags));
    DocRoute(RoutePath(file.path, fm.slug), meta, fm.layout, fm.httpHeaders.GetOr([]), fm.cache, file.html)
  }

  /** The error a file without valid frontmatter aborts registration with. */
  function ErrorOf(file: DocFile): RegisterError
    requires !file.parsed.Validated?
  {
    if file.parsed.NoFrontmatter? then MissingFrontmatter("No frontmatter found in " + file.path)
    else SchemaError(file.parsed.message, "docs/" + file.path)
  }

  /** The routes registered for the files, in order; the first file without valid frontmatter aborts. */
  function Routes(files: seq<DocFile>): Result<seq<DocRoute>, RegisterError>
    decreases |files|
  {
    if files == [] then Ok([])
    else
      var prev := Routes(files[..|files| - 1]);
      var file := files[|files| - 1];
      if prev.Err? then prev
      else if !file.parsed.Validated? then Err(ErrorOf(file))
      else if !file.parsed.fm.published then prev
      else Ok(prev.value + [DocRouteOf(file, file.parsed.fm)])
  }

  /** `register`'s loop over the discovered files. */
  method Register(files: seq<DocFile>) returns (r: Result<seq<DocRoute>, RegisterError>)
    ensures r == Routes(files)
  {
    var routes: seq<DocRoute> := [];
    for i := 0 to |files|
      invariant Routes(files[..i]) == Ok(routes)
    {
      assert files[..i + 1][..i] == files[..i];
      var file := files[i];
      if !file.parsed.Validated? {
        r := Err(ErrorOf(file));
        assert Routes(files[..i + 1]) == r;
        RoutesErrorSticks(files, i + 1);
        return;
      }
      if !file.parsed.fm.published {
        continue;
      }
      routes := routes + [DocRouteOf(file, file.parsed.fm)];
    }
    assert files[..|files|] == files;
    r := Ok(routes);
  }

  /** Once a prefix of the files fails, the whole list fails with the same error. */
  lemma {:induction false} RoutesErrorSticks(files: seq<DocFile>, n: nat)
    requires n <= |files| && Routes(files[..n]).Err?
    ensures Routes(files) == Routes(files[..n])
    decreases |files| - n
  {
    if n < |files| {
      assert files[..n + 1][..n] == files[..n];
      RoutesErrorSticks(files, n + 1);
    } else {
      assert files[..n] == files;
    }
  }

  /** An unpublished file adds no route. */
  lemma UnpublishedAddsNoRoute(files: seq<DocFile>, file: DocFile)
    requires file.parsed.Validated? && !file.parsed.fm.published
    ensures Routes(files + [file]) == Routes(files)
  {
    assert (files + [file])[..|files|] == files;
  }

  /** A file without frontmatter, or with frontmatter the schema refuses, aborts registration. */
  lemma BadFrontmatterAborts(files: seq<DocFile>, file: DocFile)
    requires Routes(files).Ok? && !file.parsed.Validated?
    ensures Routes(files + [file]) == Err(ErrorOf(file))
  {
    assert (files + [file])[..|files|] == files;
  }

  /** Published files each get one route, in order; every route lives under `/docs/`. */
  lemma {:induction false} RoutesArePublishedFiles(files: seq<DocFile>)
    requires Routes(files).Ok?
    ensures |Routes(files).value| == PublishedCount(files)
    ensures forall k :: 0 <= k < |Routes(files).value| ==> StartsWith(Routes(files).value[k].path, "/docs/")
    decreases |files|
  {
    if files != [] {
      RoutesArePublishedFiles(files[..|files| - 1]);
    }
  }

  /** The number of files whose frontmatter says `published`. */
  function PublishedCount(files: seq<DocFile>): nat
    decreases |files|
  {
    if files == [] then 0
    else
      var file := files[|files| - 1];
      PublishedCount(files[..|files| - 1]) + (if file.parsed.Validated? && file.parsed.fm.published then 1 else 0)
  }

  // ---------------------------------------------------------------- handler

  /** `res.header(key, val)` for each entry in order: later entries win. */
  function HeaderMap(entries: seq<(string, string)>): (r: map<string, string>)
    ensures forall key :: key in r <==> exists k :: 0 <= k < |entries| && entries[k].0 == key
    decreases |entries|
  {
    if entries == [] then map[]
    else
      var last := entries[|entries| - 1];
      var prev := HeaderMap(entries[..|entries| - 1]);
      assert forall key :: key in prev ==> exists k :: 0 <= k < |entries| && entries[k].0 == key by {
        forall key | key in prev ensures exists k :: 0 <= k < |entries| && entries[k].0 == key {
          var k :| 0 <= k < |entries| - 1 && entries[..|entries| - 1][k].0 == key;
          assert entries[k].0 == key;
        }
      }
      prev[last.0 := last.1]
  }

  /** Every header entry is set, with the value of its last occurrence. */
  lemma {:induction false} HeaderMapLastWins(entries: seq<(string, string)>, k: nat)
    requires k < |entries|
    requires forall j :: k < j < |entries| ==> entries[j].0 != entries[k].0
    ensures entries[k].0 in HeaderMap(entries) && HeaderMap(entries)[entries[k].0] == entries[k].1
    decreases |entries|
  {
    if k < |entries| - 1 {
      HeaderMapLastWins(entries[..|entries| - 1], k);
    }
  }

  /** Setting headers one by one, as the handler's `forEach` does. */
  method ApplyHeaders(start: map<string, string>, entries: seq<(string, string)>) returns (headers: map<string, string>)
    ensures headers == start + HeaderMap(entries)
  {
    headers := start;
    for i := 0 to |entries|
      invariant headers == start + HeaderMap(entries[..i])
    {
      HeaderMapStep(start, entries, i);
      headers := headers[entries[i].0 := entries[i].1];
    }
    assert entries[..|entries|] == entries;
  }

  lemma HeaderMapStep(start: map<string, string>, entries: seq<(string, string)>, i: nat)
    requires i < |entries|
    ensures start + HeaderMap(entries[..i + 1]) == (start + HeaderMap(entries[..i]))[entries[i].0 := entries[i].1]
  {
    var pre := entries[..i + 1];
    assert pre[..i] == entries[..i] && pre[i] == entries[i];
    assert HeaderMap(pre) == HeaderMap(entries[..i])[entries[i].0 := entries[i].1];
  }

  /** What the doc route's handler answers. */
  datatype DocResponse =
    | NotFound
    | DocView(template: string, meta: DocMeta, html: string, layout: string, headers: map<string, string>)

  /** The handler at time `now`: not found before publication, the `docs` view with the headers otherwise. */
  function HandleSpec(route: DocRoute, now: int): (r: DocResponse)
    ensures r.NotFound? <==> now < route.meta.publishedAt
    ensures r.DocView? ==> r.template == "docs" && r.layout == route.layout && r.headers == HeaderMap(route.headers)
  {
    if now < route.meta.publishedAt then NotFound
    else DocView("docs", route.meta, route.html, route.layout, HeaderMap(route.headers))
  }

  method Handle(route: DocRoute, now: int) returns (r: DocResponse)
    ensures r == HandleSpec(route, now)
  {
    if now < route.meta.publishedAt {
      return NotFound;
    }
    var headers := ApplyHeaders(map[], route.headers);
    r := DocView("docs", route.meta, route.html, route.layout, headers);
  }
}
