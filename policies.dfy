/**
 * The policy pages of src/server/routes/policies.ts: one route per policy of
 * the site data, the summary list every page receives, the GitHub commit link
 * the last-updated date is read from, and the `/policies` redirect.
 *
 * The GitHub client methods and the markdown renderer are foreign: a handler
 * is given the fetched text, the last-updated value, and what rendering the
 * table-of-contents version of that text produced. `encodeURIComponent` is a
 * parameter.
 */
module Policies {
  import opened Common
  import opened JsString
  import opened JsValue
  import MdMethod

  datatype Policy = Policy(slug: string, title: string, description: string, githubLink: string, metadata: Option<Object>)

  datatype Summary = Summary(slug: string, title: string, description: string)

  /** The `policies` list: slug, title and description of each policy, in order. */
  function Summaries(ps: seq<Policy>): (r: seq<Summary>)
    ensures |r| == |ps|
    ensures forall k :: 0 <= k < |ps| ==> r[k] == Summary(ps[k].slug, ps[k].title, ps[k].description)
    decreases |ps|
  {
    if ps == [] then [] else [Summary(ps[0].slug, ps[0].title, ps[0].description)] + Summaries(ps[1..])
  }

  const ContentsMarker: string := "/contents/"

  /**
   * `${ghApi}/commits?path=${encodeURIComponent(filePath)}` where
   * `[ghApi, filePath] = githubLink.split('/contents/')`; a link without the
   * marker has no second piece, which encodes as `"undefined"`.
   */
  function CommitLink(githubLink: string, encode: string -> string): string {
    var parts := Split(githubLink, ContentsMarker);
    var filePath := if |parts| > 1 then parts[1] else "undefined";
    parts[0] + "/commits?path=" + encode(filePath)
  }

  /** The API part before the marker, the commits path, then the encoded file path after it. */
  lemma CommitLinkOfContentsUrl(api: string, file: string, encode: string -> string)
    requires !Includes(api, ContentsMarker) && !Includes(file, ContentsMarker)
    requires IndexOf(api + ContentsMarker + file, ContentsMarker) == Some(|api|)
    ensures CommitLink(api + ContentsMarker + file, encode) == api + "/commits?path=" + encode(file)
  {
    var s := api + ContentsMarker + file;
    assert s[..|api|] == api;
    assert s[|api| + |ContentsMarker|..] == file;
    assert Split(file, ContentsMarker) == [file];
  }

  /** Without the marker the whole link is the API part and the path is `"undefined"`. */
  lemma CommitLinkWithoutMarker(link: string, encode: string -> string)
    requires !Includes(link, ContentsMarker)
    ensures CommitLink(link, encode) == link + "/commits?path=" + encode("undefined")
  {
  }

  /** The routes `getPolicies` returns. */
  datatype Route =
    | PolicyRoute(path: string, policy: Policy, app: Object)
    | Redirect(path: string, target: string, temporary: bool)

  /** A policy route's `app` settings: title, description and slug, overridden by `metadata`. */
  function AppSettings(p: Policy): Object {
    Spread(map["title" := Str(p.title), "description" := Str(p.description), "slug" := Str(p.slug)], p.metadata.GetOr(map[]))
  }

  function PolicyRoutes(ps: seq<Policy>): (r: seq<Route>)
    ensures |r| == |ps|
    ensures forall k :: 0 <= k < |ps| ==> r[k] == PolicyRoute("/policies/" + ps[k].slug, ps[k], AppSettings(ps[k]))
    decreases |ps|
  {
    if ps == [] then [] else [PolicyRoute("/policies/" + ps[0].slug, ps[0], AppSettings(ps[0]))] + PolicyRoutes(ps[1..])
  }

  /** `getPolicies`: the policy routes in order, then the temporary redirect of `/policies` to the code of conduct. */
  function GetPolicies(ps: seq<Policy>): (r: seq<Route>)
    ensures |r| == |ps| + 1
    ensures r[|ps|] == Redirect("/policies", "/policies/coc", true)
    ensures forall k :: 0 <= k < |ps| ==> r[k].PolicyRoute? && r[k].path == "/policies/" + ps[k].slug
  {
    PolicyRoutes(ps) + [Redirect("/policies", "/policies/coc", true)]
  }

  /** A policy's own metadata wins over its title, description and slug in the route settings. */
  lemma AppSettingsPrecedence(p: Policy, key: string)
    ensures var app := AppSettings(p);
      && (p.metadata.Some? && key in p.metadata.value ==> key in app && app[key] == p.metadata.value[key])
      && (p.metadata.None? ==> app == map["title" := Str(p.title), "description" := Str(p.description), "slug" := Str(p.slug)])
  {
  }

  /** What the policy handler renders. */
  datatype PolicyPage = PolicyPage(source: string, html: string, meta: Object, policies: seq<Summary>)

  /**
   * `Hoek.merge(metadata || {}, {title, description, slug, updatedAt, ...metadata})`:
   * the source's keys are copied over the target, `undefined` and `null` included.
   */
  function MergedMeta(p: Policy, updatedAt: Value, rendered: Option<Object>): Object {
    var target := rendered.GetOr(map[]);
    var source := Spread(map["title" := Str(p.title), "description" := Str(p.description),
                             "slug" := Str(p.slug), "updatedAt" := updatedAt], target);
    Spread(target, source)
  }

  /** The merge amounts to the rendered frontmatter laid over title, description, slug and update time. */
  lemma MergedMetaPrecedence(p: Policy, updatedAt: Value, rendered: Option<Object>)
    ensures var base := map["title" := Str(p.title), "description" := Str(p.description),
                             "slug" := Str(p.slug), "updatedAt" := updatedAt];
      MergedMeta(p, updatedAt, rendered) == Spread(base, rendered.GetOr(map[]))
  {
  }

  /**
   * The handler: the fetched text gets its table of contents from
   * `addTocToMarkdown` as written, is rendered, and the page receives the html,
   * the merged metadata and the summary list.
   */
  function PolicyHandler(p: Policy, all: seq<Policy>, fetched: string, updatedAt: Value,
                         render: string -> (string, Option<Object>)): (r: PolicyPage)
    ensures r.source == MdMethod.AddTocToMarkdown(fetched)
    ensures r.policies == Summaries(all)
    ensures r.html == render(r.source).0 && r.meta == MergedMeta(p, updatedAt, render(r.source).1)
  {
    var source := MdMethod.AddTocToMarkdown(fetched);
    var (html, rendered) := render(source);
    PolicyPage(source, html, MergedMeta(p, updatedAt, rendered), Summaries(all))
  }

  /**
   * A policy with a title line is rendered with that title first, marked to be
   * left out of its own table of contents, followed by the `[[toc]]` marker.
   */
  lemma PolicyTitleFirst(p: Policy, all: seq<Policy>, fetched: string, updatedAt: Value,
                         render: string -> (string, Option<Object>))
    requires MdMethod.H1(fetched).Some? && MdMethod.H1(fetched).value != ""
    ensures var source := PolicyHandler(p, all, fetched, updatedAt, render).source;
      var h1 := MdMethod.H1(fetched).value;
      && MdMethod.H1(source) == Some(h1 + "<!-- omit from toc -->")
      && source[..2 + |h1| + |MdMethod.OmitMarker| + |MdMethod.Toc|] == "# " + h1 + MdMethod.OmitMarker + MdMethod.Toc
  {
    MdMethod.TitleStaysFirstHeading(fetched);
    MdMethod.HeadingMovedToTop(fetched);
  }

  /** A policy without a title line is rendered with only the `[[toc]]` marker in front. */
  lemma PolicyWithoutTitle(p: Policy, all: seq<Policy>, fetched: string, updatedAt: Value,
                           render: string -> (string, Option<Object>))
    requires forall q :: !MdMethod.HeadingAt(fetched, q)
    ensures PolicyHandler(p, all, fetched, updatedAt, render).source == "[[toc]]\n\n" + fetched
  {
    MdMethod.NoHeadingOnlyToc(fetched);
  }
}
