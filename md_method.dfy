/**
 * The markdown server methods of src/server/plugins/md-docs/method.ts: the
 * frontmatter stack that `generateMarkdown` pops, the `addTocToMarkdown`
 * rewrite and the cache options both methods are registered with.
 *
 * markdown-it rendering and YAML parsing are foreign: a render is given as the
 * html it produced and the frontmatter (if any) the frontmatter plugin found.
 */
module MdMethod {
  import opened Common
  import opened JsString
  import opened JsValue
  import Misc

  // ---------------------------------------------------------------- frontmatter stack

  /** What `generateMarkdown` resolves to. */
  datatype Rendered = Rendered(html: string, metadata: Option<Value>)

  /** The stack after one render: push what the parser found, then pop. */
  function StackAfterRender(items: seq<Value>, found: Option<Value>): (r: seq<Value>)
    ensures found.Some? ==> r == items
    ensures found.None? && items != [] ==> r == items[..|items| - 1]
    ensures found.None? && items == [] ==> r == []
  {
    var pushed := if found.Some? then items + [found.value] else items;
    if pushed == [] then [] else pushed[..|pushed| - 1]
  }

  /** The metadata one render returns: the top of the stack after the push. */
  function MetadataOfRender(items: seq<Value>, found: Option<Value>): (r: Option<Value>)
    ensures found.Some? ==> r == found
    ensures found.None? ==> r == (if items == [] then None else Some(items[|items| - 1]))
  {
    var pushed := if found.Some? then items + [found.value] else items;
    if pushed == [] then None else Some(pushed[|pushed| - 1])
  }

  /** The metadata a run of renders returns, one per render, from the given stack. */
  function MetadataOfRenders(items: seq<Value>, founds: seq<Option<Value>>): (r: seq<Option<Value>>)
    ensures |r| == |founds|
    decreases |founds|
  {
    if founds == [] then []
    else [MetadataOfRender(items, founds[0])] + MetadataOfRenders(StackAfterRender(items, founds[0]), founds[1..])
  }

  /**
   * From an empty stack every render returns its own frontmatter, or nothing
   * when the document has none: the stack never carries one document's
   * metadata over to the next.
   */
  lemma {:induction false} RendersFromEmptyStack(founds: seq<Option<Value>>)
    ensures MetadataOfRenders([], founds) == founds
    decreases |founds|
  {
    if founds != [] {
      RendersFromEmptyStack(founds[1..]);
    }
  }

  /** A document without frontmatter rendered over a non-empty stack gets the entry on top. */
  lemma StaleMetadataIsReturned(items: seq<Value>)
    requires items != []
    ensures MetadataOfRender(items, None) == Some(items[|items| - 1])
    ensures StackAfterRender(items, None) == items[..|items| - 1]
  {
  }

  /** `internals._currentMetadata` together with the operations on it. */
  class MetadataStack {
    var items: seq<Value>

    constructor()
      ensures items == []
    {
      items := [];
    }

    /** `getFrontmatterYaml`: the frontmatter plugin's callback pushes the parsed YAML. */
    method Push(meta: Value)
      modifies this
      ensures items == old(items) + [meta]
    {
      items := items + [meta];
    }

    /** `_currentMetadata.pop()`: the most recent entry, or `undefined` when empty. */
    method Pop() returns (r: Option<Value>)
      modifies this
      ensures old(items) == [] ==> r.None? && items == []
      ensures old(items) != [] ==> r == Some(old(items)[|old(items)| - 1]) && items == old(items)[..|old(items)| - 1]
    {
      if items == [] {
        r := None;
      } else {
        r := Some(items[|items| - 1]);
        items := items[..|items| - 1];
      }
    }

    /** `generateMarkdown`: render (which may push the frontmatter), then pop. */
    method GenerateMarkdown(html: string, found: Option<Value>) returns (r: Rendered)
      modifies this
      ensures r == Rendered(html, MetadataOfRender(old(items), found))
      ensures items == StackAfterRender(old(items), found)
    {
      if found.Some? {
        Push(found.value);
      }
      var meta := Pop();
      r := Rendered(html, meta);
    }
  }

  // ---------------------------------------------------------------- addTocToMarkdown

  /** The characters that end a line for `^` under the `m` flag and that `.` does not match. */
  predicate IsLineTerminator(c: char) {
    c == '\n' || c == '\r' || c == '\U{2028}' || c == '\U{2029}'
  }

  /** Position `p` of `s` is at the start of a line. */
  predicate LineStart(s: string, p: nat)
    requires p <= |s|
  {
    p == 0 || IsLineTerminator(s[p - 1])
  }

  /** `/^# /m` matches at `p`. */
  predicate HeadingAt(s: string, p: nat) {
    p + 2 <= |s| && LineStart(s, p) && s[p] == '#' && s[p + 1] == ' '
  }

  /** The leftmost position at or after `from` where a line starts with `# `. */
  function FirstHeading(s: string, from: nat): (r: Option<nat>)
    ensures r.Some? ==> from <= r.value && HeadingAt(s, r.value)
    ensures r.Some? ==> forall q :: from <= q < r.value ==> !HeadingAt(s, q)
    ensures r.None? ==> forall q :: from <= q ==> !HeadingAt(s, q)
    decreases |s| - from
  {
    if from + 2 > |s| then None
    else if HeadingAt(s, from) then Some(from)
    else FirstHeading(s, from + 1)
  }

  /** The end of the line that contains position `i`: the next terminator, or the end of `s`. */
  function LineEnd(s: string, i: nat): (e: nat)
    requires i <= |s|
    ensures i <= e <= |s|
    ensures forall k :: i <= k < e ==> !IsLineTerminator(s[k])
    ensures e < |s| ==> IsLineTerminator(s[e])
    decreases |s| - i
  {
    if i == |s| || IsLineTerminator(s[i]) then i else LineEnd(s, i + 1)
  }

  /** `text.match(/^# (.*)/m)?.[1]`: the rest of the first `# ` line, up to its end. */
  function H1(text: string): (r: Option<string>)
    ensures r.Some? <==> FirstHeading(text, 0).Some?
    ensures r.Some? ==> var p := FirstHeading(text, 0).value;
      && HeadingAt(text, p) && r.value == text[p + 2..LineEnd(text, p + 2)]
    ensures r.Some? ==> forall k :: 0 <= k < |r.value| ==> !IsLineTerminator(r.value[k])
    ensures r.None? <==> forall q :: !HeadingAt(text, q)
  {
    match FirstHeading(text, 0)
    case None => None
    case Some(p) => Some(text[p + 2..LineEnd(text, p + 2)])
  }

  const Toc: string := "[[toc]]\n\n"
  const OmitMarker: string := "<!-- omit from toc -->\n\n"

  /**
   * `addTocToMarkdown`, as written: with a non-empty heading the heading goes
   * on top, and the FIRST occurrence of `# <h1>` anywhere in the text is removed.
   */
  function AddTocToMarkdown(text: string): string {
    var h1 := H1(text);
    if h1.Some? && h1.value != "" then
      "# " + h1.value + OmitMarker + Toc + ReplaceFirst(text, "# " + h1.value, "")
    else Toc + text
  }

  /** Without a `# ` heading line (or with an empty one) only the `[[toc]]` marker is prepended. */
  lemma NoHeadingOnlyToc(text: string)
    requires forall q :: !HeadingAt(text, q)
    ensures AddTocToMarkdown(text) == "[[toc]]\n\n" + text
  {
  }

  /**
   * With a heading the result is the heading with the omit marker, the toc, and
   * the text with exactly one occurrence of `# <h1>` cut out and the rest unchanged.
   */
  lemma HeadingMovedToTop(text: string)
    requires H1(text).Some? && H1(text).value != ""
    ensures var h1 := H1(text).value;
      var i := IndexOf(text, "# " + h1);
      && i.Some?
      && AddTocToMarkdown(text) ==
         "# " + h1 + OmitMarker + Toc + text[..i.value] + text[i.value + 2 + |h1|..]
  {
    var h1 := H1(text).value;
    var pat := "# " + h1;
    HeadingTextOccurs(text);
    ReplaceFirstSpec(text, pat, "");
    var i := IndexOf(text, pat).value;
    var head := "# " + h1 + OmitMarker + Toc;
    var a, b := text[..i], text[i + 2 + |h1|..];
    assert ReplaceFirst(text, pat, "") == a + b;
    assert AddTocToMarkdown(text) == head + (a + b);
    assert head + (a + b) == head + a + b;
  }

  /** The first heading line holds `# <h1>`, so the text includes it. */
  lemma HeadingTextOccurs(text: string)
    requires H1(text).Some?
    ensures Includes(text, "# " + H1(text).value)
  {
    var h1 := H1(text).value;
    var p := FirstHeading(text, 0).value;
    var e := LineEnd(text, p + 2);
    var pat := "# " + h1;
    assert text[p..p + |pat|] == pat by {
      assert text[p..e] == text[p..p + 2] + text[p + 2..e];
    }
    IncludesWhenOccurs(text, pat, p);
  }

  /**
   * The evidently intended rewrite: remove the heading line's own `# <h1>`, the
   * one the regular expression matched.
   */
  function AddTocAtHeading(text: string): (r: string)
    ensures H1(text).Some? && H1(text).value != "" ==>
      var p := FirstHeading(text, 0).value;
      var h1 := H1(text).value;
      r == "# " + h1 + OmitMarker + Toc + text[..p] + text[p + 2 + |h1|..]
    ensures (H1(text).None? || H1(text).value == "") ==> r == Toc + text
  {
    match FirstHeading(text, 0)
    case None => Toc + text
    case Some(p) =>
      var e := LineEnd(text, p + 2);
      if e == p + 2 then Toc + text
      else "# " + text[p + 2..e] + OmitMarker + Toc + text[..p] + text[e..]
  }

  /**
   * Both rewrites put the title on top: the first `# ` line of the result is the
   * title followed by the omit marker, so the table of contents skips it.
   */
  lemma TitleStaysFirstHeading(text: string)
    requires H1(text).Some? && H1(text).value != ""
    ensures H1(AddTocToMarkdown(text)) == Some(H1(text).value + "<!-- omit from toc -->")
    ensures H1(AddTocAtHeading(text)) == Some(H1(text).value + "<!-- omit from toc -->")
  {
    var h1 := H1(text).value;
    TitleOnTop(h1, ReplaceFirst(text, "# " + h1, ""));
    AtHeadingTitleOnTop(text);
  }

  lemma AtHeadingTitleOnTop(text: string)
    requires H1(text).Some? && H1(text).value != ""
    ensures H1(AddTocAtHeading(text)) == Some(H1(text).value + "<!-- omit from toc -->")
  {
    var h1 := H1(text).value;
    var p := FirstHeading(text, 0).value;
    var head := "# " + h1 + OmitMarker + Toc;
    var a, b := text[..p], text[p + 2 + |h1|..];
    var r := AddTocAtHeading(text);
    assert r == head + a + b;
    assert r == head + (a + b);
    TitleOnTop(h1, a + b);
  }

  /** The title line, the omit marker and the toc marker, then any text: the title line is the first heading. */
  lemma TitleOnTop(h1: string, rest: string)
    requires forall k :: 0 <= k < |h1| ==> !IsLineTerminator(h1[k])
    ensures H1("# " + h1 + OmitMarker + Toc + rest) == Some(h1 + "<!-- omit from toc -->")
  {
    var head := "# " + h1 + OmitMarker + Toc;
    var r := head + rest;
    var n := 2 + |h1| + |OmitMarker|;
    assert r[..n] == "# " + h1 + OmitMarker by {
      assert r[..n] == head[..n];
    }
    TitleLine(h1, r);
  }

  /** A text that starts with `# <h1>` and the omit marker has that line as its first heading. */
  lemma TitleLine(h1: string, r: string)
    requires forall k :: 0 <= k < |h1| ==> !IsLineTerminator(h1[k])
    requires |r| >= 2 + |h1| + |OmitMarker| && r[..2 + |h1| + |OmitMarker|] == "# " + h1 + OmitMarker
    ensures H1(r) == Some(h1 + "<!-- omit from toc -->")
  {
    var title := h1 + "<!-- omit from toc -->";
    var e := 2 + |title|;
    assert r[..e] == "# " + title && r[e] == '\n' by {
      assert r[..2 + |h1| + |OmitMarker|][..e] == r[..e];
      assert ("# " + h1 + OmitMarker)[..e] == "# " + title;
      assert ("# " + h1 + OmitMarker)[e] == '\n';
    }
    assert HeadingAt(r, 0) by { assert r[..e][0] == '#' && r[..e][1] == ' '; }
    assert FirstHeading(r, 0) == Some(0);
    forall k | 2 <= k < e ensures !IsLineTerminator(r[k]) {
      assert r[k] == r[..e][k] == ("# " + title)[k];
      if k < 2 + |h1| {
        assert ("# " + title)[k] == h1[k - 2];
      }
    }
    var le := LineEnd(r, 2);
    assert le == e;
    assert r[2..e] == title by { assert r[2..e] == r[..e][2..]; }
  }

  lemma ExampleHeading(t: string)
    requires t == "## A\n# A"
    ensures FirstHeading(t, 0) == Some(5) && LineEnd(t, 7) == 8 && H1(t) == Some("A")
  {
    assert !HeadingAt(t, 0) && !HeadingAt(t, 1) && !HeadingAt(t, 2) && !HeadingAt(t, 3) && !HeadingAt(t, 4);
    assert HeadingAt(t, 5);
    assert LineEnd(t, 8) == 8;
    assert t[7..8] == "A";
  }

  /** ... while the first `# A` of the text is inside the sub-heading. */
  lemma ExampleFirstOccurrence(t: string)
    requires t == "## A\n# A"
    ensures IndexOf(t, "# A") == Some(1)
  {
    assert t[0..3][1] == '#' && "# A"[1] == ' ';
    assert t[0..3] != "# A";
    assert t[1..4] == "# A";
    assert IndexOfFrom(t, "# A", 1) == Some(1);
  }

  /** A sub-heading with the same words before the title: the as-written rewrite cuts into it. */
  lemma SubheadingBeforeTitle()
    ensures AddTocToMarkdown("## A\n# A") == "# A" + OmitMarker + Toc + "#\n# A"
    ensures AddTocAtHeading("## A\n# A") == "# A" + OmitMarker + Toc + "## A\n"
  {
    SubheadingAsWritten("## A\n# A");
    SubheadingAtHeading("## A\n# A");
  }

  lemma SubheadingAsWritten(t: string)
    requires t == "## A\n# A"
    ensures AddTocToMarkdown(t) == "# A" + OmitMarker + Toc + "#\n# A"
  {
    ExampleHeading(t);
    ExampleFirstOccurrence(t);
    ReplaceFirstSpec(t, "# A", "");
    assert "# " + H1(t).value == "# A";
    assert ReplaceFirst(t, "# A", "") == t[..1] + t[4..] == "#\n# A";
  }

  lemma SubheadingAtHeading(t: string)
    requires t == "## A\n# A"
    ensures AddTocAtHeading(t) == "# A" + OmitMarker + Toc + "## A\n"
  {
    ExampleHeading(t);
    assert t[..5] + t[8..] == "## A\n";
  }

  // ---------------------------------------------------------------- method options

  datatype CacheOptions = CacheOptions(
    cache: string, segment: string, expiresIn: int, generateTimeout: int, staleIn: int, staleTimeout: int)

  /** `options(segment)`: an in-memory cache in the given segment (the key generator is not modelled). */
  function Options(segment: string): CacheOptions {
    CacheOptions("memory", segment, Misc.InHours(24), 1000, Misc.InHours(1), 10)
  }

  /** Entries expire after a day and go stale after an hour, well before expiry. */
  lemma OptionsLifetimes(segment: string)
    ensures Options(segment).segment == segment && Options(segment).cache == "memory"
    ensures Options(segment).expiresIn == 86400000 && Options(segment).staleIn == 3600000
    ensures Options(segment).staleIn < Options(segment).expiresIn
    ensures Options(segment).staleTimeout < Options(segment).expiresIn - Options(segment).staleIn
    ensures Options(segment).generateTimeout == 1000 && Options(segment).staleTimeout == 10
  {
    Misc.HoursAreSixtyMinutes(24);
    Misc.HoursAreSixtyMinutes(1);
  }

  /** One entry of the exported method list. */
  datatype MethodEntry = MethodEntry(name: string, options: CacheOptions)

  /** The exported list: `markdown` and `addTocToMarkdown`, each cached in a segment named after it. */
  const MarkdownMethods: seq<MethodEntry> := [
    MethodEntry("markdown", Options("markdown")),
    MethodEntry("addTocToMarkdown", Options("addTocToMarkdown"))]

  lemma MethodsUseOwnSegment()
    ensures forall k :: 0 <= k < |MarkdownMethods| ==> MarkdownMethods[k].options.segment == MarkdownMethods[k].name
  {
  }
}
