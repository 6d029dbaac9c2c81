/**
 * `saveEnv` of scripts/_helpers.ts: the `.env` text is read, its entries are
 * parsed, and a `key=value` line is appended for every given variable whose key
 * the file does not already define. The file read and write are I/O; here the
 * old file text is an input and the new text is the result.
 */
module EnvFile {
  import opened Common
  import opened JsString

  /** One `key=value` pair: a parsed line, or an own property of the `envs` record. */
  datatype Entry = Entry(key: string, value: string)

  /** A `key=value` text cut at its first `=`: the key before it, the value after it (later `=` kept). */
  function SplitAssignment(text: string): Entry {
    match IndexOf(text, "=")
    case None => Entry(text, "")
    case Some(i) => Entry(text[..i], text[i + 1..])
  }

  /**
   * `const [key, ...value] = text.split('='); value.join('=')` is the cut at the
   * first `=`: the first piece is the key and the other pieces, rejoined, the value.
   */
  lemma SplitAssignmentIsDestructuring(text: string)
    ensures var parts := Split(text, "=");
      SplitAssignment(text) == Entry(parts[0], Join(parts[1..], "="))
  {
    SplitFirst(text, "=");
  }

  /** The key never holds an `=`, and when the text has one, key `=` value is the text again. */
  lemma SplitAssignmentParts(text: string)
    ensures '=' !in SplitAssignment(text).key
    ensures '=' in text ==> SplitAssignment(text).key + "=" + SplitAssignment(text).value == text
  {
    var e := SplitAssignment(text);
    match IndexOf(text, "=")
    case None =>
      NoOccurrenceNoChar(text, '=');
    case Some(i) =>
      forall j | 0 <= j < i ensures text[j] != '=' {
        assert !OccursAt(text, "=", j);
        assert text[j..j + 1] == [text[j]];
      }
      assert text[i..i + 1] == "=";
      assert text == text[..i] + "=" + text[i + 1..];
  }

  lemma NoOccurrenceNoChar(s: string, c: char)
    requires IndexOf(s, [c]).None?
    ensures c !in s
  {
    forall j | 0 <= j < |s| ensures s[j] != c {
      assert !OccursAt(s, [c], j);
      assert s[j..j + 1] == [s[j]];
    }
  }

  /** Formatting a pair and splitting it again gives the pair back, when the key has no `=`. */
  lemma {:induction false} SplitAssignmentOfLine(key: string, value: string)
    requires '=' !in key
    ensures SplitAssignment(key + "=" + value) == Entry(key, value)
  {
    IndexOfCharAfterPrefix(key, '=', value);
    var text := key + "=" + value;
    assert text[..|key|] == key;
    assert text[|key| + 1..] == value;
  }

  /** The line formatting of a new variable. */
  function Line(e: Entry): string {
    e.key + "=" + e.value
  }

  /** A line that counts as an entry: not blank after trimming and not a `#` comment. */
  predicate IsEntryLine(line: string) {
    Trim(line) != "" && !StartsWith(line, "#")
  }

  /** What one line contributes: its pair when it is an entry line, else nothing. */
  function EntryOf(line: string): (r: seq<Entry>)
    ensures |r| <= 1
  {
    if IsEntryLine(line) then [SplitAssignment(line)] else []
  }

  /** The existing variables: the entry lines, in order, each split at its first `=`. */
  function Entries(lines: seq<string>): (r: seq<Entry>)
    ensures |r| <= |lines|
    decreases |lines|
  {
    if lines == [] then [] else EntryOf(lines[0]) + Entries(lines[1..])
  }

  /** Every entry line contributes its pair. */
  lemma {:induction false} EntriesComplete(lines: seq<string>, k: nat)
    requires k < |lines| && IsEntryLine(lines[k])
    ensures SplitAssignment(lines[k]) in Entries(lines)
    decreases |lines|
  {
    if k > 0 {
      EntriesComplete(lines[1..], k - 1);
    }
  }

  /** `existing.some(e => e.key === key)`. */
  predicate KeyExists(existing: seq<Entry>, key: string) {
    exists e :: e in existing && e.key == key
  }

  /** The lines for the variables whose key is not defined yet, in record order. */
  function NewLines(existing: seq<Entry>, envs: seq<Entry>): (r: seq<string>)
    ensures |r| <= |envs|
    ensures forall k :: 0 <= k < |r| ==> exists e :: e in envs && !KeyExists(existing, e.key) && r[k] == Line(e)
    ensures forall e :: e in envs && !KeyExists(existing, e.key) ==> Line(e) in r
    decreases |envs|
  {
    if envs == [] then []
    else
      var rest := NewLines(existing, envs[1..]);
      assert forall e :: e in envs[1..] ==> e in envs;
      if KeyExists(existing, envs[0].key) then rest else [Line(envs[0])] + rest
  }

  /** The new file text: the old text, a newline, then the new lines joined by newlines. */
  function SaveEnv(env: string, envs: seq<Entry>): string {
    env + "\n" + Join(NewLines(Entries(Split(env, "\n")), envs), "\n")
  }

  /** The old text is kept verbatim and followed by a newline, even when nothing is new. */
  lemma SaveEnvKeepsText(env: string, envs: seq<Entry>)
    ensures |SaveEnv(env, envs)| > |env|
    ensures SaveEnv(env, envs)[..|env|] == env && SaveEnv(env, envs)[|env|] == '\n'
    ensures (forall e :: e in envs ==> KeyExists(Entries(Split(env, "\n")), e.key)) ==> SaveEnv(env, envs) == env + "\n"
  {
  }

  /** Blank lines and comment lines never define a variable. */
  lemma {:induction false} CommentAndBlankLinesIgnored(lines: seq<string>, k: nat)
    requires k < |lines| && !IsEntryLine(lines[k])
    ensures Entries(lines) == Entries(lines[..k]) + Entries(lines[k + 1..])
  {
    var before, line, after := lines[..k], lines[k], lines[k + 1..];
    assert lines == before + ([line] + after);
    EntriesSkipMiddle(before, line, after);
  }

  lemma EntriesSkipMiddle(before: seq<string>, line: string, after: seq<string>)
    requires !IsEntryLine(line)
    ensures Entries(before + ([line] + after)) == Entries(before) + Entries(after)
  {
    EntriesAppend(before, [line] + after);
    EntriesSkip(line, after);
  }

  lemma EntriesSkip(line: string, after: seq<string>)
    requires !IsEntryLine(line)
    ensures Entries([line] + after) == Entries(after)
  {
    assert ([line] + after)[1..] == after;
  }

  lemma {:induction false} EntriesAppend(a: seq<string>, b: seq<string>)
    ensures Entries(a + b) == Entries(a) + Entries(b)
    decreases |a|
  {
    if a == [] {
      assert a + b == b;
    } else {
      var ab := a + b;
      assert ab[0] == a[0] && ab[1..] == a[1..] + b;
      EntriesAppend(a[1..], b);
      ConcatAssoc(EntryOf(a[0]), Entries(a[1..]), Entries(b));
    }
  }

  /** A well-formed variable: its line parses back to it and is an entry line of its own. */
  predicate WellFormed(e: Entry) {
    '=' !in e.key && '\n' !in e.key && '\n' !in e.value && !StartsWith(e.key, "#")
  }

  lemma WellFormedLine(e: Entry)
    requires WellFormed(e)
    ensures IsEntryLine(Line(e)) && SplitAssignment(Line(e)) == e && '\n' !in Line(e)
  {
    SplitAssignmentOfLine(e.key, e.value);
    LineNotBlank(e);
    LineNotComment(e);
  }

  lemma LineNotBlank(e: Entry)
    ensures Trim(Line(e)) != ""
  {
    var l := Line(e);
    assert l[|e.key|] == '=' && !IsSpace('=');
    TrimEmptyIff(l);
  }

  lemma LineNotComment(e: Entry)
    requires !StartsWith(e.key, "#")
    ensures !StartsWith(Line(e), "#")
  {
    var l := Line(e);
    if |e.key| > 0 {
      assert l[..1] == e.key[..1];
    } else {
      assert l[..1] == "=";
    }
  }

  /**
   * After the save, every well-formed variable that was passed is defined by the
   * file: the old entries are still there and the appended lines parse back to
   * the new pairs.
   */
  lemma {:induction false} SaveEnvDefinesEveryKey(env: string, envs: seq<Entry>)
    requires forall e :: e in envs ==> WellFormed(e)
    ensures var before := Entries(Split(env, "\n"));
      var after := Entries(Split(SaveEnv(env, envs), "\n"));
      && |before| <= |after| && after[..|before|] == before
      && forall e :: e in envs ==> KeyExists(after, e.key)
  {
    var existing := Entries(Split(env, "\n"));
    var nl := NewLines(existing, envs);
    SaveEnvEntries(env, envs);
    var after := Entries(Split(SaveEnv(env, envs), "\n"));
    assert after == existing + Entries(nl);
    forall e | e in envs ensures KeyExists(after, e.key) {
      if KeyExists(existing, e.key) {
        var w :| w in existing && w.key == e.key;
        assert w in after;
      } else {
        NewEntryListed(existing, envs, e);
        assert e in after;
      }
    }
  }

  /** The entries of the saved file: the old entries followed by the new lines' entries. */
  lemma {:induction false} SaveEnvEntries(env: string, envs: seq<Entry>)
    requires forall e :: e in envs ==> WellFormed(e)
    ensures var nl := NewLines(Entries(Split(env, "\n")), envs);
      Entries(Split(SaveEnv(env, envs), "\n")) == Entries(Split(env, "\n")) + Entries(nl)
  {
    var existing := Entries(Split(env, "\n"));
    var nl := NewLines(existing, envs);
    var tail := Join(nl, "\n");
    SplitAround(env, '\n', tail);
    assert SaveEnv(env, envs) == env + ['\n'] + tail;
    EntriesAppend(Split(env, "\n"), Split(tail, "\n"));
    NewLinesHaveNoNewline(existing, envs);
    JoinedEntries(nl);
  }

  /** The new lines of well-formed variables hold no line break. */
  lemma NewLinesHaveNoNewline(existing: seq<Entry>, envs: seq<Entry>)
    requires forall e :: e in envs ==> WellFormed(e)
    ensures forall k :: 0 <= k < |NewLines(existing, envs)| ==> '\n' !in NewLines(existing, envs)[k]
  {
    var nl := NewLines(existing, envs);
    forall k | 0 <= k < |nl| ensures '\n' !in nl[k] {
      var f :| f in envs && !KeyExists(existing, f.key) && nl[k] == Line(f);
      WellFormedLine(f);
    }
  }

  /** Lines joined by line breaks and split again have the lines' entries; no lines leave one blank line. */
  lemma JoinedEntries(nl: seq<string>)
    requires forall k :: 0 <= k < |nl| ==> '\n' !in nl[k]
    ensures Entries(Split(Join(nl, "\n"), "\n")) == Entries(nl)
  {
    if nl == [] {
      assert Split("", "\n") == [""];
      EntriesSkip("", []);
      assert [""] == [""] + [];
    } else {
      SplitJoin(nl, '\n');
    }
  }

  /** A well-formed new variable's line is among the new lines and parses back to it. */
  lemma NewEntryListed(existing: seq<Entry>, envs: seq<Entry>, e: Entry)
    requires e in envs && WellFormed(e) && !KeyExists(existing, e.key)
    ensures e in Entries(NewLines(existing, envs))
  {
    var nl := NewLines(existing, envs);
    WellFormedLine(e);
    assert Line(e) in nl;
    var k :| 0 <= k < |nl| && nl[k] == Line(e);
    EntriesComplete(nl, k);
  }

  /** Splitting at a separator character placed between two texts splits each side. */
  lemma {:induction false} SplitAround(a: string, c: char, b: string)
    ensures Split(a + [c] + b, [c]) == Split(a, [c]) + Split(b, [c])
    decreases |a|
  {
    if c !in a {
      SplitAtChar(a, c, b);
      NotIncludesChar(a, c);
    } else {
      var pre, rest := CutAtFirst(a, c);
      SplitAround(rest, c, b);
      SplitAroundStep(pre, rest, c, b);
    }
  }

  /** The inductive step of SplitAround: a first piece without the separator is split off on both sides. */
  lemma SplitAroundStep(pre: string, rest: string, c: char, b: string)
    requires c !in pre
    requires Split(rest + [c] + b, [c]) == Split(rest, [c]) + Split(b, [c])
    ensures Split(pre + [c] + rest + [c] + b, [c]) == Split(pre + [c] + rest, [c]) + Split(b, [c])
  {
    var tail := rest + [c] + b;
    Regroup(pre, c, rest, b);
    SplitAtChar(pre, c, rest);
    SplitAtChar(pre, c, tail);
    ConcatAssoc([pre], Split(rest, [c]), Split(b, [c]));
  }

  lemma ConcatAssoc<T>(x: seq<T>, y: seq<T>, z: seq<T>)
    ensures x + (y + z) == (x + y) + z
  {
  }

  lemma Regroup(pre: string, c: char, rest: string, b: string)
    ensures pre + [c] + rest + [c] + b == pre + [c] + (rest + [c] + b)
  {
  }

  /** A text cut at its first separator character splits into the prefix and the rest's pieces. */
  lemma SplitAtChar(pre: string, c: char, post: string)
    requires c !in pre
    ensures Split(pre + [c] + post, [c]) == [pre] + Split(post, [c])
  {
    IndexOfCharAfterPrefix(pre, c, post);
    var s := pre + [c] + post;
    assert s[..|pre|] == pre;
    assert s[|pre| + 1..] == post;
  }

  /** A text that holds a character is the text before its first occurrence, the character and the rest. */
  lemma {:induction false} CutAtFirst(a: string, c: char) returns (pre: string, rest: string)
    requires c in a
    ensures c !in pre && a == pre + [c] + rest && |rest| < |a|
  {
    if a[0] == c {
      pre, rest := [], a[1..];
      assert a == [a[0]] + a[1..];
    } else {
      var p, r := CutAtFirst(a[1..], c);
      pre, rest := [a[0]] + p, r;
      assert a == [a[0]] + a[1..];
    }
  }

  /** `newEnvs[key] = value` on a record: an existing key keeps its place, a new one goes last. */
  function Assign(rec: seq<Entry>, key: string, value: string): (r: seq<Entry>)
    ensures (exists j :: 0 <= j < |rec| && rec[j].key == key) ==> |r| == |rec|
    ensures (forall j :: 0 <= j < |rec| ==> rec[j].key != key) ==> r == rec + [Entry(key, value)]
    ensures Entry(key, value) in r
    ensures forall e :: e in r && e.key != key ==> e in rec
    ensures forall e :: e in rec && e.key != key ==> e in r
    decreases |rec|
  {
    if rec == [] then [Entry(key, value)]
    else if rec[0].key == key then [Entry(key, value)] + rec[1..]
    else
      var rest := Assign(rec[1..], key, value);
      assert forall e :: e in rec[1..] ==> e in rec;
      assert (exists j :: 0 <= j < |rec| && rec[j].key == key) ==> (exists j :: 0 <= j < |rec[1..]| && rec[1..][j].key == key);
      [rec[0]] + rest
  }

  /** Keys of a record are distinct. */
  predicate DistinctKeys(rec: seq<Entry>) {
    forall i, j :: 0 <= i < j < |rec| ==> rec[i].key != rec[j].key
  }

  lemma {:induction false} AssignKeepsKeysDistinct(rec: seq<Entry>, key: string, value: string)
    requires DistinctKeys(rec)
    ensures DistinctKeys(Assign(rec, key, value))
    decreases |rec|
  {
    if rec != [] && rec[0].key != key {
      AssignKeepsKeysDistinct(rec[1..], key, value);
      var rest := Assign(rec[1..], key, value);
      forall j | 0 <= j < |rest| ensures rest[j].key != rec[0].key {
        assert rest[j] in rest;
        if rest[j].key != key {
          assert rest[j] in rec[1..];
        }
      }
    }
  }
}
