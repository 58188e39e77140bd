/**
 * What tsk/generator.py promises, stated over the model in module Gen:
 * which required key a configuration is refused for, that text without
 * `$$` lines passes through unchanged, how a command line is tokenised,
 * how the output file name falls back, and which directory entries are
 * markdown documents, in which order.
 */
module GenProps {
  import opened Wrappers
  import opened PyText
  import opened Gen
  import Utils

  // ---------------------------------------------------------------- configuration

  /** Taking any one required key out of a complete configuration is refused with exactly that key, whose message starts "<KEY> must". */
  lemma OneMissingKeyNamed(config: map<string, string>, i: nat)
    requires IsConfigured(config) && i < |REQUIRED|
    ensures FirstMissing(REQUIRED, (config - {REQUIRED[i]}).Keys) == Some(i)
    ensures StartsWith(Message(MissingConfig(REQUIRED[i])), REQUIRED[i] + " must")
  {
    var present := (config - {REQUIRED[i]}).Keys;
    assert forall j :: 0 <= j < |REQUIRED| && j != i ==> REQUIRED[j] != REQUIRED[i];
    assert forall j :: 0 <= j < |REQUIRED| ==> REQUIRED[j] in config;
    var r := FirstMissing(REQUIRED, present);
    assert REQUIRED[i] !in present;
    assert r.Some? && r.value == i;
    MessageNamesKey(REQUIRED[i]);
  }

  lemma MessageNamesKey(key: string)
    ensures StartsWith(Message(MissingConfig(key)), key + " must")
  {
    var m := Message(MissingConfig(key));
    assert m == (key + " must") + " be set.";
  }

  // ---------------------------------------------------------------- foreign commands

  /** Lines none of which is a command line are copied verbatim, in order. */
  lemma {:induction false} RewriteKeepsPlainLines(commands: map<string, seq<string> -> string>, lines: seq<string>)
    requires forall k :: 0 <= k < |lines| ==> !IsCommandLine(lines[k])
    ensures Rewrite(commands, lines) == Ok(Concat(lines))
    decreases |lines|
  {
    if lines != [] {
      RewriteKeepsPlainLines(commands, lines[..|lines| - 1]);
    }
  }

  /** A document without `$$` lines comes out of `process_foreign_commands` unchanged. */
  lemma PlainTextUnchanged(commands: map<string, seq<string> -> string>, text: string)
    requires forall k :: 0 <= k < |ReadLines(text)| ==> !IsCommandLine(ReadLines(text)[k])
    ensures Rewrite(commands, ReadLines(text)) == Ok(text)
  {
    RewriteKeepsPlainLines(commands, ReadLines(text));
  }

  lemma DropsNewline(body: string)
    requires body != [] && body[|body| - 1] !in WHITESPACE
    ensures RStrip(body + "\n", WHITESPACE) == body
  {
    var line := body + "\n";
    assert line[..|line| - 1] == body;
  }

  /** A line "$$w\n" strips to "$$w" when w neither starts nor ends with whitespace. */
  lemma StripWords(w: string)
    requires w != [] && w[0] !in WHITESPACE && w[|w| - 1] !in WHITESPACE
    ensures Strip(w) == w && Strip(COMMAND_PREFIX + w + "\n") == COMMAND_PREFIX + w
  {
    KeepsEnds(w);
    var body := COMMAND_PREFIX + w;
    assert body[0] == '$' && body[|body| - 1] == w[|w| - 1];
    KeepsEnds(body);
    DropsNewline(body);
    var line := body + "\n";
    assert COMMAND_PREFIX + w + "\n" == line;
    assert LStrip(line, WHITESPACE) == line by {
      assert line[0] == '$';
    }
  }

  /** A line that strips to "$$" + body runs the first token of body with the remaining ones. */
  lemma CommandLine(commands: map<string, seq<string> -> string>, line: string, body: string)
    requires Strip(line) == COMMAND_PREFIX + body
    ensures RewriteLine(commands, line) ==
      var args := SplitWs(Strip(body));
      if args == [] then Err(EmptyCommand) else Exec(commands, args[0], args[1..])
  {
    var l := COMMAND_PREFIX + body;
    assert l[..2] == COMMAND_PREFIX;
    assert l[2..] == body;
  }

  lemma SplitOneToken(cmd: string)
    requires IsWord(cmd)
    ensures SplitWs(cmd) == [cmd]
  {
    assert LStrip(cmd, WHITESPACE) == cmd;
    var f := FirstIn(cmd, WHITESPACE);
    assert f.None?;
    assert cmd[..|cmd|] == cmd;
    assert SplitWs(cmd[|cmd|..]) == [];
  }

  /** "$$name" needs no space after the marker: the line runs the command `name` with no arguments, and the line and its newline are gone. */
  lemma CommandNeedsNoSpace(commands: map<string, seq<string> -> string>, cmd: string)
    requires IsWord(cmd)
    ensures RewriteLine(commands, COMMAND_PREFIX + cmd + "\n") == Exec(commands, cmd, [])
  {
    StripWords(cmd);
    CommandLine(commands, COMMAND_PREFIX + cmd + "\n", cmd);
    SplitOneToken(cmd);
  }

  /** Helper for CommandBetweenText: a command line between two plain lines is rewritten in place. */
  lemma RewriteThree(commands: map<string, seq<string> -> string>, before: string, mid: string, after: string)
    requires !IsCommandLine(before) && !IsCommandLine(after)
    ensures match RewriteLine(commands, mid)
      case Ok(out) => Rewrite(commands, [before, mid, after]) == Ok(before + out + after)
      case Err(e) => Rewrite(commands, [before, mid, after]) == Err(e)
  {
    RewriteOne(commands, before);
    InitOfPair(before, mid);
    InitOfTriple(before, mid, after);
  }

  /** Helper for RewriteThree: a single plain line rewrites to itself. */
  lemma RewriteOne(commands: map<string, seq<string> -> string>, line: string)
    requires !IsCommandLine(line)
    ensures Rewrite(commands, [line]) == Ok(line)
  {
    assert [line][..0] == [];
    assert "" + line == line;
  }

  /** Helper for RewriteThree: the prefix and last element of a two-element sequence. */
  lemma InitOfPair<T>(x: T, y: T)
    ensures [x, y][..1] == [x] && [x, y][1] == y
  {
  }

  /** Helper for RewriteThree: the prefix and last element of a three-element sequence. */
  lemma InitOfTriple<T>(x: T, y: T, z: T)
    ensures [x, y, z][..2] == [x, y] && [x, y, z][2] == z
  {
  }

  /**
   * A command line between two text lines: the command runs once with no
   * arguments and its output replaces the line; if it fails, so does the whole text.
   */
  lemma CommandBetweenText(commands: map<string, seq<string> -> string>, before: string, cmd: string, after: string)
    requires !IsCommandLine(before) && !IsCommandLine(after)
    requires IsWord(cmd)
    ensures var lines := [before, COMMAND_PREFIX + cmd + "\n", after];
      match Exec(commands, cmd, [])
      case Ok(out) => Rewrite(commands, lines) == Ok(before + out + after)
      case Err(e) => Rewrite(commands, lines) == Err(e)
  {
    CommandNeedsNoSpace(commands, cmd);
    RewriteThree(commands, before, COMMAND_PREFIX + cmd + "\n", after);
  }

  /** Tokens written out with one space between each two. */
  function Words(tokens: seq<string>): (r: string)
    decreases |tokens|
  {
    if tokens == [] then []
    else if |tokens| == 1 then tokens[0]
    else tokens[0] + " " + Words(tokens[1..])
  }

  lemma {:induction false} WordsEdges(tokens: seq<string>)
    requires tokens != [] && forall k :: 0 <= k < |tokens| ==> IsWord(tokens[k])
    ensures Words(tokens) != [] && Words(tokens)[0] !in WHITESPACE
    ensures Words(tokens)[|Words(tokens)| - 1] !in WHITESPACE
    decreases |tokens|
  {
    assert IsWord(tokens[0]);
    if |tokens| > 1 {
      assert forall k :: 0 <= k < |tokens[1..]| ==> tokens[1..][k] == tokens[k + 1];
      WordsEdges(tokens[1..]);
      var w := Words(tokens[1..]);
      assert Words(tokens) == tokens[0] + " " + w;
      assert Words(tokens)[|Words(tokens)| - 1] == w[|w| - 1];
    }
  }

  lemma SplitWsSkipsSpace(rest: string)
    ensures SplitWs(" " + rest) == SplitWs(rest)
  {
    assert (" " + rest)[1..] == rest;
    assert LStrip(" " + rest, WHITESPACE) == LStrip(rest, WHITESPACE);
  }

  lemma SplitWsToken(t: string, rest: string)
    requires IsWord(t)
    ensures SplitWs(t + " " + rest) == [t] + SplitWs(rest)
  {
    var u := t + " " + rest;
    assert LStrip(u, WHITESPACE) == u;
    var f := FirstIn(u, WHITESPACE);
    assert u[|t|] in WHITESPACE;
    assert forall j :: 0 <= j < |t| ==> u[j] !in WHITESPACE;
    assert f == Some(|t|);
    assert u[..|t|] == t;
    assert u[|t|..] == " " + rest;
    SplitWsSkipsSpace(rest);
  }

  /** `split()` of the written-out tokens gives them back, in order. */
  lemma {:induction false} SplitWords(tokens: seq<string>)
    requires forall k :: 0 <= k < |tokens| ==> IsWord(tokens[k])
    ensures SplitWs(Words(tokens)) == tokens
    decreases |tokens|
  {
    if |tokens| == 1 {
      SplitOneToken(tokens[0]);
    } else if |tokens| > 1 {
      assert tokens == [tokens[0]] + tokens[1..];
      assert IsWord(tokens[0]);
      assert forall k :: 0 <= k < |tokens[1..]| ==> tokens[1..][k] == tokens[k + 1];
      SplitWords(tokens[1..]);
      assert Words(tokens) == tokens[0] + " " + Words(tokens[1..]);
      SplitWsToken(tokens[0], Words(tokens[1..]));
    }
  }

  /**
   * "$$name arg1 ... argn": the command is the first token and the arguments
   * are the remaining tokens, in order.
   */
  lemma CommandTokens(commands: map<string, seq<string> -> string>, tokens: seq<string>)
    requires tokens != [] && forall k :: 0 <= k < |tokens| ==> IsWord(tokens[k])
    ensures RewriteLine(commands, COMMAND_PREFIX + Words(tokens) + "\n") == Exec(commands, tokens[0], tokens[1..])
  {
    var w := Words(tokens);
    WordsEdges(tokens);
    StripWords(w);
    CommandLine(commands, COMMAND_PREFIX + w + "\n", w);
    SplitWords(tokens);
  }

  /** A `$$` line with no command name fails (the `pop` of an empty list). */
  lemma EmptyCommandFails(commands: map<string, seq<string> -> string>, line: string)
    requires Strip(line) == COMMAND_PREFIX
    ensures RewriteLine(commands, line) == Err(EmptyCommand)
  {
    assert Strip(line)[2..] == [];
  }

  // ---------------------------------------------------------------- output file name

  /** A non-empty `output_file` wins and is joined under the output directory. */
  lemma OutputFileWins(libs: Libs, dir: string, meta: DocMeta, name: string)
    requires "output_file" in meta && meta["output_file"] == One(name) && name != []
    requires dir != [] && !EndsWith(dir, "/") && !StartsWith(name, "/")
    ensures OutputFilename(libs, dir, meta) == Ok(dir + "/" + name)
    ensures StartsWith(OutputFilename(libs, dir, meta).value, dir + "/")
  {
    var r := dir + "/" + name;
    assert r[..|dir + "/"|] == dir + "/";
  }

  /** Without an `output_file`, a non-empty title gives "slug.html". */
  lemma TitleIsFirstFallback(libs: Libs, dir: string, meta: DocMeta, title: string)
    requires !Truthy(meta, "output_file")
    requires "title" in meta && meta["title"] == One(title) && title != []
    ensures OutputFilename(libs, dir, meta).Ok?
    ensures EndsWith(OutputFilename(libs, dir, meta).value, SlugFromTitle(libs, title) + ".html")
  {
  }
  /** `_slugs_from_title` skips the '&' substitution of `utils.slugify`; on a title without '&' the two agree. */
  lemma SlugFromTitleIsSlugify(libs: Libs, title: string)
    requires '&' !in title
    ensures SlugFromTitle(libs, title) == Utils.Slugify(libs.slugify, title)
  {
  }


  /** Without an `output_file` or a title, the input file's base name gives "name.html". */
  lemma InputFileIsSecondFallback(libs: Libs, dir: string, meta: DocMeta, input: string)
    requires !Truthy(meta, "output_file") && !Truthy(meta, "title")
    requires "input_file" in meta && meta["input_file"] == One(input)
    ensures OutputFilename(libs, dir, meta).Ok?
    ensures EndsWith(OutputFilename(libs, dir, meta).value, libs.basenameNoExt(input) + ".html")
  {
  }

  // ---------------------------------------------------------------- markdown directory

  /** Some name of `listing` joins under `dir` to `x`. */
  ghost predicate Listed(dir: string, listing: seq<string>, x: string)
  {
    exists i :: 0 <= i < |listing| && x == Join(dir, listing[i])
  }

  lemma ListedSnoc(dir: string, listing: seq<string>, x: string)
    requires listing != []
    ensures Listed(dir, listing, x) <==>
      Listed(dir, listing[..|listing| - 1], x) || x == Join(dir, listing[|listing| - 1])
  {
    ListedInit(dir, listing, x);
    ListedLast(dir, listing, x);
  }

  lemma ListedInit(dir: string, listing: seq<string>, x: string)
    requires listing != []
    ensures Listed(dir, listing[..|listing| - 1], x) ==> Listed(dir, listing, x)
  {
    var init := listing[..|listing| - 1];
    if Listed(dir, init, x) {
      var i :| 0 <= i < |init| && x == Join(dir, init[i]);
      assert listing[i] == init[i];
    }
  }

  lemma ListedLast(dir: string, listing: seq<string>, x: string)
    requires listing != []
    ensures Listed(dir, listing, x) ==>
      Listed(dir, listing[..|listing| - 1], x) || x == Join(dir, listing[|listing| - 1])
  {
    var init := listing[..|listing| - 1];
    if Listed(dir, listing, x) {
      var i :| 0 <= i < |listing| && x == Join(dir, listing[i]);
      if i < |init| {
        assert init[i] == listing[i];
        assert Listed(dir, init, x);
      } else {
        assert i == |listing| - 1;
      }
    }
  }

  /** A path is yielded exactly when some listed name joins to it, it is a file, and it ends in ".md". */
  lemma {:induction false} MarkdownFilesMembers(dir: string, listing: seq<string>, files: set<string>, x: string)
    ensures x in MarkdownFiles(dir, listing, files) <==> Listed(dir, listing, x) && x in files && EndsWith(x, ".md")
    decreases |listing|
  {
    if listing != [] {
      MarkdownFilesMembers(dir, listing[..|listing| - 1], files, x);
      ListedSnoc(dir, listing, x);
    }
  }

  /** The filter keeps the listing order: the documents of a + b are those of a, then those of b. */
  lemma {:induction false} MarkdownFilesAppend(dir: string, a: seq<string>, b: seq<string>, files: set<string>)
    ensures MarkdownFiles(dir, a + b, files) == MarkdownFiles(dir, a, files) + MarkdownFiles(dir, b, files)
    decreases |b|
  {
    if b == [] {
      assert a + b == a;
    } else {
      var b' := b[..|b| - 1];
      assert (a + b)[..|a + b| - 1] == a + b';
      assert (a + b)[|a + b| - 1] == b[|b| - 1];
      MarkdownFilesAppend(dir, a, b', files);
    }
  }

  /** Whether a joined path ends in a suffix no longer than the name is decided by the name alone. */
  lemma JoinedSuffix(dir: string, name: string, suffix: string)
    requires |suffix| <= |name|
    ensures EndsWith(Join(dir, name), suffix) <==> EndsWith(name, suffix)
  {
    var r := Join(dir, name);
    assert r[|r| - |suffix|..] == r[|r| - |name|..][|name| - |suffix|..];
  }

  lemma MarkdownFilesOne(dir: string, name: string, files: set<string>)
    ensures MarkdownFiles(dir, [name], files) ==
      if Join(dir, name) in files && EndsWith(Join(dir, name), ".md") then [Join(dir, name)] else []
  {
    assert [name][..0] == [];
  }

  lemma KeepOne(dir: string, a: string, files: set<string>)
    requires Join(dir, a) in files && |a| >= 3 && EndsWith(a, ".md")
    ensures MarkdownFiles(dir, [a], files) == [Join(dir, a)]
  {
    JoinedSuffix(dir, a, ".md");
    MarkdownFilesOne(dir, a, files);
  }

  lemma SkipOne(dir: string, a: string, files: set<string>)
    requires |a| >= 3 && !EndsWith(a, ".md")
    ensures MarkdownFiles(dir, [a], files) == []
  {
    JoinedSuffix(dir, a, ".md");
    MarkdownFilesOne(dir, a, files);
  }

  lemma AppendPair(dir: string, a: string, b: string, files: set<string>)
    ensures MarkdownFiles(dir, [a, b], files) == MarkdownFiles(dir, [a], files) + MarkdownFiles(dir, [b], files)
  {
    MarkdownFilesAppend(dir, [a], [b], files);
    assert [a] + [b] == [a, b];
  }

  /** A markdown file followed by another file is yielded alone. */
  lemma KeepThenSkip(dir: string, a: string, b: string, files: set<string>)
    requires Join(dir, a) in files && |a| >= 3 && |b| >= 3
    requires EndsWith(a, ".md") && !EndsWith(b, ".md")
    ensures MarkdownFiles(dir, [a, b], files) == [Join(dir, a)]
  {
    KeepOne(dir, a, files);
    SkipOne(dir, b, files);
    AppendPair(dir, a, b, files);
  }

  /** Of four listed files, the names ending in ".md" are yielded and the others skipped, in listing order. */
  lemma ExtensionFilter(dir: string, a: string, b: string, c: string, d: string, files: set<string>)
    requires Join(dir, a) in files && Join(dir, b) in files && Join(dir, c) in files && Join(dir, d) in files
    requires |a| >= 3 && |b| >= 3 && |c| >= 3 && |d| >= 3
    requires EndsWith(a, ".md") && !EndsWith(b, ".md") && EndsWith(c, ".md") && !EndsWith(d, ".md")
    ensures MarkdownFiles(dir, [a, b, c, d], files) == [Join(dir, a), Join(dir, c)]
  {
    KeepThenSkip(dir, a, b, files);
    KeepThenSkip(dir, c, d, files);
    AppendPairs(dir, a, b, c, d, files);
  }

  lemma AppendPairs(dir: string, a: string, b: string, c: string, d: string, files: set<string>)
    ensures MarkdownFiles(dir, [a, b, c, d], files) == MarkdownFiles(dir, [a, b], files) + MarkdownFiles(dir, [c, d], files)
  {
    MarkdownFilesAppend(dir, [a, b], [c, d], files);
    assert [a, b] + [c, d] == [a, b, c, d];
  }

  lemma ExampleSuffixes()
    ensures EndsWith("a.md", ".md") && !EndsWith("b.ist", ".md") && EndsWith("c.md", ".md") && !EndsWith("d.txt", ".md")
  {
    assert "b.ist"[2..] == "ist";
    assert "d.txt"[2..] == "txt";
  }

  /** The listing "a.md", "b.ist", "c.md", "d.txt" yields "a.md" and "c.md" under the directory. */
  lemma ExtensionFilterExample(dir: string, files: set<string>)
    requires Join(dir, "a.md") in files && Join(dir, "b.ist") in files
    requires Join(dir, "c.md") in files && Join(dir, "d.txt") in files
    ensures MarkdownFiles(dir, ["a.md", "b.ist", "c.md", "d.txt"], files) == [Join(dir, "a.md"), Join(dir, "c.md")]
  {
    ExampleSuffixes();
    ExtensionFilter(dir, "a.md", "b.ist", "c.md", "d.txt", files);
  }

  // ---------------------------------------------------------------- one document

  /**
   * The record `process_markdown_file` appends: the collapsed front matter
   * with `input_file` set to the file name and `output_file` to the
   * computed name; every other front-matter key is kept as collapsed.
   */
  lemma DocumentRecord(libs: Libs, commands: map<string, seq<string> -> string>, dir: string,
                       filename: string, text: string)
    requires Document(libs, commands, dir, filename, text).Ok?
    ensures var d := Document(libs, commands, dir, filename, text).value.0;
      var raw := libs.markdown(Rewrite(commands, ReadLines(text)).value).1;
      d["input_file"] == One(filename) && d["output_file"].One? &&
      d.Keys == Collapsed(raw).Keys + {"input_file", "output_file"} &&
      forall k :: k in Collapsed(raw) && k != "input_file" && k != "output_file" ==> d[k] == Collapsed(raw)[k]
  {
    var contents := Rewrite(commands, ReadLines(text)).value;
    var c := Collapsed(libs.markdown(contents).1);
    var meta := c["input_file" := One(filename)];
    var out := OutputFilename(libs, dir, meta).value;
    assert Document(libs, commands, dir, filename, text).value.0 == meta["output_file" := One(out)];
    TwoUpdates(c, One(filename), One(out));
  }

  /** Helper for DocumentRecord: the map after setting `input_file`, then `output_file`. */
  lemma TwoUpdates(c: DocMeta, input: Field, output: Field)
    ensures var d := c["input_file" := input]["output_file" := output];
      d["input_file"] == input && d["output_file"] == output &&
      d.Keys == c.Keys + {"input_file", "output_file"} &&
      forall k :: k in c && k != "input_file" && k != "output_file" ==> d[k] == c[k]
  {
  }

  /**
   * The output name is computed after `input_file` is set: a document whose
   * front matter names neither an output file nor a title is written to
   * "<base name of its file>.html".
   */
  lemma OutputNamedAfterInput(libs: Libs, commands: map<string, seq<string> -> string>, dir: string,
                              filename: string, text: string)
    requires Rewrite(commands, ReadLines(text)).Ok?
    requires var raw := libs.markdown(Rewrite(commands, ReadLines(text)).value).1;
      !Truthy(Collapsed(raw), "output_file") && !Truthy(Collapsed(raw), "title")
    ensures Document(libs, commands, dir, filename, text).Ok?
    ensures EndsWith(Document(libs, commands, dir, filename, text).value.0["output_file"].s,
                     libs.basenameNoExt(filename) + ".html")
  {
    var raw := libs.markdown(Rewrite(commands, ReadLines(text)).value).1;
    var meta := Collapsed(raw)["input_file" := One(filename)];
    assert !Truthy(meta, "output_file") && !Truthy(meta, "title");
    InputFileIsSecondFallback(libs, dir, meta, filename);
  }
}
