/**
 * tsk/generator.py: the document generator's own logic.
 *
 * A Generator is built from a configuration map whose five required keys
 * are checked in a fixed order. A markdown document is preprocessed by
 * replacing each `$$command args` line with what the named command
 * returns, converted by the markdown library (a parameter here), its
 * front-matter lists collapsed, given an output file name, and recorded
 * in `book`.
 */
module Gen {
  import opened Wrappers
  import opened PyText

  datatype GenError =
    | MissingConfig(key: string)    // TskError('<KEY> must be set.')
    | EmptyCommand                  // IndexError: `args.pop(0)` on a `$$` line with no token
    | UnknownCommand(name: string)  // AttributeError: `getattr(self, command)`
    | MissingMetaKey(key: string)   // KeyError: `meta['input_file']`
    | NotAString(key: string)       // a list-valued front-matter entry used where a file name is needed

  /** The message a TskError carries. */
  function Message(e: GenError): string {
    match e
    case MissingConfig(key) => key + " must be set."
    case EmptyCommand => "pop from empty list"
    case UnknownCommand(name) => name
    case MissingMetaKey(key) => key
    case NotAString(key) => key
  }

  /** A collapsed front-matter value: a single string or a list of two or more. */
  datatype Field = One(s: string) | Many(vs: seq<string>)

  type DocMeta = map<string, Field>

  /** The libraries the generator calls: slugify, basename_no_ext and the markdown converter with its `meta` extension. */
  datatype Libs = Libs(slugify: string -> string, basenameNoExt: string -> string,
                       markdown: string -> (string, map<string, seq<string>>))

  /** The configuration keys `__init__` demands, in the order it checks them. */
  const REQUIRED: seq<string> :=
    ["TEMPLATE_PATH", "MARKDOWN_PATH", "DEFAULT_TEMPLATE", "WEB_PAGES_PATH", "MARKDOWN_OUTPUT_DIR"]

  const COMMAND_PREFIX: string := "$$"

  // ---------------------------------------------------------------- configuration

  /** The first of `keys` missing from `present`. */
  function FirstMissing(keys: seq<string>, present: set<string>): (r: Option<nat>)
    ensures r.None? <==> forall i :: 0 <= i < |keys| ==> keys[i] in present
    ensures r.Some? ==> r.value < |keys| && keys[r.value] !in present &&
                        forall i :: 0 <= i < r.value ==> keys[i] in present
    decreases |keys|
  {
    if keys == [] then None
    else if keys[0] !in present then Some(0)
    else match FirstMissing(keys[1..], present)
      case None => None
      case Some(i) => Some(i + 1)
  }

  /** Every required key was given. */
  predicate IsConfigured(config: map<string, string>) {
    "TEMPLATE_PATH" in config && "MARKDOWN_PATH" in config && "DEFAULT_TEMPLATE" in config &&
    "WEB_PAGES_PATH" in config && "MARKDOWN_OUTPUT_DIR" in config
  }

  // ---------------------------------------------------------------- foreign commands

  /** `exec_command`: the named command applied to the arguments, or an AttributeError. */
  function Exec(commands: map<string, seq<string> -> string>, name: string, args: seq<string>): (r: Result<string, GenError>)
    ensures r.Err? <==> name !in commands
    ensures r.Err? ==> r.error == UnknownCommand(name)
    ensures r.Ok? ==> r.value == commands[name](args)
  {
    if name in commands then Ok(commands[name](args)) else Err(UnknownCommand(name))
  }

  predicate IsCommandLine(line: string) {
    StartsWith(Strip(line), COMMAND_PREFIX)
  }

  /** What one line of the document becomes: a command line its command's output, any other line itself. */
  function RewriteLine(commands: map<string, seq<string> -> string>, line: string): (r: Result<string, GenError>)
    ensures !IsCommandLine(line) ==> r == Ok(line)
  {
    var l := Strip(line);
    if StartsWith(l, COMMAND_PREFIX) then
      var args := SplitWs(Strip(l[2..]));
      if args == [] then Err(EmptyCommand) else Exec(commands, args[0], args[1..])
    else Ok(line)
  }

  /** The rewritten lines, concatenated; the first failing line stops it. */
  function Rewrite(commands: map<string, seq<string> -> string>, lines: seq<string>): Result<string, GenError>
    decreases |lines|
  {
    if lines == [] then Ok("")
    else match Rewrite(commands, lines[..|lines| - 1])
      case Err(e) => Err(e)
      case Ok(s) =>
        match RewriteLine(commands, lines[|lines| - 1])
        case Err(e) => Err(e)
        case Ok(t) => Ok(s + t)
  }

  // ---------------------------------------------------------------- front matter

  /** The list a collapsed value stands for. */
  function Values(f: Field): seq<string> {
    match f
    case One(s) => [s]
    case Many(vs) => vs
  }

  /**
   * The front-matter dict `render_markdown` returns: keys with an empty
   * list dropped, one-element lists replaced by their element, longer lists
   * kept.
   */
  function Collapsed(raw: map<string, seq<string>>): (r: DocMeta)
    ensures r.Keys <= raw.Keys
    ensures forall k :: k in raw ==> (k in r <==> raw[k] != [])
    ensures forall k :: k in r ==> Values(r[k]) == raw[k]
    ensures forall k :: k in r ==> (r[k].One? <==> |raw[k]| == 1)
  {
    map k | k in raw && raw[k] != [] :: if |raw[k]| == 1 then One(raw[k][0]) else Many(raw[k])
  }

  // ---------------------------------------------------------------- output file name

  /** Python truthiness of an optional front-matter value. */
  predicate Truthy(meta: DocMeta, key: string) {
    key in meta && Values(meta[key]) != [] && (meta[key].One? ==> meta[key].s != "")
  }

  /** `_slugs_from_title`: the library slug, lower-cased (no ampersand substitution here). */
  function SlugFromTitle(libs: Libs, title: string): (r: string)
    ensures |r| == |libs.slugify(title)|
    ensures forall i :: 0 <= i < |r| ==> r[i] == LowerChar(libs.slugify(title)[i])
    ensures forall i :: 0 <= i < |r| ==> !('A' <= r[i] <= 'Z')
  {
    Lower(libs.slugify(title))
  }

  /** The name (before joining) `_markdown_output_filename` picks: output_file, else the title's slug, else the input file's base name. */
  function OutputName(libs: Libs, meta: DocMeta): Result<string, GenError> {
    if Truthy(meta, "output_file") then
      if meta["output_file"].One? then Ok(meta["output_file"].s) else Err(NotAString("output_file"))
    else if Truthy(meta, "title") then
      if meta["title"].One? then Ok(SlugFromTitle(libs, meta["title"].s) + ".html") else Err(NotAString("title"))
    else if "input_file" !in meta then Err(MissingMetaKey("input_file"))
    else if meta["input_file"].One? then Ok(libs.basenameNoExt(meta["input_file"].s) + ".html")
    else Err(NotAString("input_file"))
  }

  /** `_markdown_output_filename`: the chosen name joined under the output directory. */
  function OutputFilename(libs: Libs, outputDir: string, meta: DocMeta): (r: Result<string, GenError>)
    ensures r.Ok? <==> OutputName(libs, meta).Ok?
    ensures r.Ok? ==> EndsWith(r.value, OutputName(libs, meta).value)
    ensures r.Ok? && !StartsWith(OutputName(libs, meta).value, "/") && outputDir != [] && !EndsWith(outputDir, "/") ==>
              r.value == outputDir + "/" + OutputName(libs, meta).value
  {
    match OutputName(libs, meta)
    case Err(e) => Err(e)
    case Ok(name) => Ok(Join(outputDir, name))
  }

  // ---------------------------------------------------------------- markdown directory

  /** `traverse_markdown_dir`: the joined paths of the listed names that are files and end in ".md", in listing order. */
  function MarkdownFiles(dir: string, listing: seq<string>, files: set<string>): (r: seq<string>)
    ensures forall k :: 0 <= k < |r| ==> r[k] in files && EndsWith(r[k], ".md")
    ensures |r| <= |listing|
    decreases |listing|
  {
    if listing == [] then []
    else
      var f := Join(dir, listing[|listing| - 1]);
      MarkdownFiles(dir, listing[..|listing| - 1], files) + (if f in files && EndsWith(f, ".md") then [f] else [])
  }

  // ---------------------------------------------------------------- one document

  /** What `process_markdown_file` records for a document and the html it would write: (record, html). */
  function Document(libs: Libs, commands: map<string, seq<string> -> string>, outputDir: string,
                    filename: string, text: string): Result<(DocMeta, string), GenError>
  {
    match Rewrite(commands, ReadLines(text))
    case Err(e) => Err(e)
    case Ok(contents) =>
      var converted := libs.markdown(contents);
      var meta := Collapsed(converted.1)["input_file" := One(filename)];
      match OutputFilename(libs, outputDir, meta)
      case Err(e) => Err(e)
      case Ok(out) => Ok((meta["output_file" := One(out)], converted.0))
  }

  // ---------------------------------------------------------------- the class

  class Generator {
    /** The configuration, copied onto the instance by `setattr`. */
    const attrs: map<string, string>
    /** The attributes `exec_command` can reach that are callable commands. */
    const commands: map<string, seq<string> -> string>
    const libs: Libs
    var book: seq<DocMeta>

    ghost predicate Valid() {
      IsConfigured(attrs)
    }

    /** The attribute copy of `__init__`, before the required keys are checked. */
    constructor (config: map<string, string>, commands: map<string, seq<string> -> string>, libs: Libs)
      ensures attrs == config && this.commands == commands && this.libs == libs && book == []
    {
      attrs := config;
      this.commands := commands;
      this.libs := libs;
      book := [];
    }

    /** The required-configuration loop of `__init__`: the first key, in order, that was not given. */
    method FirstUnset() returns (missing: Option<string>)
      ensures missing.None? <==> IsConfigured(attrs)
      ensures missing.Some? ==> exists i :: 0 <= i < |REQUIRED| && missing.value == REQUIRED[i] &&
                                  REQUIRED[i] !in attrs && forall j :: 0 <= j < i ==> REQUIRED[j] in attrs
      ensures missing == match FirstMissing(REQUIRED, attrs.Keys) case None => None case Some(i) => Some(REQUIRED[i])
    {
      var i := 0;
      while i < |REQUIRED|
        invariant 0 <= i <= |REQUIRED|
        invariant forall j :: 0 <= j < i ==> REQUIRED[j] in attrs
      {
        if REQUIRED[i] !in attrs {
          return Some(REQUIRED[i]);
        }
        i := i + 1;
      }
      assert REQUIRED[0] in attrs && REQUIRED[1] in attrs && REQUIRED[2] in attrs &&
             REQUIRED[3] in attrs && REQUIRED[4] in attrs;
      return None;
    }

    /** `Generator(config)`: the instance, or the TskError naming the first required key that is missing. */
    static method Create(config: map<string, string>, commands: map<string, seq<string> -> string>, libs: Libs)
      returns (r: Result<Generator, GenError>)
      ensures r.Ok? <==> IsConfigured(config)
      ensures r.Ok? ==> fresh(r.value) && r.value.Valid() && r.value.attrs == config && r.value.book == [] &&
                        r.value.commands == commands && r.value.libs == libs
      ensures r.Err? ==> match FirstMissing(REQUIRED, config.Keys)
                           case None => false
                           case Some(i) => r.error == MissingConfig(REQUIRED[i])
    {
      var g := new Generator(config, commands, libs);
      var missing := g.FirstUnset();
      if missing.Some? {
        return Err(MissingConfig(missing.value));
      }
      return Ok(g);
    }

    /** `exec_command`. */
    function ExecCommand(command: string, args: seq<string>): (r: Result<string, GenError>)
      ensures r.Err? <==> command !in commands
      ensures r.Ok? ==> r.value == commands[command](args)
    {
      Exec(commands, command, args)
    }

    /** The body of `process_foreign_commands`' loop for one line. */
    method ForeignLine(line: string) returns (r: Result<string, GenError>)
      ensures r == RewriteLine(commands, line)
    {
      var l := Strip(line);
      if !StartsWith(l, COMMAND_PREFIX) {
        return Ok(line);
      }
      var args := SplitWs(Strip(l[2..]));
      if args == [] {
        return Err(EmptyCommand);
      }
      r := ExecCommand(args[0], args[1..]);
    }

    /** `process_foreign_commands`: every `$$` line replaced by its command's output, the rest kept. */
    method ProcessForeignCommands(text: string) returns (r: Result<string, GenError>)
      ensures r == Rewrite(commands, ReadLines(text))
    {
      var lines := ReadLines(text);
      var rv := "";
      var i := 0;
      while i < |lines|
        invariant 0 <= i <= |lines|
        invariant Rewrite(commands, lines[..i]) == Ok(rv)
      {
        RewriteSnoc(commands, lines, i);
        var out := ForeignLine(lines[i]);
        if out.Err? {
          RewriteStopsAtError(commands, lines, i + 1);
          return Err(out.error);
        }
        rv := rv + out.value;
        i := i + 1;
      }
      assert lines[..|lines|] == lines;
      return Ok(rv);
    }

    /** The meta loop of `render_markdown`: drop the empty lists, collapse the one-element ones. */
    static method CollapseMeta(raw: map<string, seq<string>>) returns (meta: DocMeta)
      ensures meta == Collapsed(raw)
    {
      meta := map[];
      var todo := raw.Keys;
      while todo != {}
        invariant todo <= raw.Keys
        invariant forall k :: k in meta <==> k in raw && k !in todo && raw[k] != []
        invariant forall k :: k in meta ==> meta[k] == Collapsed(raw)[k]
        decreases |todo|
      {
        var k :| k in todo;
        var v := raw[k];
        if v != [] {
          if |v| == 1 {
            meta := meta[k := One(v[0])];
          } else {
            meta := meta[k := Many(v)];
          }
        }
        todo := todo - {k};
      }
      assert meta.Keys == Collapsed(raw).Keys;
    }

    /** `render_markdown`: the html and the collapsed front matter. */
    method RenderMarkdown(text: string) returns (html: string, meta: DocMeta)
      ensures html == libs.markdown(text).0 && meta == Collapsed(libs.markdown(text).1)
    {
      var converted := libs.markdown(text);
      html := converted.0;
      meta := CollapseMeta(converted.1);
    }

    /** `_markdown_output_filename`. */
    function MarkdownOutputFilename(meta: DocMeta): (r: Result<string, GenError>)
      requires Valid()
      ensures r.Ok? <==> OutputName(libs, meta).Ok?
      ensures r.Ok? ==> EndsWith(r.value, OutputName(libs, meta).value)
    {
      OutputFilename(libs, attrs["MARKDOWN_OUTPUT_DIR"], meta)
    }

    /** `traverse_markdown_dir`, with the directory listing and the set of existing files given. */
    function TraverseMarkdownDir(listing: seq<string>, files: set<string>): (r: seq<string>)
      requires Valid()
      ensures forall k :: 0 <= k < |r| ==> r[k] in files && EndsWith(r[k], ".md")
    {
      MarkdownFiles(attrs["MARKDOWN_PATH"], listing, files)
    }

    /**
     * `process_markdown_file`, with the file's text given: append exactly one
     * record to `book` and return the output file name and the html that
     * `write_output` would write there. On an error `book` is unchanged.
     */
    method ProcessMarkdownFile(filename: string, text: string) returns (r: Result<(string, string), GenError>)
      requires Valid()
      modifies this`book
      ensures match Document(libs, commands, attrs["MARKDOWN_OUTPUT_DIR"], filename, text)
        case Ok(d) => r == Ok((d.0["output_file"].s, d.1)) && book == old(book) + [d.0]
        case Err(e) => r == Err(e) && book == old(book)
    {
      var contents := ProcessForeignCommands(text);
      if contents.Err? {
        return Err(contents.error);
      }
      var html, meta := RenderMarkdown(contents.value);
      meta := meta["input_file" := One(filename)];
      var out := MarkdownOutputFilename(meta);
      if out.Err? {
        return Err(out.error);
      }
      meta := meta["output_file" := One(out.value)];
      book := book + [meta];
      return Ok((out.value, html));
    }
  }

  /** Rewriting one more line: the shorter rewrite, then that line. */
  lemma RewriteSnoc(commands: map<string, seq<string> -> string>, lines: seq<string>, i: nat)
    requires i < |lines|
    ensures Rewrite(commands, lines[..i + 1]) ==
      match Rewrite(commands, lines[..i])
      case Err(e) => Err(e)
      case Ok(s) =>
        match RewriteLine(commands, lines[i])
        case Err(e) => Err(e)
        case Ok(t) => Ok(s + t)
  {
    assert lines[..i + 1][..i] == lines[..i];
    assert lines[..i + 1][i] == lines[i];
  }

  lemma {:induction false} RewriteStopsAtError(commands: map<string, seq<string> -> string>, lines: seq<string>, n: nat)
    requires n <= |lines| && Rewrite(commands, lines[..n]).Err?
    ensures Rewrite(commands, lines) == Rewrite(commands, lines[..n])
    decreases |lines| - n
  {
    if n < |lines| {
      var init := lines[..|lines| - 1];
      assert init[..n] == lines[..n];
      RewriteStopsAtError(commands, init, n);
    } else {
      assert lines[..n] == lines;
    }
  }
}
