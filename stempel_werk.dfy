/**
 * StempelWerk: renders every template found in the template directory and
 * splits each rendered text into output files.
 *
 * A rendered text holds any number of output files, each introduced by the
 * "new file" marker and made of a file name, the "content" marker and the
 * file's content.  The generator writes each one below the output
 * directory, with the newline convention its suffix asks for, and
 * remembers when it last ran so that a later run can render only the
 * templates modified since.
 *
 * Jinja itself is not modelled: rendering is a function parameter from a
 * template path and the global namespace to the rendered text.  The disk
 * is the set of existing directories and a map from file path to the
 * text written there.
 */
module StempelWerk {
  import opened PyText
  import Arith
  import DirWalk

  type Path = DirWalk.Path

  /** The settings the core reads (the `Settings` dataclass, after
      `finalize_path` made the directories absolute). */
  datatype Settings = Settings(
    templateDir: Path,
    outputDir: Path,
    includedSuffixes: seq<string>,
    stencilDirName: string,
    createDirectories: bool,
    markerNewFile: string,
    markerContent: string,
    newline: Option<string>)

  /** Why a step stops: `exit(1)` after an error message, or the Python
      exception it raises. */
  datatype Failure =
    | SplittingProblem            // marker counts in one output file are wrong
    | EmptySeparator              // `str.split` with an empty marker (ValueError)
    | MissingDirectory(directory: Path)
    | IsADirectory(path: Path)    // `write_text` onto an existing directory
    | IllegalNewline              // `open` refuses the newline setting (ValueError)
    | NotRelative                 // `relative_to`: template outside the template directory
    | NoTemplates
    | NoStencils
    | BadLastRun                  // last-run text is not a whole number (ValueError)
    | NoTemplateDirectory         // template directory cannot be scanned (OSError)
    | ZeroDivision                // `timedelta / 0`

  datatype Result<T> = Ok(value: T) | Err(failure: Failure)

  /** The dictionary `render_template` and `render_all_templates` return. */
  datatype RunResults = RunResults(processedTemplates: nat, savedFiles: nat)

  // ------------------------------------------------------------------
  // One output file: _process_raw_content
  // ------------------------------------------------------------------

  /** `_process_raw_content`: the text of one output file must hold no
      "new file" marker and exactly one "content" marker; the name is what
      precedes the content marker, stripped, and the content what follows
      it, with leading whitespace removed. */
  function ProcessRawContent(rawContent: string, markerNewFile: string, markerContent: string)
    : (r: Result<(string, string)>)
    ensures r.Ok? <==> (Count(rawContent, markerNewFile) == 0 && Count(rawContent, markerContent) == 1
                        && markerContent != [])
    ensures r.Err? ==> r.failure == SplittingProblem || (r.failure == EmptySeparator && rawContent == [])
  {
    if Count(rawContent, markerNewFile) != 0 || Count(rawContent, markerContent) != 1 then
      Err(SplittingProblem)
    else if markerContent == [] then
      Err(EmptySeparator)
    else
      // `split(marker_content, 1)`: the text up to the first occurrence and after it
      var i := Find(rawContent, markerContent);
      Ok((Strip(rawContent[..i]), LStrip(rawContent[i + |markerContent|..])))
  }

  /** A file written as name, content marker and content, where the name
      has no surrounding whitespace and the content no leading whitespace,
      is read back as that name and that content. */
  lemma FileTextRoundTrip(name: string, content: string, markerNewFile: string, markerContent: string)
    requires markerContent != []
    requires name == [] || (!IsSpace(name[0]) && !IsSpace(name[|name| - 1]))
    requires content == [] || !IsSpace(content[0])
    requires Count(name + markerContent + content, markerNewFile) == 0
    requires Count(name + markerContent + content, markerContent) == 1
    requires Find(name + markerContent + content, markerContent) == |name|
    ensures ProcessRawContent(name + markerContent + content, markerNewFile, markerContent)
            == Ok((name, content))
  {
    var raw := name + markerContent + content;
    assert raw[..|name|] == name;
    assert raw[|name| + |markerContent|..] == content;
    assert LStrip(content) == content;
    StripUnchanged(name);
  }

  // ------------------------------------------------------------------
  // Newlines: newline_exceptions and write_text(newline=...)
  // ------------------------------------------------------------------

  /** `newline_exceptions.get(suffix, default)`: batch and PowerShell
      scripts get Windows newlines, shell scripts Unix ones. */
  function NewlineFor(suffix: string, default: Option<string>): Option<string>
  {
    if suffix == ".bat" || suffix == ".ps1" then Some("\r\n")
    else if suffix == ".sh" then Some("\n")
    else default
  }

  /** Every line feed replaced by `newline`. */
  function ReplaceLineFeeds(s: string, newline: string): (r: string)
    ensures newline == "\n" ==> r == s
    ensures '\n' !in s ==> r == s
  {
    if s == [] then []
    else
      var rest := ReplaceLineFeeds(s[1..], newline);
      assert s == [s[0]] + s[1..];
      (if s[0] == '\n' then newline else [s[0]]) + rest
  }

  /** What a text file opened for writing with `newline` stores: no
      translation for "" and "\n", line feeds replaced for "\r" and
      "\r\n", the platform's line separator for `None`; `open` refuses any
      other value. */
  function Translate(content: string, newline: Option<string>, linesep: string): (r: Result<string>)
    ensures r.Err? <==> newline.Some? && newline.value !in ["", "\n", "\r", "\r\n"]
    ensures (newline == Some("") || newline == Some("\n")) ==> r == Ok(content)
  {
    match newline
    case None => Ok(ReplaceLineFeeds(content, linesep))
    case Some(nl) =>
      if nl == "" || nl == "\n" then Ok(content)
      else if nl == "\r" || nl == "\r\n" then Ok(ReplaceLineFeeds(content, nl))
      else Err(IllegalNewline)
  }

  /** Every line feed directly follows a carriage return. */
  predicate NoBareLineFeed(t: string)
  {
    forall i :: 0 <= i < |t| && t[i] == '\n' ==> 0 < i && t[i - 1] == '\r'
  }

  lemma {:induction false} CrLfTranslation(s: string)
    ensures NoBareLineFeed(ReplaceLineFeeds(s, "\r\n"))
  {
    if s != [] {
      CrLfTranslation(s[1..]);
      var head := if s[0] == '\n' then "\r\n" else [s[0]];
      var rest := ReplaceLineFeeds(s[1..], "\r\n");
      var t := head + rest;
      assert t == ReplaceLineFeeds(s, "\r\n");
      forall i | 0 <= i < |t| && t[i] == '\n'
        ensures 0 < i && t[i - 1] == '\r'
      {
        if i >= |head| {
          assert rest[i - |head|] == '\n';
          assert t[i - 1] == rest[i - |head| - 1];
        }
      }
    }
  }

  /** Whatever the default newline setting and the platform: a batch or
      PowerShell script is written with Windows newlines only, and a shell
      script exactly as rendered. */
  lemma ScriptNewlines(path: Path, default: Option<string>, content: string, linesep: string)
    ensures Suffix(path) == ".bat" || Suffix(path) == ".ps1" ==>
              var t := Translate(content, NewlineFor(Suffix(path), default), linesep);
              t.Ok? && NoBareLineFeed(t.value)
    ensures Suffix(path) == ".sh" ==>
              Translate(content, NewlineFor(Suffix(path), default), linesep) == Ok(content)
  {
    CrLfTranslation(content);
  }

  // ------------------------------------------------------------------
  // Paths: finalize_path and the pathlib properties used
  // ------------------------------------------------------------------

  /** The components pathlib keeps when it parses `/`-separated text:
      empty components and `.` are dropped. */
  function Components(pieces: seq<string>): (r: seq<string>)
    ensures forall i :: 0 <= i < |r| ==> r[i] != "" && r[i] != "."
    ensures forall x :: x in r ==> x in pieces
  {
    if pieces == [] then []
    else
      var rest := Components(pieces[..|pieces| - 1]);
      var last := pieces[|pieces| - 1];
      if last == "" || last == "." then rest else rest + [last]
  }

  /** `Settings.finalize_path`: the stripped name appended to the root
      directory, unless the name is itself absolute. */
  function FinalizePath(root: Path, originalPath: string): (p: Path)
    ensures var name := Strip(originalPath);
            (name == [] || name[0] != '/') ==> |root| <= |p| && p[..|root|] == root
  {
    var name := Strip(originalPath);
    var parts := Components(Split(name, "/"));
    if name != [] && name[0] == '/' then ["/"] + parts else root + parts
  }

  /** `PurePath.name`. */
  function Name(p: Path): string
  {
    if p == [] || p == ["/"] then "" else p[|p| - 1]
  }

  /** `str.rfind` for one character. */
  function RFind(s: string, c: char): (i: int)
    ensures -1 <= i < |s|
    ensures i >= 0 ==> s[i] == c
    ensures forall j :: i < j < |s| ==> s[j] != c
  {
    if s == [] then -1
    else if s[|s| - 1] == c then |s| - 1
    else RFind(s[..|s| - 1], c)
  }

  /** `PurePath.suffix`: from the last dot of the name, unless that dot
      starts or ends the name. */
  function Suffix(p: Path): (r: string)
    ensures r != [] ==> (r[0] == '.' && 2 <= |r| < |Name(p)|
                         && Name(p)[|Name(p)| - |r|..] == r
                         && forall k :: 1 <= k < |r| ==> r[k] != '.')
  {
    var name := Name(p);
    var i := RFind(name, '.');
    if 0 < i < |name| - 1 then name[i..] else ""
  }

  /** A file called `stem.ext` has the suffix `.ext`, whatever dots the
      stem contains. */
  lemma SuffixOfName(p: Path, stem: string, ext: string)
    requires p != [] && p[|p| - 1] == stem + "." + ext
    requires stem != [] && ext != [] && forall k :: 0 <= k < |ext| ==> ext[k] != '.'
    ensures Suffix(p) == "." + ext
  {
    var name := stem + "." + ext;
    assert name[|stem|] == '.';
    assert p != ["/"] by {
      assert "/"[0] != '.';
    }
    assert Name(p) == name;
    var i := RFind(name, '.');
    forall j | |stem| < j < |name|
      ensures name[j] != '.'
    {
      assert name[j] == ext[j - |stem| - 1];
    }
    assert i == |stem|;
    assert name[i..] == "." + ext;
  }

  /** `PurePath.parent`. */
  function Parent(p: Path): Path
  {
    if |p| <= 1 then (if p == ["/"] then p else []) else p[..|p| - 1]
  }

  /** The directories `mkdir(parents=True)` makes sure exist. */
  function Ancestors(p: Path): (r: set<Path>)
    ensures p in r && [] in r
    ensures forall k :: 0 <= k <= |p| ==> p[..k] in r
    ensures forall q :: q in r <==> IsPrefix(q, p)
  {
    assert p[..|p|] == p && p[..0] == [];
    var r := set k | 0 <= k <= |p| :: p[..k];
    forall q | IsPrefix(q, p)
      ensures q in r
    {
      assert q == p[..|q|];
    }
    r
  }

  /** `p` lies in `root` or below it (`relative_to` succeeds). */
  predicate IsPrefix(root: Path, p: Path)
  {
    |root| <= |p| && p[..|root|] == root
  }

  // ------------------------------------------------------------------
  // Saving: _save_single_file and _save_content as specification
  // ------------------------------------------------------------------

  datatype Disk = Disk(directories: set<Path>, files: map<Path, string>)

  /** A step's result and the disk after it (a step that fails half-way
      leaves what it already did on disk). */
  datatype Saved = Saved(result: Result<nat>, disk: Disk)

  /** Where the text of one output file is written, once it is known to be
      well formed. */
  function OutputPath(rawContent: string, s: Settings): Path
  {
    match ProcessRawContent(rawContent, s.markerNewFile, s.markerContent)
    case Ok(pair) => FinalizePath(s.outputDir, pair.0)
    case Err(_) => []
  }

  /** `_save_single_file`: split off the name, make sure the directory
      exists (creating it and its parents when the settings allow), pick
      the newline convention by suffix and write the file. */
  function SaveSingle(rawContent: string, disk: Disk, s: Settings, linesep: string): Saved
  {
    match ProcessRawContent(rawContent, s.markerNewFile, s.markerContent)
    case Err(f) => Saved(Err(f), disk)
    case Ok(pair) => WriteOutput(FinalizePath(s.outputDir, pair.0), pair.1, disk, s, linesep)
  }

  /** The part of `_save_single_file` after the name is known. */
  function WriteOutput(path: Path, content: string, disk: Disk, s: Settings, linesep: string): Saved
  {
    var parent := Parent(path);
    if parent !in disk.directories && !s.createDirectories then
      Saved(Err(MissingDirectory(parent)), disk)
    else
      var disk1 := if parent in disk.directories then disk
                   else Disk(disk.directories + Ancestors(parent), disk.files);
      if path in disk1.directories then Saved(Err(IsADirectory(path)), disk1)
      else
        // the file is opened (created or truncated) before the text layer
        // looks at the newline setting
        match Translate(content, NewlineFor(Suffix(path), s.newline), linesep)
        case Err(f) => Saved(Err(f), Disk(disk1.directories, disk1.files[path := ""]))
        case Ok(text) => Saved(Ok(1), Disk(disk1.directories, disk1.files[path := text]))
  }

  /** How a write fails once the directory is there: an existing directory
      at the path is reported first and leaves the files alone; otherwise
      the write fails exactly when the newline setting is illegal, and then
      leaves an empty file at the path. */
  lemma WriteOutputFailures(path: Path, content: string, disk: Disk, s: Settings, linesep: string)
    requires Parent(path) in disk.directories || s.createDirectories
    ensures var out := WriteOutput(path, content, disk, s, linesep);
            var nl := NewlineFor(Suffix(path), s.newline);
            var illegal := nl.Some? && nl.value !in ["", "\n", "\r", "\r\n"];
            (path in out.disk.directories ==>
               out.result == Err(IsADirectory(path)) && out.disk.files == disk.files)
            && (path !in out.disk.directories ==>
                  (out.result.Err? <==> illegal)
                  && (illegal ==> out.result == Err(IllegalNewline)
                                  && path in out.disk.files && out.disk.files[path] == ""))
  {
  }

  /** `_save_single_file` returns 1: a step that succeeds saves one file. */
  lemma SaveSingleOne(rawContent: string, disk: Disk, s: Settings, linesep: string)
    ensures SaveSingle(rawContent, disk, s, linesep).result.Ok?
            ==> SaveSingle(rawContent, disk, s, linesep).result == Ok(1)
  {
    match ProcessRawContent(rawContent, s.markerNewFile, s.markerContent)
    case Err(_) =>
    case Ok(pair) => WriteOutputOne(FinalizePath(s.outputDir, pair.0), pair.1, disk, s, linesep);
  }

  lemma WriteOutputOne(path: Path, content: string, disk: Disk, s: Settings, linesep: string)
    ensures WriteOutput(path, content, disk, s, linesep).result.Ok?
            ==> WriteOutput(path, content, disk, s, linesep).result == Ok(1)
  {
  }

  /** A count of `k` earlier files added to a result. */
  function Shifted(k: nat, out: Saved): Saved
  {
    Saved(if out.result.Ok? then Ok(k + out.result.value) else out.result, out.disk)
  }

  lemma ShiftedTwice(a: nat, b: nat, out: Saved)
    ensures Shifted(a, Shifted(b, out)) == Shifted(a + b, out)
  {
  }

  /** The loop of `_save_content` over the fragments between "new file"
      markers: blank fragments are skipped, the first failure stops. */
  function SaveFragments(fragments: seq<string>, disk: Disk, s: Settings, linesep: string): Saved
  {
    SaveFrom(fragments, 0, disk, s, linesep)
  }

  /** The same loop from fragment `n` on. */
  function SaveFrom(fragments: seq<string>, n: nat, disk: Disk, s: Settings, linesep: string): Saved
    decreases |fragments| - n, 1
  {
    if n >= |fragments| then Saved(Ok(0), disk)
    else if Strip(fragments[n]) == [] then SaveFrom(fragments, n + 1, disk, s, linesep)
    else SaveThen(fragments, n, disk, s, linesep)
  }

  /** Fragment `n` is not blank: it is saved, and the loop goes on after
      it unless saving failed. */
  function SaveThen(fragments: seq<string>, n: nat, disk: Disk, s: Settings, linesep: string): Saved
    requires n < |fragments|
    decreases |fragments| - n, 0
  {
    var one := SaveSingle(fragments[n], disk, s, linesep);
    if one.result.Err? then one
    else Shifted(1, SaveFrom(fragments, n + 1, one.disk, s, linesep))
  }

  /** The loop's account once every fragment is done. */
  lemma LoopDone(fragments: seq<string>, n: nat, saved: nat, goal: Saved, disk: Disk, s: Settings, linesep: string)
    requires n == |fragments|
    requires goal == Shifted(saved, SaveFrom(fragments, n, disk, s, linesep))
    ensures goal == Saved(Ok(saved), disk)
  {
  }

  /** A saved fragment adds its count, a failed one ends the loop with
      its failure. */
  lemma LoopSave(fragments: seq<string>, n: nat, saved: nat, goal: Saved,
                 before: Disk, one: Result<nat>, after: Disk, s: Settings, linesep: string)
    requires n < |fragments| && Strip(fragments[n]) != []
    requires goal == Shifted(saved, SaveFrom(fragments, n, before, s, linesep))
    requires Saved(one, after) == SaveSingle(fragments[n], before, s, linesep)
    ensures one.Err? ==> goal == Saved(one, after)
    ensures one.Ok? ==> goal == Shifted(saved + one.value, SaveFrom(fragments, n + 1, after, s, linesep))
  {
    SaveSingleOne(fragments[n], before, s, linesep);
    if one.Ok? {
      ShiftedTwice(saved, 1, SaveFrom(fragments, n + 1, after, s, linesep));
    }
  }

  /** How many fragments are not blank. */
  function NonBlankCount(fragments: seq<string>): (n: nat)
    ensures n <= |fragments|
  {
    if fragments == [] then 0
    else NonBlankCount(fragments[..|fragments| - 1]) + (if Strip(fragments[|fragments| - 1]) == [] then 0 else 1)
  }

  lemma {:induction false} NonBlankCountFront(fragments: seq<string>)
    requires fragments != []
    ensures NonBlankCount(fragments)
            == (if Strip(fragments[0]) == [] then 0 else 1) + NonBlankCount(fragments[1..])
    decreases |fragments|
  {
    if |fragments| > 1 {
      var init := fragments[..|fragments| - 1];
      NonBlankCountFront(init);
      assert init[1..] == fragments[1..][..|fragments| - 2];
      assert init[0] == fragments[0];
    }
  }

  /** A successful save writes exactly one file per non-blank fragment. */
  lemma {:induction false} SavedCount(fragments: seq<string>, n: nat, disk: Disk, s: Settings, linesep: string)
    requires n <= |fragments|
    ensures var out := SaveFrom(fragments, n, disk, s, linesep);
            out.result.Ok? ==> out.result.value == NonBlankCount(fragments[n..])
    decreases |fragments| - n
  {
    if n < |fragments| {
      var rest := fragments[n..];
      NonBlankCountFront(rest);
      assert rest[0] == fragments[n] && rest[1..] == fragments[n + 1..];
      if Strip(fragments[n]) == [] {
        SavedCount(fragments, n + 1, disk, s, linesep);
      } else {
        var one := SaveSingle(fragments[n], disk, s, linesep);
        SaveSingleOne(fragments[n], disk, s, linesep);
        if one.result.Ok? {
          SavedCount(fragments, n + 1, one.disk, s, linesep);
        }
      }
    } else {
      assert fragments[n..] == [];
    }
  }

  /** Saving one file keeps every file and directory, and on success the
      file and its directory exist. */
  lemma SaveSingleGrows(rawContent: string, disk: Disk, s: Settings, linesep: string)
    ensures var out := SaveSingle(rawContent, disk, s, linesep);
            disk.files.Keys <= out.disk.files.Keys && disk.directories <= out.disk.directories
            && (!s.createDirectories ==> out.disk.directories == disk.directories)
            && (out.result.Ok? ==>
                  OutputPath(rawContent, s) in out.disk.files
                  && Parent(OutputPath(rawContent, s)) in out.disk.directories)
  {
    var processed := ProcessRawContent(rawContent, s.markerNewFile, s.markerContent);
    if processed.Ok? {
      WriteOutputGrows(FinalizePath(s.outputDir, processed.value.0), processed.value.1, disk, s, linesep);
    }
  }

  lemma WriteOutputGrows(path: Path, content: string, disk: Disk, s: Settings, linesep: string)
    ensures var out := WriteOutput(path, content, disk, s, linesep);
            disk.files.Keys <= out.disk.files.Keys && disk.directories <= out.disk.directories
            && (!s.createDirectories ==> out.disk.directories == disk.directories)
            && (out.result.Ok? ==> path in out.disk.files && Parent(path) in out.disk.directories)
  {
  }

  /** Saving never removes a file or a directory; without
      `create_directories` it creates no directory; and a successful save
      has written the file of every non-blank fragment. */
  lemma {:induction false} SavedFilesPresent(fragments: seq<string>, n: nat, disk: Disk, s: Settings, linesep: string)
    ensures var out := SaveFrom(fragments, n, disk, s, linesep);
            disk.files.Keys <= out.disk.files.Keys && disk.directories <= out.disk.directories
            && (!s.createDirectories ==> out.disk.directories == disk.directories)
            && (out.result.Ok? ==>
                  forall i :: n <= i < |fragments| && Strip(fragments[i]) != [] ==>
                    OutputPath(fragments[i], s) in out.disk.files)
    decreases |fragments| - n
  {
    if n < |fragments| {
      if Strip(fragments[n]) == [] {
        SavedFilesPresent(fragments, n + 1, disk, s, linesep);
      } else {
        var one := SaveSingle(fragments[n], disk, s, linesep);
        SaveSingleGrows(fragments[n], disk, s, linesep);
        if one.result.Ok? {
          SavedFilesPresent(fragments, n + 1, one.disk, s, linesep);
        }
      }
    }
  }

  /** The result of `_save_content` from the loop's result: one template
      processed, the files saved. */
  function Counted(result: Result<nat>): Result<RunResults>
  {
    if result.Ok? then Ok(RunResults(1, result.value)) else Err(result.failure)
  }

  // ------------------------------------------------------------------
  // Templates and stencils: _get_stencils, _check_templates, _check_stencils
  // ------------------------------------------------------------------

  /** The templates with a path component named like the stencil
      directory, in their order. */
  function Stencils(templatePaths: seq<Path>, stencilDirName: string): (r: seq<Path>)
    ensures forall p :: p in r <==> p in templatePaths && stencilDirName in p
  {
    if templatePaths == [] then []
    else
      var last := templatePaths[|templatePaths| - 1];
      Stencils(templatePaths[..|templatePaths| - 1], stencilDirName)
        + (if stencilDirName in last then [last] else [])
  }

  /** `_check_templates` then `_check_stencils`: no template at all stops
      the run, and so do no stencils when a stencil directory is named. */
  function EnvironmentCheck(templatePaths: seq<Path>, stencilDirName: string): Result<()>
  {
    if templatePaths == [] then Err(NoTemplates)
    else if stencilDirName != [] && Stencils(templatePaths, stencilDirName) == [] then Err(NoStencils)
    else Ok(())
  }

  /** The environment is refused for lack of stencils exactly when there
      are templates, a stencil directory is named, and no template path
      passes through it; with no stencil directory named, any non-empty
      template list is accepted. */
  lemma EnvironmentCheckIff(templatePaths: seq<Path>, stencilDirName: string)
    ensures EnvironmentCheck(templatePaths, stencilDirName) == Err(NoStencils)
            <==> (templatePaths != [] && stencilDirName != []
                  && forall p :: p in templatePaths ==> stencilDirName !in p)
    ensures stencilDirName == [] ==>
              (EnvironmentCheck(templatePaths, stencilDirName).Ok? <==> templatePaths != [])
  {
    var r := Stencils(templatePaths, stencilDirName);
    if r != [] {
      assert r[0] in r;
    }
  }

  // ------------------------------------------------------------------
  // Finding templates: _get_last_run and _find_templates
  // ------------------------------------------------------------------

  /** `_get_last_run`: the stripped text of the last-run file, `None` when
      it cannot be read. */
  function LastRunText(lastRun: Option<string>): (r: Option<string>)
    ensures r.Some? <==> lastRun.Some?
    ensures r.Some? ==> r.value == [] || (!IsSpace(r.value[0]) && !IsSpace(r.value[|r.value| - 1]))
  {
    if lastRun.Some? then
      StripShape(lastRun.value);
      Some(Strip(lastRun.value))
    else None
  }

  /** The `included` dictionary `_find_templates` passes: stencil
      directories are not rendered. */
  function TemplateInclusions(s: Settings): DirWalk.Inclusions
  {
    DirWalk.Inclusions([s.stencilDirName], [], s.includedSuffixes)
  }

  /** What `_find_templates` gets from `dirwalk` for the template tree. */
  function FoundTemplates(s: Settings, lastRun: Option<string>, processOnlyModified: bool,
                          tree: DirWalk.Entry): DirWalk.Outcome<seq<DirWalk.Item>>
  {
    var text := LastRunText(lastRun);
    var modifiedAfter := if processOnlyModified && text.Some? then DirWalk.Text(text.value)
                         else DirWalk.NotGiven;
    var prepared := DirWalk.Prepare(true, false, false, Some(TemplateInclusions(s)), modifiedAfter);
    if !prepared.Ok? then DirWalk.ValueError
    else if !DirWalk.IsDir(tree, true) then DirWalk.OSError
    else DirWalk.Ok(DirWalk.Listing(s.templateDir, tree, prepared.value))
  }

  /** Every template found is a file below the template directory that
      lies in no stencil directory. */
  lemma FoundTemplatesSound(s: Settings, lastRun: Option<string>, processOnlyModified: bool,
                            tree: DirWalk.Entry)
    ensures var found := FoundTemplates(s, lastRun, processOnlyModified, tree);
            found.Ok? ==>
              forall item :: item in found.value ==>
                item.FileItem? && DirWalk.Below(s.templateDir, item.path)
                && forall k :: |s.templateDir| <= k < |item.path| - 1 ==> item.path[k] != s.stencilDirName
  {
    var found := FoundTemplates(s, lastRun, processOnlyModified, tree);
    if found.Ok? {
      var text := LastRunText(lastRun);
      var modifiedAfter := if processOnlyModified && text.Some? then DirWalk.Text(text.value)
                           else DirWalk.NotGiven;
      var o := DirWalk.Prepare(true, false, false, Some(TemplateInclusions(s)), modifiedAfter).value;
      DirWalk.ListingSound(s.templateDir, tree, o);
      forall item | item in found.value
        ensures item.FileItem? && DirWalk.Below(s.templateDir, item.path)
        ensures forall k :: |s.templateDir| <= k < |item.path| - 1 ==> item.path[k] != s.stencilDirName
      {
        assert DirWalk.GoodItem(s.templateDir, item, o);
      }
    }
  }

  /** After a run that started at `start` (seconds since the epoch) has
      stored its time, the next run that renders only modified templates
      walks the template tree with the cutoff `floor(start)`. */
  lemma NextRunCutoff(s: Settings, start: real, tree: DirWalk.Entry)
    ensures FoundTemplates(s, Some(IntToString(start.Floor)), true, tree)
            == if DirWalk.IsDir(tree, true)
               then DirWalk.Ok(DirWalk.Listing(s.templateDir, tree,
                      DirWalk.Options(true, false, false, TemplateInclusions(s), start.Floor)))
               else DirWalk.OSError
  {
    var stamp := IntToString(start.Floor);
    StripUnchanged(stamp);
    assert LastRunText(Some(stamp)) == Some(stamp);
    DirWalk.RepreparedText(start.Floor);
    assert DirWalk.Prepare(true, false, false, Some(TemplateInclusions(s)), DirWalk.Text(stamp))
           == DirWalk.Ok(DirWalk.Options(true, false, false, TemplateInclusions(s), start.Floor));
  }

  // ------------------------------------------------------------------
  // Progress and statistics
  // ------------------------------------------------------------------

  /** `c * n` in Python: the character `c`, `n` times. */
  function Repeat(c: char, n: nat): (s: string)
  {
    seq(n, _ => c)
  }

  lemma {:induction false} RepeatCount(c: char, n: nat)
    ensures multiset(Repeat(c, n))[c] == n
    ensures forall d :: d != c ==> multiset(Repeat(c, n))[d] == 0
  {
    if n > 0 {
      RepeatCount(c, n - 1);
      assert Repeat(c, n) == Repeat(c, n - 1) + [c];
    }
  }

  /** `_show_progress`: a group of ten dots after every tenth template, a
      line break after every fortieth; finishing prints the remaining dots
      and ends an unfinished line. */
  function ProgressText(processedTemplates: nat, isFinished: bool): string
  {
    if isFinished then
      Repeat('.', processedTemplates % 10) + (if processedTemplates % 40 != 0 then "\n" else "")
    else if processedTemplates % 40 == 0 then Repeat('.', 10) + "\n"
    else if processedTemplates % 10 == 0 then Repeat('.', 10) + " "
    else ""
  }

  /** The progress printed while templates 1 to `n` are processed: ten
      dots per complete group of ten, one line break per complete group of
      forty. */
  function ProgressSoFar(n: nat): (s: string)
    ensures multiset(s)['.'] == 10 * CompleteGroups(n, 10)
    ensures multiset(s)['\n'] == CompleteGroups(n, 40)
  {
    if n == 0 then ""
    else
      ProgressTextCounts(n);
      ProgressSoFar(n - 1) + ProgressText(n, false)
  }

  /** While templates are processed, ten dots are printed per ten
      templates and one line break per forty. */
  lemma ProgressSoFarCounts(n: nat)
    ensures multiset(ProgressSoFar(n))['.'] == n - n % 10
    ensures multiset(ProgressSoFar(n))['\n'] * 40 == n - n % 40
  {
    CompleteGroupsValue(n, 10);
    CompleteGroupsValue(n, 40);
  }

  /** The number of complete groups of `g` among templates 1 to `n`,
      counted one template at a time. */
  function CompleteGroups(n: nat, g: nat): nat
  {
    if n == 0 then 0 else CompleteGroups(n - 1, g) + if g > 0 && n % g == 0 then 1 else 0
  }

  lemma {:induction false} CompleteGroupsValue(n: nat, g: nat)
    requires g > 0
    ensures CompleteGroups(n, g) * g == n - n % g
    decreases n
  {
    if n > 0 {
      CompleteGroupsValue(n - 1, g);
      GroupCountStep(n, g, CompleteGroups(n - 1, g), CompleteGroups(n, g));
    }
  }

  /** Counting one more template: a count of complete groups that grows
      by one exactly when the template completes a group stays equal to
      the number of templates in complete groups, divided by `g`. */
  lemma GroupCountStep(n: nat, g: nat, before: int, after: int)
    requires n > 0 && g > 0
    requires before * g == (n - 1) - (n - 1) % g
    requires after == before + if n % g == 0 then 1 else 0
    ensures after * g == n - n % g
  {
    GroupStep(n, n - 1, g);
    if n % g == 0 {
      assert after * g == before * g + g;
    }
  }

  /** The dots and line breaks printed after the n-th template. */
  lemma ProgressTextCounts(n: nat)
    ensures multiset(ProgressText(n, false))['.'] == if n % 10 == 0 then 10 else 0
    ensures multiset(ProgressText(n, false))['\n'] == if n % 40 == 0 then 1 else 0
  {
    RepeatCount('.', 10);
    var t := ProgressText(n, false);
    if n % 40 == 0 {
      assert n % 10 == 0 by {
        assert n == 10 * (n / 40 * 4) + 0;
        Arith.ModuloUnique(n, 10, n / 40 * 4, 0);
      }
      assert t == Repeat('.', 10) + "\n";
    } else if n % 10 == 0 {
      assert t == Repeat('.', 10) + " ";
    } else {
      assert t == "";
    }
  }

  /** Counting one more template completes a group of `g` exactly when
      the remainder wraps around to zero. */
  lemma GroupStep(n: nat, m: nat, g: nat)
    requires n == m + 1 && g > 0
    ensures n % g == if m % g == g - 1 then 0 else m % g + 1
  {
    var q, r := m / g, m % g;
    assert m == g * q + r && 0 <= r < g;
    if r == g - 1 {
      assert n == g * (q + 1) + 0 by {
        assert g * (q + 1) == g * q + g;
      }
      Arith.ModuloUnique(n, g, q + 1, 0);
    } else {
      Arith.ModuloUnique(n, g, q, r + 1);
    }
  }

  /** Once finished, the progress shows one dot per template, in lines of
      at most forty dots: `lines` line breaks, where `lines` is n/40
      rounded up. */
  lemma ProgressTotals(n: nat)
    ensures multiset(ProgressSoFar(n) + ProgressText(n, true))['.'] == n
    ensures var lines := multiset(ProgressSoFar(n) + ProgressText(n, true))['\n'];
            if n == 0 then lines == 0 else 40 * lines - 40 < n <= 40 * lines
  {
    var before, finish := ProgressSoFar(n), ProgressText(n, true);
    assert multiset(before + finish) == multiset(before) + multiset(finish);
    ProgressSoFarCounts(n);
    FinishCounts(n);
  }

  /** The dots and line break printed when the run finishes. */
  lemma FinishCounts(n: nat)
    ensures multiset(ProgressText(n, true))['.'] == n % 10
    ensures multiset(ProgressText(n, true))['\n'] == if n % 40 != 0 then 1 else 0
  {
    RepeatCount('.', n % 10);
  }

  /** `_display_statistics` as written: both averages are divisions of a
      `timedelta`, which raise ZeroDivisionError for a zero count. */
  function StatisticsAsWritten(elapsed: real, processedTemplates: nat, savedFiles: nat)
    : (r: Result<(real, real)>)
    ensures r.Ok? <==> processedTemplates > 0 && savedFiles > 0
  {
    if processedTemplates == 0 || savedFiles == 0 then Err(ZeroDivision)
    else Ok((elapsed / processedTemplates as real, elapsed / savedFiles as real))
  }

  /** A run that found templates which all render to blank text has saved
      no file, and the statistics it then displays divide by zero. */
  lemma BlankRunDividesByZero(elapsed: real, processedTemplates: nat)
    requires processedTemplates > 0
    ensures StatisticsAsWritten(elapsed, processedTemplates, 0) == Err(ZeroDivision)
    ensures StatisticsAsWritten(elapsed, processedTemplates, 1).Ok?
  {
  }

  /** The statistics with an average only where its count is positive. */
  function Statistics(elapsed: real, processedTemplates: nat, savedFiles: nat)
    : (r: (Option<real>, Option<real>))
    ensures r.0.Some? <==> processedTemplates > 0
    ensures r.1.Some? <==> savedFiles > 0
    ensures r.0.Some? ==> r.0.value * processedTemplates as real == elapsed
    ensures r.1.Some? ==> r.1.value * savedFiles as real == elapsed
  {
    (if processedTemplates > 0 then Some(elapsed / processedTemplates as real) else None,
     if savedFiles > 0 then Some(elapsed / savedFiles as real) else None)
  }

  /** The files the templates `items` save when each renders with the
      namespace `ns`. */
  function SavedTotal<V>(items: seq<DirWalk.Item>, render: (Path, map<string, map<string, V>>) -> string,
                         ns: map<string, map<string, V>>, s: Settings): nat
  {
    if items == [] then 0
    else
      var p := items[|items| - 1].path;
      SavedTotal(items[..|items| - 1], render, ns, s)
      + (if IsPrefix(s.templateDir, p) && s.markerNewFile != []
         then NonBlankCount(Split(render(p[|s.templateDir|..], ns), s.markerNewFile)) else 0)
  }

  /** One more template adds the files it saves. */
  lemma SavedTotalStep<V>(items: seq<DirWalk.Item>, k: nat, render: (Path, map<string, map<string, V>>) -> string,
                          ns: map<string, map<string, V>>, s: Settings, saved: nat, added: nat)
    requires k < |items|
    requires IsPrefix(s.templateDir, items[k].path) && s.markerNewFile != []
    requires added == NonBlankCount(Split(render(items[k].path[|s.templateDir|..], ns), s.markerNewFile))
    requires saved == SavedTotal(items[..k], render, ns, s)
    ensures saved + added == SavedTotal(items[..k + 1], render, ns, s)
  {
    var longer := items[..k + 1];
    assert |longer| - 1 == k;
    assert longer[..k] == items[..k];
    assert longer[k] == items[k];
  }

  /** `render_template` for the template at `p`, as far as the disk and
      the outcome go: a path outside the template directory fails first,
      then the lazy environment check (`environment`, `Ok` once it has
      passed), then an empty "new file" marker; otherwise the rendered text
      is saved by `SaveFragments`. */
  function RenderOne<V>(p: Path, render: (Path, map<string, map<string, V>>) -> string,
                        ns: map<string, map<string, V>>, s: Settings, linesep: string,
                        environment: Result<()>, disk: Disk): Saved
  {
    if !IsPrefix(s.templateDir, p) then Saved(Err(NotRelative), disk)
    else if environment.Err? then Saved(Err(environment.failure), disk)
    else if s.markerNewFile == [] then Saved(Err(EmptySeparator), disk)
    else SaveFragments(Split(render(p[|s.templateDir|..], ns), s.markerNewFile), disk, s, linesep)
  }

  /** The loop of `render_all_templates` from template `k` on: each
      template in turn, the count of files saved so far carried, and the
      first failure stopping the run with what was saved before it still
      on disk. */
  function RenderedFrom<V>(items: seq<DirWalk.Item>, k: nat,
                           render: (Path, map<string, map<string, V>>) -> string,
                           ns: map<string, map<string, V>>, s: Settings, linesep: string,
                           environment: Result<()>, disk: Disk): Saved
    decreases |items| - k
  {
    if k >= |items| then Saved(Ok(0), disk)
    else
      var one := RenderOne(items[k].path, render, ns, s, linesep, environment, disk);
      if one.result.Err? then one
      else Shifted(one.result.value, RenderedFrom(items, k + 1, render, ns, s, linesep, environment, one.disk))
  }

  /** One template of the run: the outcome of `RenderOne` moves the fold
      on by one template, adding the files it saved to the total. */
  lemma RenderStep<V>(items: seq<DirWalk.Item>, k: nat, render: (Path, map<string, map<string, V>>) -> string,
                      ns: map<string, map<string, V>>, s: Settings, linesep: string, environment: Result<()>,
                      saved: nat, goal: Saved, before: Disk, after: Disk, r: Result<RunResults>)
    requires k < |items|
    requires goal == Shifted(saved, RenderedFrom(items, k, render, ns, s, linesep, environment, before))
    requires var one := RenderOne(items[k].path, render, ns, s, linesep, environment, before);
             r == Counted(one.result) && after == one.disk
    ensures r.Err? ==> goal == Saved(Err(r.failure), after)
    ensures r.Ok? ==>
              IsPrefix(s.templateDir, items[k].path) && environment.Ok? && r.value.processedTemplates == 1
              && goal == Shifted(saved + r.value.savedFiles,
                                 RenderedFrom(items, k + 1, render, ns, s, linesep, environment, after))
  {
    var one := RenderOne(items[k].path, render, ns, s, linesep, environment, before);
    RenderedUnfold(items, k, render, ns, s, linesep, environment, before);
    if r.Ok? {
      ShiftedTwice(saved, r.value.savedFiles, RenderedFrom(items, k + 1, render, ns, s, linesep, environment, after));
    }
  }

  /** The fold takes one template at a time. */
  lemma RenderedUnfold<V>(items: seq<DirWalk.Item>, k: nat, render: (Path, map<string, map<string, V>>) -> string,
                          ns: map<string, map<string, V>>, s: Settings, linesep: string, environment: Result<()>,
                          disk: Disk)
    requires k < |items|
    ensures var one := RenderOne(items[k].path, render, ns, s, linesep, environment, disk);
            RenderedFrom(items, k, render, ns, s, linesep, environment, disk)
              == if one.result.Err? then one
                 else Shifted(one.result.value, RenderedFrom(items, k + 1, render, ns, s, linesep, environment, one.disk))
  {
  }

  /** The files the fold saves from template `k` on are what `SavedTotal`
      counts for those templates. */
  lemma {:induction false} RenderedTotal<V>(items: seq<DirWalk.Item>, k: nat,
                                            render: (Path, map<string, map<string, V>>) -> string,
                                            ns: map<string, map<string, V>>, s: Settings, linesep: string,
                                            environment: Result<()>, disk: Disk)
    requires k <= |items|
    ensures var out := RenderedFrom(items, k, render, ns, s, linesep, environment, disk);
            out.result.Ok? ==> SavedTotal(items[..k], render, ns, s) + out.result.value == SavedTotal(items, render, ns, s)
    decreases |items| - k
  {
    if k == |items| {
      assert items[..k] == items;
    } else {
      var one := RenderOne(items[k].path, render, ns, s, linesep, environment, disk);
      RenderedUnfold(items, k, render, ns, s, linesep, environment, disk);
      if one.result.Ok? {
        RenderOneCount(items[k].path, render, ns, s, linesep, environment, disk);
        SavedTotalStep(items, k, render, ns, s, SavedTotal(items[..k], render, ns, s), one.result.value);
        RenderedTotal(items, k + 1, render, ns, s, linesep, environment, one.disk);
      }
    }
  }

  /** Past the last template the fold has nothing left to save. */
  lemma RenderedDone<V>(items: seq<DirWalk.Item>, k: nat, render: (Path, map<string, map<string, V>>) -> string,
                        ns: map<string, map<string, V>>, s: Settings, linesep: string, environment: Result<()>,
                        disk: Disk)
    requires k >= |items|
    ensures RenderedFrom(items, k, render, ns, s, linesep, environment, disk) == Saved(Ok(0), disk)
  {
  }

  /** A template that renders without failure passed every check, and the
      files it saved are its non-blank fragments. */
  lemma RenderOneCount<V>(p: Path, render: (Path, map<string, map<string, V>>) -> string,
                          ns: map<string, map<string, V>>, s: Settings, linesep: string, environment: Result<()>,
                          disk: Disk)
    ensures var one := RenderOne(p, render, ns, s, linesep, environment, disk);
            one.result.Ok? ==>
              IsPrefix(s.templateDir, p) && environment.Ok? && s.markerNewFile != []
              && one.result.value == NonBlankCount(Split(render(p[|s.templateDir|..], ns), s.markerNewFile))
  {
    if IsPrefix(s.templateDir, p) && environment.Ok? && s.markerNewFile != [] {
      var fragments := Split(render(p[|s.templateDir|..], ns), s.markerNewFile);
      SavedCount(fragments, 0, disk, s, linesep);
      assert fragments[0..] == fragments;
    }
  }

  /** Rendering never removes a file or a directory, and without
      `create_directories` it creates no directory. */
  lemma {:induction false} RenderedGrows<V>(items: seq<DirWalk.Item>, k: nat,
                                            render: (Path, map<string, map<string, V>>) -> string,
                                            ns: map<string, map<string, V>>, s: Settings, linesep: string,
                                            environment: Result<()>, disk: Disk)
    ensures var out := RenderedFrom(items, k, render, ns, s, linesep, environment, disk);
            disk.files.Keys <= out.disk.files.Keys && disk.directories <= out.disk.directories
            && (!s.createDirectories ==> out.disk.directories == disk.directories)
    decreases |items| - k
  {
    if k < |items| {
      var p := items[k].path;
      var one := RenderOne(p, render, ns, s, linesep, environment, disk);
      if IsPrefix(s.templateDir, p) && environment.Ok? && s.markerNewFile != [] {
        SavedFilesPresent(Split(render(p[|s.templateDir|..], ns), s.markerNewFile), 0, disk, s, linesep);
      }
      if one.result.Ok? {
        RenderedGrows(items, k + 1, render, ns, s, linesep, environment, one.disk);
      }
    }
  }

  /** Updating a namespace with the same custom namespace twice is the
      same as once; custom names win, other names keep their values. */
  lemma NamespaceUpdate<V>(defaults: map<string, V>, custom: map<string, V>)
    ensures (defaults + custom) + custom == defaults + custom
    ensures (defaults + custom).Keys == defaults.Keys + custom.Keys
    ensures forall k :: k in custom ==> (defaults + custom)[k] == custom[k]
    ensures forall k :: k in defaults && k !in custom ==> (defaults + custom)[k] == defaults[k]
  {
  }

  // ------------------------------------------------------------------
  // The generator
  // ------------------------------------------------------------------

  class StempelWerk<V> {
    const settings: Settings
    /** The platform's line separator (`os.linesep`). */
    const linesep: string
    /** What the template loader lists, relative to the template directory. */
    const listedTemplates: seq<Path>
    /** `settings.global_namespace`, which the generator updates in place. */
    var globalNamespace: map<string, V>
    /** Whether `create_environment` has run. */
    var environmentReady: bool
    var directories: set<Path>
    var files: map<Path, string>
    /** The text of the last-run file, `None` when it cannot be read. */
    var lastRun: Option<string>

    constructor (settings: Settings, linesep: string, listedTemplates: seq<Path>,
                 globalNamespace: map<string, V>, directories: set<Path>,
                 files: map<Path, string>, lastRun: Option<string>)
      ensures this.settings == settings && this.linesep == linesep
      ensures this.listedTemplates == listedTemplates
      ensures this.globalNamespace == globalNamespace && !environmentReady
      ensures this.directories == directories && this.files == files && this.lastRun == lastRun
    {
      this.settings := settings;
      this.linesep := linesep;
      this.listedTemplates := listedTemplates;
      this.globalNamespace := globalNamespace;
      this.environmentReady := false;
      this.directories := directories;
      this.files := files;
      this.lastRun := lastRun;
    }

    function CurrentDisk(): Disk
      reads this
    {
      Disk(directories, files)
    }

    /** `_get_stencils`. */
    method GetStencils(templatePaths: seq<Path>) returns (stencilPaths: seq<Path>)
      ensures stencilPaths == Stencils(templatePaths, settings.stencilDirName)
    {
      stencilPaths := [];
      var k := 0;
      while k < |templatePaths|
        invariant 0 <= k <= |templatePaths|
        invariant stencilPaths == Stencils(templatePaths[..k], settings.stencilDirName)
      {
        assert templatePaths[..k + 1][..k] == templatePaths[..k];
        if settings.stencilDirName in templatePaths[k] {
          stencilPaths := stencilPaths + [templatePaths[k]];
        }
        k := k + 1;
      }
      assert templatePaths[..k] == templatePaths;
    }

    /** `create_environment`, apart from Jinja: check the template list
      and the stencils, then mark the environment as created. */
    method CreateEnvironment() returns (r: Result<()>)
      modifies this
      ensures r == EnvironmentCheck(listedTemplates, settings.stencilDirName)
      ensures environmentReady == (old(environmentReady) || r.Ok?)
      ensures globalNamespace == old(globalNamespace) && lastRun == old(lastRun)
      ensures CurrentDisk() == old(CurrentDisk())
    {
      var templatePaths := listedTemplates;
      if templatePaths == [] {
        return Err(NoTemplates);
      }
      var stencilPaths := GetStencils(templatePaths);
      if settings.stencilDirName != [] && stencilPaths == [] {
        return Err(NoStencils);
      }
      environmentReady := true;
      r := Ok(());
    }

    /** `_prepare_global_namespace`: the custom names are merged into the
      settings' namespace in place, overwriting. */
    method PrepareGlobalNamespace(customGlobalNamespace: map<string, V>)
      returns (ns: map<string, map<string, V>>)
      modifies this
      ensures globalNamespace == old(globalNamespace) + customGlobalNamespace
      ensures ns == map["globals" := globalNamespace]
      ensures environmentReady == old(environmentReady) && lastRun == old(lastRun)
      ensures CurrentDisk() == old(CurrentDisk())
    {
      if |customGlobalNamespace| > 0 {
        globalNamespace := globalNamespace + customGlobalNamespace;
      } else {
        assert globalNamespace + customGlobalNamespace == globalNamespace;
      }
      ns := map["globals" := globalNamespace];
    }

    /** `_create_output_directory` for the file at `outputFilePath`. */
    method CreateOutputDirectory(outputFilePath: Path) returns (r: Result<()>)
      modifies this`directories
      ensures var parent := Parent(outputFilePath);
              if parent in old(directories) then r.Ok? && directories == old(directories)
              else if settings.createDirectories
              then r.Ok? && directories == old(directories) + Ancestors(parent)
              else r == Err(MissingDirectory(parent)) && directories == old(directories)
    {
      var outputDirectory := Parent(outputFilePath);
      if outputDirectory in directories {
        return Ok(());
      }
      if settings.createDirectories {
        directories := directories + Ancestors(outputDirectory);
        r := Ok(());
      } else {
        r := Err(MissingDirectory(outputDirectory));
      }
    }

    /** `_save_single_file`. */
    method SaveSingleFile(rawContent: string) returns (r: Result<nat>)
      modifies this`directories, this`files
      ensures Saved(r, CurrentDisk()) == SaveSingle(rawContent, old(CurrentDisk()), settings, linesep)
    {
      var processed := ProcessRawContent(rawContent, settings.markerNewFile, settings.markerContent);
      if processed.Err? {
        return Err(processed.failure);
      }
      var outputFilePath := FinalizePath(settings.outputDir, processed.value.0);
      r := WriteOutputFile(outputFilePath, processed.value.1);
    }

    /** The rest of `_save_single_file`: make sure the directory exists,
      pick the newline convention by suffix, write. */
    method WriteOutputFile(outputFilePath: Path, processedContent: string) returns (r: Result<nat>)
      modifies this`directories, this`files
      ensures Saved(r, CurrentDisk())
              == WriteOutput(outputFilePath, processedContent, old(CurrentDisk()), settings, linesep)
    {
      var created := CreateOutputDirectory(outputFilePath);
      if created.Err? {
        return Err(created.failure);
      }
      if outputFilePath in directories {
        return Err(IsADirectory(outputFilePath));
      }
      var newline := NewlineFor(Suffix(outputFilePath), settings.newline);
      files := files[outputFilePath := ""];
      var text := Translate(processedContent, newline, linesep);
      if text.Err? {
        return Err(text.failure);
      }
      files := files[outputFilePath := text.value];
      r := Ok(1);
    }

    /** `_save_content`: split the rendered text at the "new file" marker
      and save every non-blank fragment, in order. */
    method SaveContent(rawContent: string) returns (r: Result<RunResults>)
      modifies this`directories, this`files
      ensures settings.markerNewFile == [] ==>
                r == Err(EmptySeparator) && CurrentDisk() == old(CurrentDisk())
      ensures settings.markerNewFile != [] ==>
                var out := SaveFragments(Split(rawContent, settings.markerNewFile),
                                         old(CurrentDisk()), settings, linesep);
                CurrentDisk() == out.disk && r == Counted(out.result)
    {
      if settings.markerNewFile == [] {
        return Err(EmptySeparator);
      }
      var splitContents := Split(rawContent, settings.markerNewFile);
      var savedFiles := SaveFragmentFiles(splitContents);
      r := if savedFiles.Ok? then Ok(RunResults(1, savedFiles.value)) else Err(savedFiles.failure);
    }

    /** The loop of `_save_content` over the fragments. */
    method SaveFragmentFiles(splitContents: seq<string>) returns (r: Result<nat>)
      modifies this`directories, this`files
      ensures Saved(r, CurrentDisk()) == SaveFragments(splitContents, old(CurrentDisk()), settings, linesep)
    {
      ghost var goal := SaveFrom(splitContents, 0, CurrentDisk(), settings, linesep);
      var savedFiles: nat := 0;
      var n := 0;
      while n < |splitContents|
        invariant 0 <= n <= |splitContents|
        invariant goal == Shifted(savedFiles, SaveFrom(splitContents, n, CurrentDisk(), settings, linesep))
      {
        var step := SaveFragmentAt(splitContents, n, savedFiles, goal);
        if step.Err? {
          r := step;
          return;
        }
        savedFiles := step.value;
        n := n + 1;
      }
      LoopDone(splitContents, n, savedFiles, goal, CurrentDisk(), settings, linesep);
      r := Ok(savedFiles);
    }

    /** One pass of the loop in `_save_fragment_files`: a blank fragment
      is skipped, any other is saved and its count added to `savedFiles`. */
    method SaveFragmentAt(splitContents: seq<string>, n: nat, savedFiles: nat, ghost goal: Saved)
      returns (r: Result<nat>)
      requires n < |splitContents|
      requires goal == Shifted(savedFiles, SaveFrom(splitContents, n, CurrentDisk(), settings, linesep))
      modifies this`directories, this`files
      ensures r.Err? ==> goal == Saved(r, CurrentDisk())
      ensures r.Ok? ==> goal == Shifted(r.value, SaveFrom(splitContents, n + 1, CurrentDisk(), settings, linesep))
    {
      var fragment := splitContents[n];
      if Strip(fragment) == [] {
        return Ok(savedFiles);
      }
      ghost var before := CurrentDisk();
      var one := SaveSingleFile(fragment);
      LoopSave(splitContents, n, savedFiles, goal, before, one, CurrentDisk(), settings, linesep);
      if one.Err? {
        return one;
      }
      r := Ok(savedFiles + one.value);
    }

    /** `render_template`: the path relative to the template directory,
      the updated global namespace, the environment created on first use,
      then the rendered text saved. */
    method RenderTemplate(templatePath: Path, customGlobalNamespace: map<string, V>,
                          render: (Path, map<string, map<string, V>>) -> string)
      returns (r: Result<RunResults>)
      modifies this
      ensures !IsPrefix(settings.templateDir, templatePath) ==> r == Err(NotRelative) && unchanged(this)
      ensures IsPrefix(settings.templateDir, templatePath) ==>
                globalNamespace == old(globalNamespace) + customGlobalNamespace
      ensures var one := RenderOne(templatePath, render,
                                   map["globals" := old(globalNamespace) + customGlobalNamespace],
                                   settings, linesep, old(EnvironmentGate()), old(CurrentDisk()));
              r == Counted(one.result) && CurrentDisk() == one.disk
      ensures r.Ok? ==> settings.markerNewFile != [] && r.value.processedTemplates == 1
      ensures r.Ok? && settings.markerNewFile != [] ==>
                var rendered := render(templatePath[|settings.templateDir|..],
                                       map["globals" := globalNamespace]);
                r.value.savedFiles == NonBlankCount(Split(rendered, settings.markerNewFile))
      ensures lastRun == old(lastRun)
      ensures environmentReady == (old(environmentReady)
                || (IsPrefix(settings.templateDir, templatePath)
                    && EnvironmentCheck(listedTemplates, settings.stencilDirName).Ok?))
    {
      if !IsPrefix(settings.templateDir, templatePath) {
        return Err(NotRelative);
      }
      var relativeTemplatePath := templatePath[|settings.templateDir|..];
      var globalNamespace := PrepareGlobalNamespace(customGlobalNamespace);
      if !environmentReady {
        var created := CreateEnvironment();
        if created.Err? {
          return Err(created.failure);
        }
      }
      var rawContentOfMultipleFiles := render(relativeTemplatePath, globalNamespace);
      r := SaveContent(rawContentOfMultipleFiles);
      if settings.markerNewFile != [] {
        var fragments := Split(rawContentOfMultipleFiles, settings.markerNewFile);
        SavedCount(fragments, 0, old(CurrentDisk()), settings, linesep);
        assert fragments[0..] == fragments;
      }
    }

    /** `_store_last_run`: the start time, rounded down to whole seconds. */
    method StoreLastRun(lastRunTime: real)
      modifies this
      ensures lastRun == Some(IntToString(lastRunTime.Floor))
      ensures globalNamespace == old(globalNamespace) && CurrentDisk() == old(CurrentDisk())
      ensures environmentReady == old(environmentReady)
    {
      lastRun := Some(IntToString(lastRunTime.Floor));
    }

    /** `_find_templates`. */
    method FindTemplates(processOnlyModified: bool, tree: DirWalk.Entry)
      returns (r: DirWalk.Outcome<seq<DirWalk.Item>>)
      ensures r == FoundTemplates(settings, lastRun, processOnlyModified, tree)
    {
      var dirwalkInclusions := TemplateInclusions(settings);
      var modifiedAfter := DirWalk.NotGiven;
      if processOnlyModified {
        var text := LastRunText(lastRun);
        if text.Some? {
          modifiedAfter := DirWalk.Text(text.value);
        }
      }
      r := DirWalk.Dirwalk(settings.templateDir, tree, true, false, false,
                           Some(dirwalkInclusions), modifiedAfter);
    }

    /** `render_all_templates`: render every template found, add up the
      counts, and store the start time when templates were found. */
    method RenderAll(processOnlyModified: bool, customGlobalNamespace: map<string, V>,
                     render: (Path, map<string, map<string, V>>) -> string,
                     tree: DirWalk.Entry, startOfProcessing: real)
      returns (r: Result<RunResults>)
      modifies this
      ensures var found := FoundTemplates(settings, old(lastRun), processOnlyModified, tree);
              (found == DirWalk.ValueError ==> r == Err(BadLastRun))
              && (found == DirWalk.OSError ==> r == Err(NoTemplateDirectory))
              && (r.Err? ==> lastRun == old(lastRun))
              && (r.Ok? ==>
                    found.Ok?
                    && r.value.processedTemplates == |found.value|
                    && r.value.savedFiles
                       == SavedTotal(found.value, render,
                                     map["globals" := old(globalNamespace) + customGlobalNamespace],
                                     settings)
                    && lastRun == (if found.value != [] then Some(IntToString(startOfProcessing.Floor))
                                   else old(lastRun))
                    && globalNamespace == (if found.value != []
                                           then old(globalNamespace) + customGlobalNamespace
                                           else old(globalNamespace)))
      ensures var found := FoundTemplates(settings, old(lastRun), processOnlyModified, tree);
              !found.Ok? ==> unchanged(this)
      ensures var found := FoundTemplates(settings, old(lastRun), processOnlyModified, tree);
              found.Ok? ==>
                var out := RenderedFrom(found.value, 0, render,
                                        map["globals" := old(globalNamespace) + customGlobalNamespace],
                                        settings, linesep, old(EnvironmentGate()), old(CurrentDisk()));
                CurrentDisk() == out.disk
                && (r.Ok? ==> out.result == Ok(r.value.savedFiles))
                && (r.Err? ==> out.result == Err(r.failure))
                && globalNamespace == (if found.value != [] && IsPrefix(settings.templateDir, found.value[0].path)
                                       then old(globalNamespace) + customGlobalNamespace
                                       else old(globalNamespace))
                && environmentReady == (old(environmentReady)
                     || (found.value != [] && IsPrefix(settings.templateDir, found.value[0].path)
                         && EnvironmentCheck(listedTemplates, settings.stencilDirName).Ok?))
    {
      var templateFilenames := FindTemplates(processOnlyModified, tree);
      if templateFilenames == DirWalk.ValueError {
        return Err(BadLastRun);
      }
      if !templateFilenames.Ok? {
        return Err(NoTemplateDirectory);
      }
      var items := templateFilenames.value;
      r := RenderEach(items, customGlobalNamespace, render);
      if r.Err? {
        return;
      }
      if items != [] {
        StoreLastRun(startOfProcessing);
      }
    }

    /** The environment check as the next template sees it: passed once
      the environment is ready, otherwise still to be made. */
    function EnvironmentGate(): Result<()>
      reads this
    {
      if environmentReady then Ok(()) else EnvironmentCheck(listedTemplates, settings.stencilDirName)
    }

    /** The loop of `render_all_templates`: every template rendered in
      turn with the same custom namespace, the counts summed, the first
      failure passed on with the files saved before it left on disk. */
    method RenderEach(items: seq<DirWalk.Item>, customGlobalNamespace: map<string, V>,
                      render: (Path, map<string, map<string, V>>) -> string)
      returns (r: Result<RunResults>)
      modifies this
      ensures r.Ok? ==> r.value.processedTemplates == |items|
      ensures r.Ok? ==> r.value.savedFiles
                        == SavedTotal(items, render, map["globals" := old(globalNamespace) + customGlobalNamespace],
                                      settings)
      ensures r.Ok? ==> globalNamespace == (if items != [] then old(globalNamespace) + customGlobalNamespace
                                            else old(globalNamespace))
      ensures globalNamespace == (if items != [] && IsPrefix(settings.templateDir, items[0].path)
                                  then old(globalNamespace) + customGlobalNamespace
                                  else old(globalNamespace))
      ensures lastRun == old(lastRun)
      ensures var out := RenderedFrom(items, 0, render,
                                      map["globals" := old(globalNamespace) + customGlobalNamespace],
                                      settings, linesep, old(EnvironmentGate()), old(CurrentDisk()));
              CurrentDisk() == out.disk
              && (r.Ok? ==> out.result == Ok(r.value.savedFiles))
              && (r.Err? ==> out.result == Err(r.failure))
      ensures environmentReady == (old(environmentReady)
                || (items != [] && IsPrefix(settings.templateDir, items[0].path)
                    && EnvironmentCheck(listedTemplates, settings.stencilDirName).Ok?))
    {
      ghost var defaults := globalNamespace;
      ghost var ns := map["globals" := defaults + customGlobalNamespace];
      ghost var wasReady := environmentReady;
      ghost var gate := EnvironmentGate();
      ghost var goal := RenderedFrom(items, 0, render, ns, settings, linesep, gate, CurrentDisk());
      var processedTemplates: nat := 0;
      var savedFiles: nat := 0;
      var k := 0;
      while k < |items|
        invariant 0 <= k <= |items|
        invariant processedTemplates == k
        invariant globalNamespace == if k == 0 then defaults else defaults + customGlobalNamespace
        invariant lastRun == old(lastRun)
        invariant goal == Shifted(savedFiles, RenderedFrom(items, k, render, ns, settings, linesep, gate, CurrentDisk()))
        invariant k == 0 ==> environmentReady == wasReady
        invariant k > 0 ==> environmentReady && gate.Ok? && IsPrefix(settings.templateDir, items[0].path)
      {
        var runResults, savedSoFar := RenderAt(items, k, customGlobalNamespace, render, savedFiles,
                                               defaults, ns, gate, goal);
        if runResults.Err? {
          return Err(runResults.failure);
        }
        processedTemplates := processedTemplates + runResults.value.processedTemplates;
        savedFiles := savedSoFar;
        k := k + 1;
      }
      RenderedDone(items, k, render, ns, settings, linesep, gate, CurrentDisk());
      RenderedTotal(items, 0, render, ns, settings, linesep, gate, old(CurrentDisk()));
      r := Ok(RunResults(processedTemplates, savedFiles));
    }

    /** One pass of the loop in `render_all_templates`: template `k` is
      rendered and saved, its count is added, and the run so far stays on
      course for `goal`. */
    method RenderAt(items: seq<DirWalk.Item>, k: nat, customGlobalNamespace: map<string, V>,
                    render: (Path, map<string, map<string, V>>) -> string, savedFiles: nat,
                    ghost defaults: map<string, V>, ghost ns: map<string, map<string, V>>,
                    ghost gate: Result<()>, ghost goal: Saved)
      returns (r: Result<RunResults>, savedSoFar: nat)
      requires k < |items|
      requires ns == map["globals" := defaults + customGlobalNamespace]
      requires globalNamespace == if k == 0 then defaults else defaults + customGlobalNamespace
      requires gate == EnvironmentGate()
      requires goal == Shifted(savedFiles, RenderedFrom(items, k, render, ns, settings, linesep, gate, CurrentDisk()))
      modifies this
      ensures lastRun == old(lastRun)
      ensures globalNamespace == (if IsPrefix(settings.templateDir, items[k].path)
                                  then defaults + customGlobalNamespace
                                  else old(globalNamespace))
      ensures environmentReady == (old(environmentReady)
                || (IsPrefix(settings.templateDir, items[k].path)
                    && EnvironmentCheck(listedTemplates, settings.stencilDirName).Ok?))
      ensures r.Err? ==> goal == Saved(Err(r.failure), CurrentDisk())
      ensures r.Ok? ==>
                IsPrefix(settings.templateDir, items[k].path) && gate.Ok? && environmentReady
                && r.value.processedTemplates == 1
                && globalNamespace == defaults + customGlobalNamespace
                && savedSoFar == savedFiles + r.value.savedFiles
                && goal == Shifted(savedSoFar, RenderedFrom(items, k + 1, render, ns, settings, linesep, gate, CurrentDisk()))
    {
      NamespaceUpdate(defaults, customGlobalNamespace);
      assert globalNamespace + customGlobalNamespace == defaults + customGlobalNamespace;
      ghost var before := CurrentDisk();
      savedSoFar := savedFiles;
      r := RenderTemplate(items[k].path, customGlobalNamespace, render);
      RenderStep(items, k, render, ns, settings, linesep, gate, savedFiles, goal, before, CurrentDisk(), r);
      if r.Ok? {
        savedSoFar := savedFiles + r.value.savedFiles;
      }
    }
  }
}
