# Squeezer core, modelled in Dafny

This project models the sequential, integer- and string-level core of the
Squeezer audio plug-in repository and its StempelWerk code generator:

- **StempelWerk** (`stempel_werk.dfy`) renders every template it finds in the
  template directory and splits each rendered text into output files. It cuts
  the text at the "new file" marker and skips blank fragments. Each remaining
  fragment must hold no "new file" marker and exactly one "content" marker.
  Text before that marker is the file name and text after it is the content.
  The newline convention comes from the output file's suffix. The generator
  adds up the per-template counts, and after a run that found templates it
  stores the run's start time, rounded down to whole seconds. Jinja rendering
  is a function parameter. The disk is a value: a set of directories and a map
  from file path to text.
- **DirWalk** (`dir_walk.dfy`) is the recursive walk that finds templates. It
  filters by excluded names, glob patterns and a modification-time cutoff, and
  sorts each level by name. Each level's files are listed before or after its
  subdirectories' listings. The file system is an `Entry` tree value.
- **PyText** (`py_text.dfy`) holds the Python `str`/`int` behaviour both Python
  files depend on: `strip`, `find`, `count`, `split`, string ordering, and
  `str`/`int` of whole numbers.
- **BufferPosition** (`buffer_position.dfy`) is the read/write index
  bookkeeping of the frut ring buffer. It splits every access into two blocks
  where the access wraps around the end of the buffer.
- **RingBuffer** (`ring_buffer.dfy`) is the common multi-channel ring buffer:
  - a chunked `addSamples` loop that fires the callback once per filled chunk;
  - wrapped reads (`getSample`, `getSamples`);
  - the peak magnitude over the buffered window.
- **Orientation** (`orientation.dfy`) is a widget orientation: one angle,
  reduced with C++'s truncating `%`, and classified into four named directions.
- **Juggler** (`juggler.dfy`) is the parameter registry. It keeps a parallel
  list of "may modify" flags, and XML load and store touch only writable
  parameters. A combined parameter's read-only mode switch is an alias of
  the parameter's own mode, so changing one changes the other.
- **Arith** (`arith.dfy`) holds the Euclidean remainder facts the buffer
  models share.

Each C++ `jassert` is a debug-only check that the caller must satisfy, so the
model states it as a `requires`. JUCE's `negativeAwareModulo` with a positive
modulus is Dafny's `%`, and C++ `%` on a negative `int` is written out
explicitly (`Orientation.CppRem360`). Samples are `real`, and parameters and
XML entries are generic types with their behaviour passed in as functions.

## Model

| member | source | states |
|---|---|---|
| `StempelWerk.ProcessRawContent` | Source/frut/templates/stempelwerk/src/StempelWerk.py:646-666 | A fragment is accepted iff it holds no "new file" marker, exactly one "content" marker, and that marker is not empty. Every refusal is the splitting error, except an empty content marker on empty text, which makes `split` raise. |
| `StempelWerk.FileTextRoundTrip` | Source/frut/templates/stempelwerk/src/StempelWerk.py:660-666 | A fragment written as name, marker, content reads back as exactly that name and content. This needs a name with no surrounding whitespace and content with no leading whitespace. |
| `PyText.StripEmptyIffAllSpace` | Source/frut/templates/stempelwerk/src/StempelWerk.py:609-610 | A fragment is skipped as blank exactly when every character is whitespace. |
| `PyText.StripShape` | Source/frut/templates/stempelwerk/src/StempelWerk.py:663 | The stripped file name never grows and has no whitespace at either end. |
| `PyText.LStripShape` | Source/frut/templates/stempelwerk/src/StempelWerk.py:664 | The left-stripped content is a suffix of the text. Only whitespace is removed, and no whitespace is left at the front. |
| `PyText.Find` | Source/frut/templates/stempelwerk/src/StempelWerk.py:660-661 | The first index at which the marker occurs, or -1 when it never occurs. |
| `PyText.SplitJoin` | Source/frut/templates/stempelwerk/src/StempelWerk.py:600-601 | Joining the fragments with the marker gives the rendered text back, so splitting loses nothing. |
| `PyText.SplitCount` | Source/frut/templates/stempelwerk/src/StempelWerk.py:600-601 | There is one fragment more than there are "new file" markers. |
| `PyText.SplitPiecesFree` | Source/frut/templates/stempelwerk/src/StempelWerk.py:647-651 | No fragment contains the separator, so the marker-count check never fires on the "new file" marker for split fragments. |
| `PyText.SplitOnceOccurrence` | Source/frut/templates/stempelwerk/src/StempelWerk.py:660-661 | With exactly one occurrence, the split gives the text before the first marker and the text after it. |
| `PyText.IntRoundTrip` | Source/frut/templates/stempelwerk/src/StempelWerk.py:746-749 | The time stamp written with `str` is read back by `int` as the same integer. |
| `PyText.NatToStringValue` | Source/frut/templates/stempelwerk/src/StempelWerk.py:746-749 | The decimal digits `str` writes for a whole number have that number as their value. |
| `PyText.ParseUnsigned` | Source/frut/templates/stempelwerk/src/DirWalk/DirWalk.py:103-105 | `int()` reads a string of decimal digits as its value. |
| `PyText.ParseSigned` | Source/frut/templates/stempelwerk/src/DirWalk/DirWalk.py:103-105 | `int()` reads a minus sign and digits as the negated value. |
| `PyText.ParseUnpadded` | Source/frut/templates/stempelwerk/src/DirWalk/DirWalk.py:103-105 | Text without surrounding whitespace is parsed as it stands. |
| `PyText.StripUnchanged` | Source/frut/templates/stempelwerk/src/StempelWerk.py:737 | Stripping text without surrounding whitespace returns it unchanged. |
| `PyText.RStripShape` | Source/frut/templates/stempelwerk/src/StempelWerk.py:737 | The right-stripped text is a prefix. Only whitespace is removed, and no whitespace is left at the end. |
| `PyText.StrLessAsymmetric` | Source/frut/templates/stempelwerk/src/DirWalk/DirWalk.py:119-121 | String order is asymmetric: no two names are each less than the other. |
| `PyText.StrLessTransitive` | Source/frut/templates/stempelwerk/src/DirWalk/DirWalk.py:119-121 | String order is transitive. |
| `PyText.StrLessTotal` | Source/frut/templates/stempelwerk/src/DirWalk/DirWalk.py:119-121 | Any two different names are ordered one way or the other. |
| `PyText.NatToString` | Source/frut/templates/stempelwerk/src/StempelWerk.py:746-749 | `str` of a whole number is a non-empty run of decimal digits. |
| `PyText.IntToString` | Source/frut/templates/stempelwerk/src/StempelWerk.py:746-749 | `str` of an integer is non-empty and has no surrounding whitespace. |
| `StempelWerk.Translate` | Source/frut/templates/stempelwerk/src/StempelWerk.py:640-641 | Writing fails iff the newline setting is not one of None, "", "\n", "\r" or "\r\n". With "" or "\n" the text is written unchanged. |
| `StempelWerk.ReplaceLineFeeds` | Source/frut/templates/stempelwerk/src/StempelWerk.py:640-641 | Translating to "\n" changes nothing, and text without a line feed is left as it is. |
| `StempelWerk.CrLfTranslation` | Source/frut/templates/stempelwerk/src/StempelWerk.py:640-641 | Text written with "\r\n" has no line feed that is not preceded by a carriage return. |
| `StempelWerk.ScriptNewlines` | Source/frut/templates/stempelwerk/src/StempelWerk.py:636-641 | For any default and any platform, a `.bat`/`.ps1` file has no bare line feed and a `.sh` file is written exactly as rendered. |
| `StempelWerk.FinalizePath` | Source/frut/templates/stempelwerk/src/StempelWerk.py:160-166 | A stripped relative name is placed under the given root directory. |
| `StempelWerk.Components` | Source/frut/templates/stempelwerk/src/StempelWerk.py:163-164 | Joining a name onto a path keeps only non-empty components other than ".", each taken from the name. |
| `StempelWerk.Suffix` | Source/frut/templates/stempelwerk/src/StempelWerk.py:636 | The suffix is empty, or it is a dot-led ending of the name that contains no further dot and is shorter than the name. |
| `StempelWerk.SuffixOfName` | Source/frut/templates/stempelwerk/src/StempelWerk.py:636-637 | A file called `stem.ext` has the suffix `.ext`, whatever dots the stem holds. |
| `StempelWerk.RFind` | Source/frut/templates/stempelwerk/src/StempelWerk.py:636 | The last index of a character, or -1: the character is there, and it does not occur after that index. |
| `StempelWerk.Ancestors` | Source/frut/templates/stempelwerk/src/StempelWerk.py:676-677 | The directories `mkdir(parents=True)` ensures: exactly the prefixes of the path, from the root to the directory itself. |
| `StempelWerk.SaveSingleOne` | Source/frut/templates/stempelwerk/src/StempelWerk.py:623-643 | A single-file save that succeeds counts exactly one file. |
| `StempelWerk.WriteOutputOne` | Source/frut/templates/stempelwerk/src/StempelWerk.py:630-643 | A write that succeeds counts exactly one file. |
| `StempelWerk.WriteOutputGrows` | Source/frut/templates/stempelwerk/src/StempelWerk.py:630-643 | Writing keeps every file and directory, and creates none without `create_directories`. On success, the file and its directory exist. |
| `StempelWerk.WriteOutputFailures` | Source/frut/templates/stempelwerk/src/StempelWerk.py:630-643 | Once the directory exists, an existing directory at the path fails first and leaves the files alone. Otherwise the write fails iff the newline setting is illegal, and then `open` has already left an empty file at the path. |
| `StempelWerk.SaveSingleGrows` | Source/frut/templates/stempelwerk/src/StempelWerk.py:623-643 | Saving keeps every file and directory. Without `create_directories` it creates no directory. On success, the output file and its directory exist. |
| `StempelWerk.SavedCount` | Source/frut/templates/stempelwerk/src/StempelWerk.py:598-620 | A successful save writes exactly one file per non-blank fragment. |
| `StempelWerk.NonBlankCountFront` | Source/frut/templates/stempelwerk/src/StempelWerk.py:606-612 | The non-blank fragments are counted front to back: the first counts iff it is not blank, then the rest. |
| `StempelWerk.ShiftedTwice` | Source/frut/templates/stempelwerk/src/StempelWerk.py:606-612 | Adding counts of consecutive saves in two steps is the same as adding their sum. |
| `StempelWerk.SavedFilesPresent` | Source/frut/templates/stempelwerk/src/StempelWerk.py:598-620 | The fragment loop never removes a file or directory. On success, the file of every non-blank fragment is on disk. |
| `StempelWerk.Stencils` | Source/frut/templates/stempelwerk/src/StempelWerk.py:425-432 | A path is a stencil iff it is a template and the stencil directory name is one of its components. |
| `StempelWerk.EnvironmentCheckIff` | Source/frut/templates/stempelwerk/src/StempelWerk.py:417-444 | "No stencils" is raised iff there are templates, a stencil directory is named, and no template passes through it. With no stencil name, any non-empty template list is accepted. |
| `StempelWerk.LastRunText` | Source/frut/templates/stempelwerk/src/StempelWerk.py:735-737 | The last-run text is present iff the file was readable, and it carries no surrounding whitespace. |
| `StempelWerk.FoundTemplatesSound` | Source/frut/templates/stempelwerk/src/StempelWerk.py:778-801 | Every template found is a file below the template directory and lies in no stencil directory. |
| `StempelWerk.NextRunCutoff` | Source/frut/templates/stempelwerk/src/StempelWerk.py:788-799 | After a run stored its start time, the next only-modified run walks with the floored start time as cutoff. |
| `StempelWerk.ProgressTextCounts` | Source/frut/templates/stempelwerk/src/StempelWerk.py:729-732 | After the n-th template, ten dots are printed when 10 divides n, and a line break when 40 divides n. |
| `StempelWerk.RepeatCount` | Source/frut/templates/stempelwerk/src/StempelWerk.py:724-725 | A run of n copies of a character holds that character n times and nothing else. |
| `StempelWerk.ProgressSoFar` | Source/frut/templates/stempelwerk/src/StempelWerk.py:721-732 | While templates are processed, ten dots are printed per complete group of ten templates and one line break per complete group of forty. |
| `StempelWerk.CompleteGroupsValue` | Source/frut/templates/stempelwerk/src/StempelWerk.py:729-732 | The complete groups of g among n templates hold n − n mod g templates. |
| `StempelWerk.ProgressSoFarCounts` | Source/frut/templates/stempelwerk/src/StempelWerk.py:721-732 | After n templates, n − n mod 10 dots and ⌊n/40⌋ line breaks have been printed. |
| `StempelWerk.FinishCounts` | Source/frut/templates/stempelwerk/src/StempelWerk.py:722-728 | Finishing prints the remaining n mod 10 dots, and a line break unless 40 divides n. |
| `StempelWerk.ProgressTotals` | Source/frut/templates/stempelwerk/src/StempelWerk.py:721-732 | In total there is one dot per template, on ⌈n/40⌉ lines. |
| `StempelWerk.StatisticsAsWritten` | Source/frut/templates/stempelwerk/src/StempelWerk.py:752-757 | The averages can be computed iff both the template count and the file count are positive. |
| `StempelWerk.BlankRunDividesByZero` | Source/frut/templates/stempelwerk/src/StempelWerk.py:756-757 | A run that processed templates but saved no file divides by zero. |
| `StempelWerk.Statistics` | Source/frut/templates/stempelwerk/src/StempelWerk.py:752-757 | Each average is present iff its count is positive, and then it times the count equals the elapsed time. |
| `StempelWerk.NamespaceUpdate` | Source/frut/templates/stempelwerk/src/StempelWerk.py:536-550 | Custom names win, other names keep their values, the keys are the union, and updating twice is the same as once. |
| `StempelWerk.SavedTotalStep` | Source/frut/templates/stempelwerk/src/StempelWerk.py:697-706 | Adding the next template's non-blank fragments to the total so far gives the total over one more template. |
| `StempelWerk.RenderStep` | Source/frut/templates/stempelwerk/src/StempelWerk.py:697-703 | One template moves the fold on: a failure is the fold's final outcome, and a success passed the path and environment checks and adds its files to the total. |
| `StempelWerk.RenderOneCount` | Source/frut/templates/stempelwerk/src/StempelWerk.py:516-533 | A template that renders without failure passed all three checks, and its count is the number of its non-blank fragments. |
| `StempelWerk.RenderedTotal` | Source/frut/templates/stempelwerk/src/StempelWerk.py:697-706 | When the rest of the run succeeds, its files plus those counted before make the total over all templates. |
| `StempelWerk.RenderedGrows` | Source/frut/templates/stempelwerk/src/StempelWerk.py:697-703 | A run, even one that fails, keeps every file and directory, and creates no directory without `create_directories`. |
| `StempelWerk.StempelWerk.constructor` | Source/frut/templates/stempelwerk/src/StempelWerk.py:360-373 | The generator starts with the given settings and state, and no environment yet. |
| `StempelWerk.StempelWerk.GetStencils` | Source/frut/templates/stempelwerk/src/StempelWerk.py:425-432 | The loop collects exactly `Stencils`, in order. |
| `StempelWerk.StempelWerk.CreateEnvironment` | Source/frut/templates/stempelwerk/src/StempelWerk.py:376-404 | The template and stencil checks decide the result, and only success marks the environment as created. |
| `StempelWerk.StempelWerk.PrepareGlobalNamespace` | Source/frut/templates/stempelwerk/src/StempelWerk.py:536-550 | The settings' namespace is updated in place with the custom names, and it is exposed only under "globals". |
| `StempelWerk.StempelWerk.CreateOutputDirectory` | Source/frut/templates/stempelwerk/src/StempelWerk.py:669-685 | An existing parent is fine. A missing one is created with its ancestors when allowed, and is an error otherwise. |
| `StempelWerk.StempelWerk.SaveSingleFile` | Source/frut/templates/stempelwerk/src/StempelWerk.py:623-643 | Result and new disk are those of the `SaveSingle` specification, including the empty file a rejected newline setting leaves behind. |
| `StempelWerk.StempelWerk.WriteOutputFile` | Source/frut/templates/stempelwerk/src/StempelWerk.py:630-643 | Result and new disk are those of the `WriteOutput` specification: a directory at the path fails, the file is truncated before the newline setting is checked, and then the translated text is written. |
| `StempelWerk.StempelWerk.SaveContent` | Source/frut/templates/stempelwerk/src/StempelWerk.py:598-620 | An empty "new file" marker fails and changes nothing. Otherwise the disk and counts are those of saving every fragment, with one template processed. |
| `StempelWerk.StempelWerk.SaveFragmentFiles` | Source/frut/templates/stempelwerk/src/StempelWerk.py:606-612 | The loop matches `SaveFragments`: blank fragments are skipped, and the first failure stops it. |
| `StempelWerk.StempelWerk.SaveFragmentAt` | Source/frut/templates/stempelwerk/src/StempelWerk.py:606-612 | One iteration: a blank fragment adds nothing; otherwise the fragment is saved, its count is added, and a failure ends the loop with the outcome `SaveFragments` gives. |
| `StempelWerk.StempelWerk.RenderTemplate` | Source/frut/templates/stempelwerk/src/StempelWerk.py:516-533 | Result and new disk are those of `RenderOne`: a template outside the template directory fails, then the environment check on first use, then an empty marker; otherwise the non-blank fragments are saved with processed_templates = 1. The namespace is merged, and the environment is ready afterwards iff it was or the check ran and passed. |
| `StempelWerk.StempelWerk.StoreLastRun` | Source/frut/templates/stempelwerk/src/StempelWerk.py:740-749 | The last-run file holds `str` of the floored start time. |
| `StempelWerk.StempelWerk.FindTemplates` | Source/frut/templates/stempelwerk/src/StempelWerk.py:778-801 | The walk excludes the stencil directory. Its cutoff is the last-run text only in only-modified mode and when the file was readable. |
| `StempelWerk.StempelWerk.RenderAll` | Source/frut/templates/stempelwerk/src/StempelWerk.py:688-718 | With templates found, the new disk and the result are the `RenderedFrom` fold over them, with files saved before a failure kept. Totals are the sums over the templates. The namespace is merged iff the first template lies in the template directory, also on failure. The last run is stored iff templates were found, and a failed search changes nothing. |
| `StempelWerk.StempelWerk.RenderEach` | Source/frut/templates/stempelwerk/src/StempelWerk.py:697-703 | The new disk and the outcome are the `RenderedFrom` fold: the first failure is returned with every earlier file left on disk. On success, processed = number of templates and saved = sum of their non-blank fragments. Whatever the outcome, the namespace is merged iff the first template lies in the template directory. |
| `StempelWerk.StempelWerk.RenderAt` | Source/frut/templates/stempelwerk/src/StempelWerk.py:697-703 | One pass of the loop: a failure ends the fold with the disk as it now is. Success means the template passed the checks and counts as one, and its files are added to the running total. |
| `DirWalk.CeilSeconds` | Source/frut/templates/stempelwerk/src/DirWalk/DirWalk.py:86-92 | The modification time rounded up to whole seconds. |
| `DirWalk.LiteralMatch` | Source/frut/templates/stempelwerk/src/DirWalk/DirWalk.py:72-76 | A pattern without wildcards matches exactly itself. |
| `DirWalk.StarSuffixMatch` | Source/frut/templates/stempelwerk/src/DirWalk/DirWalk.py:72-76 | `*.ext` matches exactly the names that end in `.ext`. |
| `DirWalk.CutoffRule` | Source/frut/templates/stempelwerk/src/DirWalk/DirWalk.py:78-94 | With a cutoff, a file that passes the name tests is included iff its time in nanoseconds exceeds (cutoff − 1)·10⁹, that is iff ⌈mtime⌉ ≥ cutoff. |
| `DirWalk.DirectoryIsNoFile` | Source/frut/templates/stempelwerk/src/DirWalk/DirWalk.py:157-164 | No entry is both a directory and a file. |
| `DirWalk.Truncate` | Source/frut/templates/stempelwerk/src/DirWalk/DirWalk.py:103-105 | `int()` on a number truncates toward zero. |
| `DirWalk.PrepareCutoff` | Source/frut/templates/stempelwerk/src/DirWalk/DirWalk.py:97-107 | A falsy cutoff (none, 0.0 or empty text) means 0. A number is truncated toward zero and text is parsed as a whole number. Preparation fails iff the cutoff is non-empty text that is not a whole number. |
| `DirWalk.PrepareCutoffIdempotent` | Source/frut/templates/stempelwerk/src/DirWalk/DirWalk.py:103-105 | Re-preparing a prepared cutoff changes nothing, so every level sees the same cutoff. |
| `DirWalk.RepreparedNumber` | Source/frut/templates/stempelwerk/src/DirWalk/DirWalk.py:103-105 | A whole number given as the cutoff is kept. |
| `DirWalk.RepreparedText` | Source/frut/templates/stempelwerk/src/DirWalk/DirWalk.py:103-105 | The text `str` writes for a whole number is read back as that cutoff. |
| `DirWalk.Prepare` | Source/frut/templates/stempelwerk/src/DirWalk/DirWalk.py:97-107 | Preparation succeeds iff the cutoff does. A missing `included` reads as empty lists. |
| `DirWalk.IncludedDirectories` | Source/frut/templates/stempelwerk/src/DirWalk/DirWalk.py:50-59 | Exactly the scanned directories whose name is not excluded. |
| `DirWalk.IncludedFiles` | Source/frut/templates/stempelwerk/src/DirWalk/DirWalk.py:62-94 | Exactly the scanned files that are not excluded, match a pattern and pass the cutoff. |
| `DirWalk.Process` | Source/frut/templates/stempelwerk/src/DirWalk/DirWalk.py:146-166 | One pass sorts the entries into exactly the included directories and the included files. |
| `DirWalk.SubDirectories` | Source/frut/templates/stempelwerk/src/DirWalk/DirWalk.py:113-121 | The subdirectories to recurse into are sorted by name, are included, and are smaller than their parent. |
| `DirWalk.TopFiles` | Source/frut/templates/stempelwerk/src/DirWalk/DirWalk.py:113-121 | This level's files are sorted by name and are all included. |
| `DirWalk.Insert` | Source/frut/templates/stempelwerk/src/DirWalk/DirWalk.py:119-121 | Inserting into a sorted list keeps it sorted and adds exactly one element. |
| `DirWalk.FileItems` | Source/frut/templates/stempelwerk/src/DirWalk/DirWalk.py:126-127 | Each found file becomes a listed path, in the same order. |
| `DirWalk.SortByName` | Source/frut/templates/stempelwerk/src/DirWalk/DirWalk.py:119-121 | The result is sorted by name and is a permutation of its input. |
| `DirWalk.Walk` | Source/frut/templates/stempelwerk/src/DirWalk/DirWalk.py:110-143 | The walk produces the `Listing` specification, with the corrected directory markers. |
| `DirWalk.WalkSubdirectories` | Source/frut/templates/stempelwerk/src/DirWalk/DirWalk.py:129-138 | The loop produces each subdirectory's marker and listing, in order, with the corrected directory markers. |
| `DirWalk.Dirwalk` | Source/frut/templates/stempelwerk/src/DirWalk/DirWalk.py:110-117 | A bad cutoff raises ValueError, and a root that is not a directory raises OSError. Otherwise the result is the listing, with the corrected directory markers. |
| `DirWalk.ListingSound` | Source/frut/templates/stempelwerk/src/DirWalk/DirWalk.py:110-143 | Everything listed lies below the root, passes the name tests, and never passes through an excluded directory. |
| `DirWalk.ListingFilesExactly` | Source/frut/templates/stempelwerk/src/DirWalk/DirWalk.py:110-143 | A file is listed at a path iff the walk reaches it there through included directories and it passes `is_file_included`. |
| `DirWalk.ListingComplete` | Source/frut/templates/stempelwerk/src/DirWalk/DirWalk.py:119-138 | Every file reached through included directories that passes `is_file_included` is listed. |
| `DirWalk.ListingFilesReached` | Source/frut/templates/stempelwerk/src/DirWalk/DirWalk.py:119-138 | Every file listed was reached through included directories and passes `is_file_included`. |
| `DirWalk.NoPatternsNoListing` | Source/frut/templates/stempelwerk/src/DirWalk/DirWalk.py:72-76 | With no patterns and no directory markers, nothing is listed. |
| `DirWalk.NoPatternsNoFiles` | Source/frut/templates/stempelwerk/src/DirWalk/DirWalk.py:72-76 | With no patterns, no file of a level is included. |
| `DirWalk.ContentsSmaller` | Source/frut/templates/stempelwerk/src/DirWalk/DirWalk.py:130-133 | Every entry of a directory is smaller than the directory, so the recursion ends. |
| `DirWalk.TopFilesPlacement` | Source/frut/templates/stempelwerk/src/DirWalk/DirWalk.py:119-141 | This level's files are sorted by name. They come after all subdirectory contents iff `directories_first`. |
| `DirWalk.MarkerPrecedesContents` | Source/frut/templates/stempelwerk/src/DirWalk/DirWalk.py:135-138 | With directory markers, each item below a subdirectory comes after that subdirectory's marker. |
| `DirWalk.MarkersRaiseAsWritten` | Source/frut/templates/stempelwerk/src/DirWalk/DirWalk.py:135-136 | As written, any included subdirectory with `include_directories` raises TypeError. |
| `BufferPosition.SplitAt` | Source/frut/audio/buffer_position.cpp:160-168 | Block 1 starts at the position and fits before the end of the buffer. Block 2 starts at 0. The sizes add up to the count, and block 2 is non-empty only when block 1 reaches the end. |
| `BufferPosition.SplitCovers` | Source/frut/audio/buffer_position.cpp:160-168 | The k-th sample of an access sits at (position + k) mod total: in block 1, then in block 2. |
| `BufferPosition.ShiftWrapped` | Source/frut/audio/buffer_position.cpp:171-187 | Starting from a wrapped position reaches the same indices as starting from the unwrapped one. |
| `BufferPosition.BufferPosition.constructor` | Source/frut/audio/buffer_position.cpp:36-52 | Total = samples + pre-delay, read = 0, write = pre-delay, nothing stored. |
| `BufferPosition.BufferPosition.Reset` | Source/frut/audio/buffer_position.cpp:57-76 | read = 0, write = pre-delay, stored = 0, and each "to wrap" is total − position. |
| `BufferPosition.BufferPosition.GetNumberOfSamples` | Source/frut/audio/buffer_position.cpp:83-86 | It is positive and equals total − pre-delay. |
| `BufferPosition.BufferPosition.GetTotalBufferLength` | Source/frut/audio/buffer_position.cpp:93-96 | The total length, which exceeds the pre-delay. |
| `BufferPosition.BufferPosition.GetPreDelay` | Source/frut/audio/buffer_position.cpp:103-106 | The pre-delay, which lies in [0, total). |
| `BufferPosition.BufferPosition.GetCurrentReadPosition` | Source/frut/audio/buffer_position.cpp:113-116 | The read position, which lies in [0, total). |
| `BufferPosition.BufferPosition.GetCurrentWritePosition` | Source/frut/audio/buffer_position.cpp:123-126 | The write position, which lies in [0, total). |
| `BufferPosition.BufferPosition.Store` | Source/frut/audio/buffer_position.cpp:149-188 | The blocks are the split at the write position. With update, write = (write + n) mod total and stored grows by n; without update, nothing changes. |
| `BufferPosition.BufferPosition.Retrieve` | Source/frut/audio/buffer_position.cpp:213-251 | The mirror of `Store` on the read side: stored shrinks by n. |
| `BufferPosition.BufferPosition.SimulateDequeue` | Source/frut/audio/buffer_position.cpp:261-279 | Only the read position moves, wrapped into the buffer, and stored shrinks by n. |
| `BufferPosition.BufferPosition.LookBackFromWritePosition` | Source/frut/audio/buffer_position.cpp:302-331 | The blocks are the split of n samples at (write − n) mod total, so block 1 holds min(n, total − start) samples and the blocks end just before the write position. Neither position changes. |
| `BufferPosition.StoreThenRetrieveMeet` | Source/frut/audio/buffer_position.cpp:171-187 | Storing and retrieving n samples keeps the distance between the write and read positions. |
| `RingBuffer.Abs` | Source/common/audio/ring_buffer.cpp:447-450 | The amplitude is non-negative and equals the sample or its negation. |
| `RingBuffer.ReadIndex` | Source/common/audio/ring_buffer.cpp:306-321 | The index read always lies inside the buffer, [0, samples + pre-delay). |
| `RingBuffer.PassSize` | Source/common/audio/ring_buffer.cpp:222-228 | Each pass copies min(unprocessed, to chunk, to wrap). |
| `RingBuffer.PassWindow` | Source/common/audio/ring_buffer.cpp:230-236 | One pass writes exactly the next indices of the wrapped sequence. |
| `RingBuffer.ChunkAdvance` | Source/common/audio/ring_buffer.cpp:247-255 | The chunk counter restarts at a full chunk exactly when the pass fills the chunk, and the number of completed chunks then grows by one. |
| `RingBuffer.ChunkStep` | Source/common/audio/ring_buffer.cpp:248-262 | A pass completes a chunk iff the fill reaches the chunk size, and then the chunk counter wraps to 0. |
| `RingBuffer.WrapStep` | Source/common/audio/ring_buffer.cpp:239-240 | Wrapping the position after each pass gives the same position as wrapping once at the end. |
| `RingBuffer.WrittenOffset` | Source/common/audio/ring_buffer.cpp:239-240 | A buffer index's distance from the start position is within the buffer. |
| `RingBuffer.WrapIndex` | Source/common/audio/ring_buffer.cpp:367-374 | A wrapped read index lies inside the buffer. |
| `RingBuffer.ReadPass` | Source/common/audio/ring_buffer.cpp:377-392 | A read pass reads consecutive indices from its wrapped start position. |
| `RingBuffer.ZeroChunkMakesNoProgress` | Source/common/audio/ring_buffer.cpp:220-249 | With a chunk size of 0, a pass copies nothing, so the loop never ends. |
| `RingBuffer.AddThenGetSample` | Source/common/audio/ring_buffer.cpp:296-325 | After adding `count` samples, `getSample` at offset samples − count + k returns the k-th of them. |
| `RingBuffer.PreDelayDelays` | Source/common/audio/ring_buffer.cpp:306-312 | Reading with the pre-delay reads what would be read without it, with the write position pre-delay samples earlier. |
| `RingBuffer.DelayedWindowStartsAtWritePosition` | Source/common/audio/ring_buffer.cpp:306-321 | With the pre-delay, offset 0 is the write position itself: the oldest sample. |
| `RingBuffer.RingBuffer.constructor` | Source/common/audio/ring_buffer.cpp:40-89 | The buffer starts silent, without callback, at position 0, expecting a whole chunk. |
| `RingBuffer.RingBuffer.Clear` | Source/common/audio/ring_buffer.cpp:95-108 | Position 0, the chunk counter equals the chunk size, and every sample of every channel is 0. |
| `RingBuffer.RingBuffer.SetCallbackClass` | Source/common/audio/ring_buffer.cpp:138-142 | Only the callback changes. |
| `RingBuffer.RingBuffer.GetCurrentPosition` | Source/common/audio/ring_buffer.cpp:162-165 | The write position, which lies in [0, total). |
| `RingBuffer.RingBuffer.CopyIn` | Source/common/audio/ring_buffer.cpp:230-236 | Per channel, `count` source samples land at `position` onwards, and nothing else changes. |
| `RingBuffer.RingBuffer.CopyPass` | Source/common/audio/ring_buffer.cpp:222-236 | After a pass, exactly the first processed + count written offsets hold their source samples, and every other index still holds its original sample. |
| `RingBuffer.RingBuffer.AddPass` | Source/common/audio/ring_buffer.cpp:221-262 | A pass copies at least one sample and no more than remain. The position and chunk counter move on by that many, and a completed chunk is reported. |
| `RingBuffer.RingBuffer.AdvancePass` | Source/common/audio/ring_buffer.cpp:238-255 | After the bookkeeping, the position and chunk counter agree with the totals so far. A completed chunk adds one to the number of full chunks. |
| `RingBuffer.RingBuffer.MakeNonNegative` | Source/common/audio/ring_buffer.cpp:314-318 | The add-until-non-negative loop gives a non-negative value congruent to its input. |
| `RingBuffer.RingBuffer.GetSample` | Source/common/audio/ring_buffer.cpp:296-325 | The sample at `ReadIndex`. |
| `RingBuffer.RingBuffer.CopyOut` | Source/common/audio/ring_buffer.cpp:386-392 | Per channel, `count` buffer samples land in the destination, and nothing else changes. |
| `RingBuffer.RingBuffer.CopyOutPass` | Source/common/audio/ring_buffer.cpp:377-392 | A pass copies the next wrapped indices. |
| `RingBuffer.RingBuffer.CopyOutWrapped` | Source/common/audio/ring_buffer.cpp:376-403 | The read loop puts the k-th wrapped index after the start position into destination slot k and leaves every other slot alone. |
| `RingBuffer.RingBuffer.GetSamples` | Source/common/audio/ring_buffer.cpp:340-404 | Destination slot j holds the sample `getSample` returns at offset samples − count + j, and all other slots are unchanged. |
| `RingBuffer.RingBuffer.MagnitudeAt` | Source/common/audio/ring_buffer.cpp:443-450 | The absolute value of a delayed sample, which is ≥ 0. |
| `RingBuffer.RingBuffer.GetMagnitude` | Source/common/audio/ring_buffer.cpp:417-456 | The result is ≥ 0, at least every amplitude in the window, and equal to one of them, or to 0. |
| `RingBuffer.RingBuffer.AddSamples` | Source/common/audio/ring_buffer.cpp:203-280 | Samples land at the wrapped write positions, which advance by count mod total. The chunk fill advances by count mod chunk size. The callback fires once per filled chunk. |
| `Orientation.CppRem360` | Source/frut/widgets/orientation.cpp:94-97 | C++ `% 360`: the result lies in (−360, 360), has the sign of the input, and is congruent to it. |
| `Orientation.FromAngle` | Source/frut/widgets/orientation.cpp:45-48 | The stored angle is reduced modulo 360 with the sign of the input, and angles already in range are kept. |
| `Orientation.FromNamed` | Source/frut/widgets/orientation.cpp:82-85 | A named direction stores its enumerator's angle. |
| `Orientation.GetOrientation` | Source/frut/widgets/orientation.cpp:51-79 | 0/90/180/270 are named and carry that angle. Everything else is `other`. |
| `Orientation.IsVertical` | Source/frut/widgets/orientation.cpp:100-118 | True iff the direction is bottom-to-top or top-to-bottom. |
| `Orientation.IsInverted` | Source/frut/widgets/orientation.cpp:121-139 | True iff the direction is top-to-bottom or right-to-left. |
| `Orientation.Mirror` | Source/frut/widgets/orientation.cpp:142-145 | The result is in range, congruent to angle + 180, and has the sign of angle + 180, as C++'s truncating `%` leaves it; this determines it uniquely. |
| `Orientation.TurnLeft` | Source/frut/widgets/orientation.cpp:148-151 | The result is in range, congruent to angle + 90, and has the sign of angle + 90, as C++'s truncating `%` leaves it. |
| `Orientation.TurnRight` | Source/frut/widgets/orientation.cpp:154-157 | The result is in range, congruent to angle − 90, and has the sign of angle − 90, so a right turn from 0 stores −90. |
| `Orientation.NamedRoundTrip` | Source/frut/widgets/orientation.cpp:224-228 | Naming a direction and reading it back gives that name. |
| `Orientation.EqualIsValueEquality` | Source/frut/widgets/orientation.cpp:210-214 | Orientations are equal iff their angles are. |
| `Orientation.EqualsNamedAgrees` | Source/frut/widgets/orientation.cpp:224-228 | Comparing with a name agrees with comparing with the named orientation, except for `other`. |
| `Orientation.MirrorTwice` | Source/frut/widgets/orientation.cpp:142-145 | Mirroring twice restores every non-negative stored angle. |
| `Orientation.MirrorNamed` | Source/frut/widgets/orientation.cpp:142-145 | Mirroring keeps a named direction named and vertical or not, and flips whether it is inverted. |
| `Orientation.TurnLeftNamed` | Source/frut/widgets/orientation.cpp:148-151 | Left turns walk the four named directions in order. |
| `Orientation.TurnRightFromBottomIsOther` | Source/frut/widgets/orientation.cpp:154-157 | As written, a right turn from bottom-to-top gives −90, which is `other`. |
| `Orientation.NormalizedAngle` | Source/frut/widgets/orientation.cpp:94-97 | The corrected reduction: the angle lies in [0, 360) and is congruent to the input. |
| `Orientation.TurnRightNormalized` | Source/frut/widgets/orientation.cpp:154-157 | The corrected right turn lies in [0, 360) and is congruent to angle − 90. |
| `Orientation.TurnLeftNormalized` | Source/frut/widgets/orientation.cpp:148-151 | The corrected left turn lies in [0, 360) and is congruent to angle + 90. |
| `Orientation.TurnRightNormalizedNamed` | Source/frut/widgets/orientation.cpp:154-157 | Corrected right turns walk the four named directions in the reverse order of left turns: bottom-to-top, right-to-left, top-to-bottom, left-to-right. |
| `Orientation.TurnLeftUndoesTurnRight` | Source/frut/widgets/orientation.cpp:148-157 | With the corrected reduction, a left turn undoes a right turn. |
| `Juggler.ArraySet` | Source/common/parameter/juggler.cpp:186 | `Array::set` overwrites in range, appends at or past the end, and ignores a negative index. |
| `Juggler.TagMatchIgnoresCase` | Source/common/parameter/juggler.cpp:588 | A tag that agrees with the ID letter by letter up to the case of ASCII letters matches it, in both argument orders. |
| `Juggler.MatchIsCaseVariant` | Source/common/parameter/juggler.cpp:588 | Conversely, a tag that matches has the ID's length and differs from it only in the case of ASCII letters. |
| `Juggler.SameIgnoringCaseEquivalence` | Source/common/parameter/juggler.cpp:588 | Equality ignoring case is reflexive, symmetric and transitive. |
| `Juggler.WritableEntriesExactly` | Source/common/parameter/juggler.cpp:614-623 | The stored entries are exactly those of the writable parameters: one per writable flag, each from a writable parameter. |
| `Juggler.ListingLines` | Source/common/parameter/juggler.cpp:101-116 | `toString` has one line per parameter. |
| `Juggler.Juggler.constructor` | Source/common/parameter/juggler.cpp:38-50 | The registry starts empty, with no combined parameters, the given ID and counts, and a switch alias that reads back the mode it was given. |
| `Juggler.Juggler.GetPluginParameter` | Source/common/parameter/juggler.cpp:85-94 | Returns the parameter registered at the index. Requires a valid index. |
| `Juggler.Juggler.WritableIsNoSwitch` | Source/common/parameter/juggler.cpp:200-229 | A writable index is never a combined parameter's switch, which is always read-only. |
| `Juggler.Juggler.UpdateParameter` | Source/common/parameter/juggler.cpp:256-266 | Setters need a writable index. That parameter changes, the switch of a combined parameter follows its new mode, and nothing else changes. |
| `Juggler.Juggler.ClearChangeFlag` | Source/common/parameter/juggler.cpp:567-576 | Any valid index, read-only ones included. That parameter changes. The switch of a combined parameter follows its mode, and a switch cleared on its own carries the mode back into its parameter; nothing else changes. |
| `Juggler.Juggler.ToString` | Source/common/parameter/juggler.cpp:101-116 | The loop builds the `Listing` specification. |
| `Juggler.Juggler.Add` | Source/common/parameter/juggler.cpp:151-167 | Appends the parameter as writable and owned. The index given must be the next free slot, and that slot may then be modified. |
| `Juggler.Juggler.AddProtected` | Source/common/parameter/juggler.cpp:177-187 | As `Add`, but the flag at that index is read-only. |
| `Juggler.Juggler.AddCombined` | Source/common/parameter/juggler.cpp:200-229 | A read-only switch showing the parameter's mode goes at switchIndex and the writable parameter at switchIndex + 1, which is recorded as combined. Only the parameter is owned. |
| `Juggler.Juggler.GetNumParameters` | Source/common/parameter/juggler.cpp:126-141 | The complete count (= number of virtual parameters) with hidden parameters included, else the revealed count. |
| `Juggler.Juggler.LoadFromXml` | Source/common/parameter/juggler.cpp:583-601 | Acts only on a document whose tag equals the ID ignoring case. Writable parameters are loaded, switches follow their parameters, every other read-only parameter is unchanged, and a rejected document changes nothing. |
| `Juggler.Juggler.LoadOne` | Source/common/parameter/juggler.cpp:595-598 | One writable parameter is loaded from the document, its switch follows, and nothing else changes. |
| `Juggler.Juggler.StoreAsXml` | Source/common/parameter/juggler.cpp:606-627 | The document carries the ID and version, and holds the entries of the writable parameters in order. |

## Left out

- Jinja rendering, its template loader, engine extensions and custom modules
  loaded with `importlib` are left out because they are an external library
  and dynamic code. Rendering is a function parameter, and the list of
  templates the loader reports is a constant of the generator.
- Argument parsing, JSON loading of settings and globals, `Settings.__post_init__`
  directory creation, `finalize_path`'s `expanduser`, and pathlib's handling of
  `..` are left out as I/O and configuration glue. Paths are sequences of
  components.
- Console output (`LinePrinter`, version banner, per-file messages) is left
  out. Only the dot progress (`_show_progress`) is modelled as text.
- `_display_statistics` is modelled as functions of an elapsed time, because
  the wall clock is an input. `render_all_templates` takes the start time as a
  parameter and does not call the statistics display.
- Errors: `exit(1)` after a message and Python exceptions are both `Failure`
  values. The exceptions of `_render_content` (template syntax errors) are
  left out because rendering is total here.
- The disk is a set of directories and a map of files. A file standing where
  `mkdir` wants a directory is not modelled, nor are encodings, sub-second
  times and file permissions.
- `DirWalk.GlobMatch` supports `*`, `?` and literal characters. fnmatch's
  `[...]` classes, multi-component patterns, and Windows case folding are left
  out.
- DirWalk.GlobMatch: an empty pattern matches only an empty name. pathlib's
  `match('')` raises ValueError (DirWalk.py:72-73), so an empty entry in
  `included_suffixes` that the loop reaches aborts the walk; that error path
  is not modelled.
- DirWalk.CeilSeconds: is the exact ceiling of the time in nanoseconds over
  10⁹. The source divides `st_mtime_ns / 1e9` in floating point
  (DirWalk.py:88-92), which for present-day times rounds to steps of about
  240 ns, so a time a little past a whole second can round down to it.
  Floating-point rounding is not modelled.
- DirWalk.CutoffRule: states the rule for the exact ceiling, so it does not
  capture the floating-point rounding described for `DirWalk.CeilSeconds`.
- DirWalk.Dirwalk: models the corrected directory markers. As written, a walk
  with `include_directories` and an included subdirectory raises TypeError
  (see Findings). The template search never asks for markers.
- DirWalk.Walk: models the corrected directory markers, as for
  `DirWalk.Dirwalk`.
- DirWalk.WalkSubdirectories: models the corrected directory markers, as for
  `DirWalk.Dirwalk`.
- `PyText.ParseInt` accepts ASCII digits with an optional sign. Python's `int()`
  also accepts underscores and non-ASCII digits; these are left out.
- Juggler parameters are an opaque type: their values, names, text, and XML
  load/store are function parameters. The float getters and setters all
  reduce to `GetPluginParameter`/`UpdateParameter`. Deleting owned parameters
  on destruction is left out. Parameters are values, not pointers: the one
  alias the registry creates, a combined parameter's mode switch, is modelled
  by the `switchOf`/`withSwitch` functions and the `combined` index set.
- Juggler.Juggler.LoadFromXml: folds only ASCII letters when comparing the
  tag. JUCE's `equalsIgnoreCase` also folds other letters, and its debug-build
  assertion on a tag that matches only up to case is left out.
- RingBuffer: the memory-test padding around each channel (DEBUG only),
  `getRMSLevel` (square root) and the trivial getters for channel, sample and
  pre-delay counts are left out. The callback is counted instead of run.
- RingBuffer.RingBuffer.AddSamples: requires a positive chunk size, although
  the constructor's assertion admits 0, which as written never terminates (see
  Findings).
- RingBuffer.RingBuffer.constructor: requires a non-negative pre-delay, which
  the source assumes without asserting.
- C++ `int` overflow is not modelled: the buffer models use unbounded
  integers, so they assume the sample counts, positions and the sums built
  from them stay within `int`. Examples are `storedSamples_ += numberOfSamples`
  (buffer_position.cpp:181), `readPosition_ + numberOfSamples` in
  `simulateDequeue` (buffer_position.cpp:265-267), and the read index of the
  ring buffer. Signed overflow is undefined behaviour in C++.
- BufferPosition's `DBG` messages for overwriting or under-reading are left
  out, because they are debug output only. The stored count is allowed to go
  out of range, as in the source.
- Orientation's `getTransform` and `operator String` are left out, as
  floating-point geometry and display text.

## Findings

| source | as written | input that shows it | evidently intended | confidence | as-written member | corrected member |
|---|---|---|---|---|---|---|
| Source/frut/widgets/orientation.cpp:94-97 | `angle % 360` keeps the sign, so negative angles are stored | `Orientation(0).turnRight()` stores −90, classified `other` | angle in [0, 360): right turn from bottom-to-top is right-to-left | high, not executed | `Orientation.TurnRightFromBottomIsOther` | `Orientation.TurnRightNormalizedNamed` |
| Source/frut/templates/stempelwerk/src/DirWalk/DirWalk.py:135-136 | `current_directory + os.sep` adds a `str` to a `pathlib.Path` | `include_directories=True` with one included subdirectory raises TypeError | each directory is listed with a trailing separator before its contents | high, not executed | `DirWalk.MarkersRaiseAsWritten` | `DirWalk.MarkerPrecedesContents` |
| Source/frut/templates/stempelwerk/src/StempelWerk.py:756-757 | the time per output file divides by `saved_files` | a run whose templates all render to blank text: 1 template, 0 files | no average when no file was saved | high, not executed | `StempelWerk.BlankRunDividesByZero` | `StempelWerk.Statistics` |
| Source/common/audio/ring_buffer.cpp:50 | the assertion admits `chunkSize == 0` | chunk size 0, then `addSamples` of 1 sample copies 0 per pass forever | a positive chunk size | medium, not executed | `RingBuffer.ZeroChunkMakesNoProgress` | `RingBuffer.RingBuffer.AddSamples` |
