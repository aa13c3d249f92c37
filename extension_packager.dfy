/**
 * Building a new extension from the template directory: every regular file
 * of the template is copied into a zip archive, its text with the
 * placeholders `companyname`, `extensionname`, `extensionlabel` and `1.0.0`
 * replaced by the form's values (in that order, each step working on the
 * previous step's output), and its path with `companyname` and
 * `extensionname` replaced. The result names the archive's URL, or carries
 * the error message.
 *
 * The file system, the archive generation and the random id are outside
 * the model: the template is given as a tree, the id as a value, and an
 * I/O failure as the message of the error it throws.
 */
module ExtensionPackager {
  import opened Text

  datatype Option<T> = None | Some(value: T)

  /** The values the form passes in. */
  datatype Settings = Settings(companyName: string, extensionName: string, extensionLabel: string, version: string)

  const CompanyPlaceholder: string := "companyname"
  const NamePlaceholder: string := "extensionname"
  const LabelPlaceholder: string := "extensionlabel"
  const VersionPlaceholder: string := "1.0.0"

  /** The four replacements applied to a file's text. */
  function RewriteContent(content: string, st: Settings): string {
    var afterCompany := ReplaceAll(content, CompanyPlaceholder, st.companyName);
    var afterName := ReplaceAll(afterCompany, NamePlaceholder, st.extensionName);
    var afterLabel := ReplaceAll(afterName, LabelPlaceholder, st.extensionLabel);
    ReplaceAll(afterLabel, VersionPlaceholder, st.version)
  }

  /** The two replacements applied to a file's path. */
  function RewritePath(path: string, st: Settings): string {
    ReplaceAll(ReplaceAll(path, CompanyPlaceholder, st.companyName), NamePlaceholder, st.extensionName)
  }

  // ---------------------------------------------------------------------------
  // Properties of the rewriting

  /** A text holding none of the placeholders is copied unchanged. */
  lemma ContentWithoutPlaceholders(content: string, st: Settings)
    requires !Contains(content, CompanyPlaceholder) && !Contains(content, NamePlaceholder)
    requires !Contains(content, LabelPlaceholder) && !Contains(content, VersionPlaceholder)
    ensures RewriteContent(content, st) == content
  {
    ReplaceAllAbsent(content, CompanyPlaceholder, st.companyName);
    ReplaceAllAbsent(content, NamePlaceholder, st.extensionName);
    ReplaceAllAbsent(content, LabelPlaceholder, st.extensionLabel);
    ReplaceAllAbsent(content, VersionPlaceholder, st.version);
  }

  /** A path holding neither path placeholder is kept. */
  lemma PathWithoutPlaceholders(path: string, st: Settings)
    requires !Contains(path, CompanyPlaceholder) && !Contains(path, NamePlaceholder)
    ensures RewritePath(path, st) == path
  {
    ReplaceAllAbsent(path, CompanyPlaceholder, st.companyName);
    ReplaceAllAbsent(path, NamePlaceholder, st.extensionName);
  }

  /** Paths do not depend on the label or the version. */
  lemma PathIgnoresLabelAndVersion(path: string, st: Settings, otherLabel: string, otherVersion: string)
    ensures RewritePath(path, st.(extensionLabel := otherLabel, version := otherVersion)) == RewritePath(path, st)
  {
  }

  /** The version placeholder is replaced in a file's text but kept in its
      path. The version is a replacement template: without a `$` it is
      written as given, and `$&` writes the placeholder back. */
  lemma VersionInContentNotInPath(st: Settings)
    ensures RewriteContent(VersionPlaceholder, st) == Substitution(st.version, "", VersionPlaceholder, "")
    ensures '$' !in st.version ==> RewriteContent(VersionPlaceholder, st) == st.version
    ensures st.version == "$&" ==> RewriteContent(VersionPlaceholder, st) == VersionPlaceholder
    ensures RewritePath(VersionPlaceholder, st) == VersionPlaceholder
  {
    TooShort(VersionPlaceholder, CompanyPlaceholder, st.companyName);
    TooShort(VersionPlaceholder, NamePlaceholder, st.extensionName);
    TooShort(VersionPlaceholder, LabelPlaceholder, st.extensionLabel);
    ReplaceAllWhole(VersionPlaceholder, st.version);
    SubstitutionForms("", "", VersionPlaceholder, "");
    assert "$&" + "" == "$&";
  }

  /** The label placeholder becomes the label expanded as a replacement
      template (then the version step runs over it): a label `$$` writes a
      single dollar sign. */
  lemma LabelIsTemplate(st: Settings)
    ensures RewriteContent(LabelPlaceholder, st)
         == ReplaceAll(Substitution(st.extensionLabel, "", LabelPlaceholder, ""), VersionPlaceholder, st.version)
    ensures st.extensionLabel == "$$" ==> RewriteContent(LabelPlaceholder, st) == "$"
  {
    FirstCharMissing(LabelPlaceholder, CompanyPlaceholder, st.companyName);
    LabelIsNotName(st.extensionName);
    ReplaceAllWhole(LabelPlaceholder, st.extensionLabel);
    SubstitutionForms("", "", LabelPlaceholder, "");
    assert "$$" + "" == "$$";
    TooShort("$", VersionPlaceholder, st.version);
  }

  lemma LabelIsNotName(rep: string)
    ensures ReplaceAll(LabelPlaceholder, NamePlaceholder, rep) == LabelPlaceholder
  {
    var s := LabelPlaceholder;
    assert s[9] != NamePlaceholder[9];
    assert !OccursAt(s, NamePlaceholder, 0);
    assert s[1] != NamePlaceholder[0];
    assert !OccursAt(s, NamePlaceholder, 1);
    assert s == [s[0]] + [s[1]] + s[2..];
  }

  /** A pattern longer than the text does not occur in it. */
  lemma TooShort(s: string, pat: string, rep: string)
    requires pat != [] && |s| < |pat|
    ensures ReplaceAll(s, pat, rep) == s
  {
    assert s[0..] == s;
  }

  /** A pattern whose first character is missing from the text does not
      occur in it. */
  lemma FirstCharMissing(s: string, pat: string, rep: string)
    requires pat != [] && pat[0] !in s
    ensures ReplaceAll(s, pat, rep) == s
  {
    ContainsChar(s, pat, 0);
    ReplaceAllAbsent(s, pat, rep);
  }

  /** The dots of `1.0.0` match only dots: the version step leaves a text
      without a dot unchanged. */
  lemma DotsAreLiteral(s: string, version: string)
    requires '.' !in s
    ensures ReplaceAll(s, VersionPlaceholder, version) == s
  {
    ContainsChar(s, VersionPlaceholder, 1);
    ReplaceAllAbsent(s, VersionPlaceholder, version);
  }

  /** Matching is case-sensitive: a text without a lower-case letter, such
      as an upper-cased placeholder, goes through the name and label steps
      and the path rewriting unchanged. */
  lemma CaseSensitive(s: string, st: Settings)
    requires forall c :: c in s ==> !('a' <= c <= 'z')
    ensures RewritePath(s, st) == s
    ensures RewriteContent(s, st) == ReplaceAll(s, VersionPlaceholder, st.version)
  {
    FirstCharMissing(s, CompanyPlaceholder, st.companyName);
    FirstCharMissing(s, NamePlaceholder, st.extensionName);
    FirstCharMissing(s, LabelPlaceholder, st.extensionLabel);
  }

  /** Each step works on the previous step's output: a company name that
      spells the name placeholder is itself replaced, so the company
      placeholder ends up as the name placeholder would. */
  lemma StepsCompose(st: Settings)
    requires st.companyName == NamePlaceholder
    ensures RewriteContent(CompanyPlaceholder, st) == RewriteContent(NamePlaceholder, st)
  {
    NamePlaceholderChars();
    ReplaceAllWhole(CompanyPlaceholder, st.companyName);
    FirstCharMissing(NamePlaceholder, CompanyPlaceholder, st.companyName);
    SameAfterCompany(CompanyPlaceholder, NamePlaceholder, st);
  }

  lemma NamePlaceholderChars()
    ensures '$' !in NamePlaceholder
    ensures CompanyPlaceholder != [] && CompanyPlaceholder[0] !in NamePlaceholder
  {
  }

  /** Texts that agree once the company step is done agree at the end. */
  lemma SameAfterCompany(x: string, y: string, st: Settings)
    requires ReplaceAll(x, CompanyPlaceholder, st.companyName) == ReplaceAll(y, CompanyPlaceholder, st.companyName)
    ensures RewriteContent(x, st) == RewriteContent(y, st)
  {
  }

  // ---------------------------------------------------------------------------
  // The archive

  datatype ZipEntry = ZipEntry(path: string, content: string)

  predicate HasPath(files: seq<ZipEntry>, path: string) {
    exists k :: 0 <= k < |files| && files[k].path == path
  }

  /** Adding a file under a name: the entry of that name is replaced in
      place, or the file is appended when there is none. */
  function Stored(files: seq<ZipEntry>, e: ZipEntry): (r: seq<ZipEntry>)
    ensures !HasPath(files, e.path) ==> r == files + [e]
    ensures HasPath(files, e.path) ==> |r| == |files|
    ensures e in r
    ensures forall k :: 0 <= k < |files| && files[k].path != e.path ==> files[k] in r
  {
    if files == [] then [e]
    else if files[0].path == e.path then [e] + files[1..]
    else
      var rest := Stored(files[1..], e);
      assert HasPath(files, e.path) ==> HasPath(files[1..], e.path) by {
        if HasPath(files, e.path) {
          var k :| 0 <= k < |files| && files[k].path == e.path;
          assert files[1..][k - 1].path == e.path;
        }
      }
      assert !HasPath(files, e.path) ==> !HasPath(files[1..], e.path) by {
        if HasPath(files[1..], e.path) {
          var k :| 0 <= k < |files[1..]| && files[1..][k].path == e.path;
          assert files[k + 1].path == e.path;
        }
      }
      assert forall k :: 1 <= k < |files| ==> files[k] == files[1..][k - 1];
      [files[0]] + rest
  }

  /** Adding several files one after another. */
  function StoreAll(files: seq<ZipEntry>, adds: seq<ZipEntry>): seq<ZipEntry> {
    if adds == [] then files else Stored(StoreAll(files, adds[..|adds| - 1]), adds[|adds| - 1])
  }

  lemma {:induction false} StoreAllAppend(files: seq<ZipEntry>, a: seq<ZipEntry>, b: seq<ZipEntry>)
    ensures StoreAll(files, a + b) == StoreAll(StoreAll(files, a), b)
    decreases |b|
  {
    if b == [] {
      assert a + b == a;
    } else {
      assert (a + b)[..|a + b| - 1] == a + b[..|b| - 1];
      StoreAllAppend(files, a, b[..|b| - 1]);
    }
  }

  predicate DistinctPaths(files: seq<ZipEntry>) {
    forall k, m :: 0 <= k < m < |files| ==> files[k].path != files[m].path
  }

  /** Files with distinct paths, none already in the archive, become one
      entry each, in order. */
  lemma {:induction false} StoreAllDistinct(files: seq<ZipEntry>, adds: seq<ZipEntry>)
    requires DistinctPaths(adds)
    requires forall k :: 0 <= k < |adds| ==> !HasPath(files, adds[k].path)
    ensures StoreAll(files, adds) == files + adds
    decreases |adds|
  {
    if adds != [] {
      var init, last := adds[..|adds| - 1], adds[|adds| - 1];
      StoreAllDistinct(files, init);
      assert files + init + [last] == files + adds;
    }
  }

  /** The archive the generator fills. */
  class ZipArchive {
    var files: seq<ZipEntry>

    constructor()
      ensures files == []
    {
      files := [];
    }

    method File(path: string, content: string)
      modifies this
      ensures files == Stored(old(files), ZipEntry(path, content))
    {
      files := Stored(files, ZipEntry(path, content));
    }
  }

  // ---------------------------------------------------------------------------
  // The template walk

  /** The template directory: regular files with their text, and
      sub-directories, in the order the directory listing gives them. */
  datatype TemplateEntry =
    | RegularFile(name: string, text: string)
    | Directory(name: string, entries: seq<TemplateEntry>)

  /** The regular files below `entries`, each under its path relative to the
      template root (`dir` is the path of the directory holding them), in
      walk order. */
  function TemplateFiles(entries: seq<TemplateEntry>, dir: string): seq<ZipEntry>
    decreases entries, 0
  {
    if entries == [] then []
    else TemplateFiles(entries[..|entries| - 1], dir) + EntryFiles(entries[|entries| - 1], dir)
  }

  function EntryFiles(e: TemplateEntry, dir: string): seq<ZipEntry>
    decreases e, 1
  {
    match e
    case RegularFile(name, text) => [ZipEntry(dir + name, text)]
    case Directory(name, entries) => TemplateFiles(entries, dir + name + "/")
  }

  /** The number of regular files in a template tree. */
  function FileCount(entries: seq<TemplateEntry>): nat
    decreases entries, 0
  {
    if entries == [] then 0 else FileCount(entries[..|entries| - 1]) + EntryCount(entries[|entries| - 1])
  }

  function EntryCount(e: TemplateEntry): nat
    decreases e, 1
  {
    match e
    case RegularFile(_, _) => 1
    case Directory(_, entries) => FileCount(entries)
  }

  /** Every regular file of the tree is listed once. */
  lemma {:induction false} TemplateFilesCount(entries: seq<TemplateEntry>, dir: string)
    ensures |TemplateFiles(entries, dir)| == FileCount(entries)
    decreases entries, 0
  {
    if entries != [] {
      TemplateFilesCount(entries[..|entries| - 1], dir);
      EntryFilesCount(entries[|entries| - 1], dir);
    }
  }

  lemma {:induction false} EntryFilesCount(e: TemplateEntry, dir: string)
    ensures |EntryFiles(e, dir)| == EntryCount(e)
    decreases e, 1
  {
    match e
    case RegularFile(_, _) =>
    case Directory(name, entries) => TemplateFilesCount(entries, dir + name + "/");
  }

  /** The archive entry for a template file. */
  function RewriteFile(f: ZipEntry, st: Settings): ZipEntry {
    ZipEntry(RewritePath(f.path, st), RewriteContent(f.content, st))
  }

  function RewriteFiles(files: seq<ZipEntry>, st: Settings): (r: seq<ZipEntry>)
    ensures |r| == |files| && forall k :: 0 <= k < |files| ==> r[k] == RewriteFile(files[k], st)
  {
    seq(|files|, k requires 0 <= k < |files| => RewriteFile(files[k], st))
  }

  lemma FilesStep(entries: seq<TemplateEntry>, i: nat, dir: string, st: Settings)
    requires i < |entries|
    ensures RewriteFiles(TemplateFiles(entries[..i + 1], dir), st)
         == RewriteFiles(TemplateFiles(entries[..i], dir), st) + RewriteFiles(EntryFiles(entries[i], dir), st)
  {
    assert entries[..i + 1][..i] == entries[..i];
  }

  lemma StoreOne(files: seq<ZipEntry>, e: ZipEntry)
    ensures StoreAll(files, [e]) == Stored(files, e)
  {
    assert [e][..0] == [];
  }

  /** One regular file: its text and its path rewritten, then stored. */
  method AddFile(zip: ZipArchive, dir: string, name: string, text: string, st: Settings)
    modifies zip
    ensures zip.files == Stored(old(zip.files), RewriteFile(ZipEntry(dir + name, text), st))
  {
    var content := text;
    content := ReplaceAll(content, CompanyPlaceholder, st.companyName);
    content := ReplaceAll(content, NamePlaceholder, st.extensionName);
    content := ReplaceAll(content, LabelPlaceholder, st.extensionLabel);
    content := ReplaceAll(content, VersionPlaceholder, st.version);
    var newFileName := ReplaceAll(dir + name, CompanyPlaceholder, st.companyName);
    newFileName := ReplaceAll(newFileName, NamePlaceholder, st.extensionName);
    zip.File(newFileName, content);
  }

  /** Adds every regular file below `entries` to the archive, rewritten;
      directories are walked into. */
  method AddFilesToZip(zip: ZipArchive, entries: seq<TemplateEntry>, dir: string, st: Settings)
    modifies zip
    ensures zip.files == StoreAll(old(zip.files), RewriteFiles(TemplateFiles(entries, dir), st))
    decreases entries
  {
    for i := 0 to |entries|
      invariant zip.files == StoreAll(old(zip.files), RewriteFiles(TemplateFiles(entries[..i], dir), st))
    {
      FilesStep(entries, i, dir, st);
      StoreAllAppend(old(zip.files), RewriteFiles(TemplateFiles(entries[..i], dir), st),
                     RewriteFiles(EntryFiles(entries[i], dir), st));
      match entries[i] {
        case Directory(name, children) =>
          AddFilesToZip(zip, children, dir + name + "/", st);
        case RegularFile(name, text) =>
          var before := zip.files;
          AddFile(zip, dir, name, text, st);
          StoreOne(before, RewriteFile(ZipEntry(dir + name, text), st));
          assert RewriteFiles(EntryFiles(entries[i], dir), st) == [RewriteFile(ZipEntry(dir + name, text), st)];
      }
    }
    assert entries[..|entries|] == entries;
  }

  // ---------------------------------------------------------------------------
  // Creating the extension

  datatype CreationResult = Created(fileUrl: string) | CreationFailed(error: string)

  const CreationErrorPrefix: string := "An error occurred while creating the extension: "

  /** The URL under which the archive is served. */
  function FileUrl(extensionName: string, id: string): (r: string)
    ensures StartsWith(r, "/temp/") && EndsWith(r, ".zip")
    ensures |r| == |"/temp/"| + |extensionName| + 1 + |id| + |".zip"|
    ensures r[|"/temp/"|..|r| - |".zip"|] == extensionName + "-" + id
  {
    Framed("/temp/", extensionName + "-" + id, ".zip");
    "/temp/" + (extensionName + "-" + id) + ".zip"
  }

  function CreationError(message: string): (r: string)
    ensures StartsWith(r, CreationErrorPrefix) && r[|CreationErrorPrefix|..] == message
  {
    CreationErrorPrefix + message
  }

  /** Fills a fresh archive from the template and names the file after the
      extension and the id; `failure` is the message of the error a file
      system or archive operation threw, if one did. */
  method CreateExtension(st: Settings, template: seq<TemplateEntry>, id: string, failure: Option<string>)
    returns (result: CreationResult, archive: seq<ZipEntry>)
    ensures archive == StoreAll([], RewriteFiles(TemplateFiles(template, ""), st))
    ensures failure.None? ==> result == Created(FileUrl(st.extensionName, id))
    ensures failure.Some? ==> result == CreationFailed(CreationError(failure.value))
  {
    var zip := new ZipArchive();
    AddFilesToZip(zip, template, "", st);
    archive := zip.files;
    var fileName := st.extensionName + "-" + id + ".zip";
    if failure.Some? {
      result := CreationFailed(CreationErrorPrefix + failure.value);
    } else {
      result := Created("/temp/" + fileName);
    }
  }

  /** With rewritten paths all different, the archive holds exactly one
      entry per regular template file, in walk order, each with its
      rewritten text. */
  lemma OneEntryPerFile(st: Settings, template: seq<TemplateEntry>)
    requires DistinctPaths(RewriteFiles(TemplateFiles(template, ""), st))
    ensures StoreAll([], RewriteFiles(TemplateFiles(template, ""), st)) == RewriteFiles(TemplateFiles(template, ""), st)
    ensures |StoreAll([], RewriteFiles(TemplateFiles(template, ""), st))| == FileCount(template)
  {
    StoreAllDistinct([], RewriteFiles(TemplateFiles(template, ""), st));
    TemplateFilesCount(template, "");
  }
}
