/** The file manager: reading, writing and creating files, checksums,
    previews and resolution of paths proposed by the provider. The file
    system is the state the manager changes; it is a map from the path
    strings the manager is given to the bytes stored there. */
module Operations {
  import opened GoText
  import opened Types
  import opened Paths

  datatype FileError =
    | NotFound(path: string)
      /** the slice expression of an insert panics: offset outside the file */
    | OffsetOutOfRange(offset: int, length: nat)
    | UnsupportedMode(mode: string)
    | OutsideProject(target: string)

  type Files = map<string, Bytes>

  function BackupPath(path: string): (b: string)
    ensures b != path
  {
    path + ".bak"
  }

  /** `os.Stat` then `os.Rename(path, path + ".bak")`: an existing file moves
      to its backup, replacing any earlier backup. */
  function Backup(files: Files, path: string): (r: Files)
    ensures path !in r
    ensures path in files ==> BackupPath(path) in r && r[BackupPath(path)] == files[path]
    ensures path !in files ==> r == files
    ensures forall q :: q != path && q != BackupPath(path) ==>
      (q in r <==> q in files) && (q in r ==> r[q] == files[q])
  {
    if path in files then (files - {path})[BackupPath(path) := files[path]] else files
  }

  /** `os.ReadFile`. */
  function ReadBytes(files: Files, path: string): (r: Result<Bytes, FileError>)
    ensures r.Ok? <==> path in files
    ensures r.Err? ==> r.error == NotFound(path)
  {
    if path in files then Ok(files[path]) else Err(NotFound(path))
  }

  /** `string(current[:offset]) + text + string(current[offset:])`. */
  function InsertAt(current: Bytes, offset: int, text: Bytes): (r: Result<Bytes, FileError>)
    ensures r.Ok? <==> 0 <= offset <= |current|
    ensures r.Ok? ==> (|r.value| == |current| + |text|
      && r.value[..offset] == current[..offset]
      && r.value[offset..offset + |text|] == text
      && r.value[offset + |text|..] == current[offset..])
  {
    if 0 <= offset <= |current| then Ok(current[..offset] + text + current[offset..])
    else Err(OffsetOutOfRange(offset, |current|))
  }

  /** Opening with `O_APPEND|O_WRONLY` and no `O_CREATE`, then writing. */
  function AppendTo(files: Files, path: string, text: Bytes): (r: Result<Files, FileError>)
    ensures r.Ok? <==> path in files
    ensures r.Ok? ==> r.value == files[path := files[path] + text]
  {
    if path in files then Ok(files[path := files[path] + text]) else Err(NotFound(path))
  }

  /** The effect of `WriteFile(op)`: the new file system and the error. */
  function WriteEffect(files: Files, op: FileOperation): (Files, Option<FileError>)
  {
    var moved := Backup(files, op.path);
    var text := Utf8(op.content);
    if op.mode == "replace" then (moved[op.path := text], None)
    else if op.mode == "insert" then
      match ReadBytes(moved, BackupPath(op.path))
      case Err(e) => (moved, Some(e))
      case Ok(current) =>
        match InsertAt(current, op.offset, text)
        case Err(e) => (moved, Some(e))
        case Ok(spliced) => (moved[op.path := spliced], None)
    else if op.mode == "append" then
      match AppendTo(moved, op.path, text)
      case Err(e) => (moved, Some(e))
      case Ok(appended) => (appended, None)
    else (moved, Some(UnsupportedMode(op.mode)))
  }

  /** Whatever the mode, an existing file is first moved to its backup, and
      no path other than the file and its backup changes. */
  lemma WriteBacksUpFirst(files: Files, op: FileOperation)
    ensures var (r, _) := WriteEffect(files, op);
      (op.path in files ==> BackupPath(op.path) in r && r[BackupPath(op.path)] == files[op.path])
      && forall q :: q != op.path && q != BackupPath(op.path) ==>
        (q in r <==> q in files) && (q in r ==> r[q] == files[q])
  {
  }

  /** A replace always succeeds and leaves exactly the new text. */
  lemma WriteReplace(files: Files, op: FileOperation)
    requires op.mode == "replace"
    ensures var (r, err) := WriteEffect(files, op);
      err == None && op.path in r && r[op.path] == Utf8(op.content)
  {
  }

  /** An in-range insert splices the text in at the byte offset of the
      file it reads (the file itself, or else an earlier backup), and
      cutting the inserted bytes out again gives the backup. */
  lemma WriteInsert(files: Files, op: FileOperation)
    requires op.mode == "insert"
    ensures var (r, err) := WriteEffect(files, op);
      var text := Utf8(op.content);
      var bak := BackupPath(op.path);
      var source := if op.path in files then Some(files[op.path])
                    else if bak in files then Some(files[bak]) else None;
      source.Some? && 0 <= op.offset <= |source.value| ==>
        && err == None && op.path in r && bak in r
        && r[op.path] == source.value[..op.offset] + text + source.value[op.offset..]
        && r[bak] == source.value
        && r[op.path][..op.offset] + r[op.path][op.offset + |text|..] == r[bak]
  {
  }

  /** When an insert fails, and why: no backup to read (the file and any
      earlier backup are both absent), or an offset outside the file read;
      the file read is the old backup when the file itself did not exist. */
  lemma WriteInsertErrors(files: Files, op: FileOperation)
    requires op.mode == "insert"
    ensures var (r, err) := WriteEffect(files, op);
      var bak := BackupPath(op.path);
      var source := if op.path in files then Some(files[op.path])
                    else if bak in files then Some(files[bak]) else None;
      (source == None <==> err == Some(NotFound(bak)))
      && (source.Some? ==>
        (err == None <==> 0 <= op.offset <= |source.value|)
        && (err != None ==> err == Some(OffsetOutOfRange(op.offset, |source.value|))))
  {
  }

  /** An append can never succeed: the file it opens was just moved away,
      and it is not re-created. */
  lemma WriteAppendAlwaysFails(files: Files, op: FileOperation)
    requires op.mode == "append"
    ensures var (r, err) := WriteEffect(files, op);
      err == Some(NotFound(op.path)) && op.path !in r
  {
  }

  /** An unknown mode is rejected only after the backup has been made. */
  lemma WriteUnsupportedAfterBackup(files: Files, op: FileOperation)
    requires op.mode != "replace" && op.mode != "insert" && op.mode != "append"
    ensures var (r, err) := WriteEffect(files, op);
      err == Some(UnsupportedMode(op.mode)) && r == Backup(files, op.path)
  {
  }

  /** Every failed write leaves the target path empty: what was there is
      only in the backup. */
  lemma WriteFailureRemovesFile(files: Files, op: FileOperation)
    ensures var (r, err) := WriteEffect(files, op);
      err.Some? ==> op.path !in r && (op.path in files ==> r[BackupPath(op.path)] == files[op.path])
  {
  }

  /** The length cap and the half kept at each end. */
  const MaxPreview := 300
  const PreviewHalf := 150

  /** The line that replaces the middle of a long preview. */
  const PreviewMarker: string := "\n... [截断] ...\n"

  /** The marker's UTF-8 bytes: the two CJK characters take three each. */
  const PreviewMarkerBytes: Bytes :=
    [10, 46, 46, 46, 32, 91, 0xE6, 0x88, 0xAA, 0xE6, 0x96, 0xAD, 93, 32, 46, 46, 46, 10]

  /** The marker is written out as the UTF-8 encoding of the marker text. */
  lemma PreviewMarkerEncoding()
    ensures Utf8(PreviewMarker) == PreviewMarkerBytes
  {
    var dots := "\n... [";
    var tail := "] ...\n";
    assert PreviewMarker == dots + "截断" + tail;
    MarkerAsciiParts();
    MarkerWideChars();
    Utf8Append(dots, "截断");
    Utf8Append(dots + "截断", tail);
    MarkerBytesSplit();
  }

  lemma MarkerAsciiParts()
    ensures Utf8("\n... [") == [10, 46, 46, 46, 32, 91]
    ensures Utf8("] ...\n") == [93, 32, 46, 46, 46, 10]
  {
    Utf8Ascii("\n... [");
    Utf8Ascii("] ...\n");
  }

  lemma MarkerWideChars()
    ensures Utf8("截断") == [0xE6, 0x88, 0xAA, 0xE6, 0x96, 0xAD]
  {
    Utf8Single('截');
    Utf8Single('断');
    assert "截断" == "截" + "断";
    Utf8Append("截", "断");
  }

  lemma MarkerBytesSplit()
    ensures PreviewMarkerBytes
      == [10, 46, 46, 46, 32, 91] + [0xE6, 0x88, 0xAA, 0xE6, 0x96, 0xAD] + [93, 32, 46, 46, 46, 10]
  {
  }

  class FileManager {
    /** The file system the manager reads and changes. */
    var files: Files
    /** The process's working directory, as `os.Getwd()` reports it. */
    const cwd: AbsolutePath
    /** `sha256.Sum256`: the digest is a parameter of the model. */
    const digest: Bytes -> Bytes

    constructor(files: Files, cwd: AbsolutePath, digest: Bytes -> Bytes)
      ensures this.files == files && this.cwd == cwd && this.digest == digest
    {
      this.files := files;
      this.cwd := cwd;
      this.digest := digest;
    }

    /** Lower-case hex of the digest of the bytes. */
    function CalculateChecksum(content: Bytes): (sum: string)
      ensures |sum| == 2 * |digest(content)|
      ensures forall k :: 0 <= k < |sum| ==> HexValue(sum[k]) < 16
    {
      HexEncode(digest(content))
    }

    /** The checksum loses nothing: it decodes back to the digest. */
    lemma ChecksumDecodes(content: Bytes)
      ensures HexDecode(CalculateChecksum(content)) == digest(content)
    {
      HexRoundTrip(digest(content));
    }

    /** The bytes of the file and their checksum. */
    function ReadFile(path: string): (r: Result<(Bytes, string), FileError>)
      reads this
      ensures r.Ok? <==> path in files
      ensures r.Err? ==> r.error == NotFound(path)
      ensures r.Ok? ==> r.value == (files[path], CalculateChecksum(files[path]))
    {
      match ReadBytes(files, path)
      case Err(e) => Err(e)
      case Ok(data) => Ok((data, CalculateChecksum(data)))
    }

    method WriteFile(op: FileOperation) returns (err: Option<FileError>)
      modifies this
      ensures (files, err) == WriteEffect(old(files), op)
    {
      var bak := BackupPath(op.path);
      if op.path in files {
        files := (files - {op.path})[bak := files[op.path]];
      }
      var text := Utf8(op.content);
      if op.mode == "replace" {
        files := files[op.path := text];
        err := None;
      } else if op.mode == "insert" {
        var current := ReadBytes(files, bak);
        if current.Err? {
          err := Some(current.error);
        } else {
          var spliced := InsertAt(current.value, op.offset, text);
          if spliced.Err? {
            err := Some(spliced.error);
          } else {
            files := files[op.path := spliced.value];
            err := None;
          }
        }
      } else if op.mode == "append" {
        var appended := AppendTo(files, op.path, text);
        if appended.Err? {
          err := Some(appended.error);
        } else {
          files := appended.value;
          err := None;
        }
      } else {
        err := Some(UnsupportedMode(op.mode));
      }
    }

    method CreateFile(path: string, content: string)
      modifies this
      ensures files == old(files)[path := Utf8(content)]
    {
      files := files[path := Utf8(content)];
    }

    /** Reading a file just created gives its UTF-8 content and the
        checksum of that content; no other file changes. */
    method CreateThenRead(path: string, content: string)
      returns (got: Result<(Bytes, string), FileError>)
      modifies this
      ensures got == Ok((Utf8(content), CalculateChecksum(Utf8(content))))
      ensures forall q :: q != path ==> (q in files <==> q in old(files))
      ensures forall q :: q != path && q in files ==> files[q] == old(files)[q]
    {
      CreateFile(path, content);
      got := ReadFile(path);
    }

    /** A short text is shown whole; a long one as its first and last 150
        bytes around a marker. */
    function PreviewContent(content: Bytes): (r: Bytes)
      ensures |content| <= MaxPreview ==> r == content
      ensures |content| > MaxPreview ==>
        (|r| == 2 * PreviewHalf + |PreviewMarkerBytes|
        && r[..PreviewHalf] == content[..PreviewHalf]
        && r[PreviewHalf..|r| - PreviewHalf] == PreviewMarkerBytes
        && r[|r| - PreviewHalf..] == content[|content| - PreviewHalf..])
    {
      if |content| <= MaxPreview then content
      else content[..PreviewHalf] + PreviewMarkerBytes + content[|content| - PreviewHalf..]
    }

    /** A preview is never longer than 318 bytes. */
    lemma PreviewBounded(content: Bytes)
      ensures |PreviewContent(content)| <= 318
    {
    }

    /** Join the target onto the base and accept it when its absolute form
        starts with the absolute base, compared character by character. */
    function ResolvePath(basePath: string, targetPath: string): (r: Result<string, FileError>)
      ensures r.Err? ==> r.error == OutsideProject(targetPath)
    {
      var fullPath := Join(basePath, targetPath);
      var absBase := Abs(cwd, basePath);
      var absFull := Abs(cwd, fullPath);
      if !HasPrefix(absFull, absBase) then Err(OutsideProject(targetPath)) else Ok(absFull)
    }

    /** An accepted path is absolute, already clean, free of `..`, and starts
        with the absolute base. */
    lemma ResolvedIsCanonical(basePath: string, targetPath: string)
      ensures var r := ResolvePath(basePath, targetPath);
        r.Ok? ==> (IsAbs(r.value) && Clean(r.value) == r.value && ".." !in Split(r.value)
          && HasPrefix(r.value, Abs(cwd, basePath)))
    {
      AbsCanonical(cwd, Join(basePath, targetPath));
    }

    /** Under an absolute base, every target without a `..` segment is
        accepted, as the cleaned concatenation of base and target. */
    lemma ResolveAcceptsDescendants(basePath: string, targetPath: string)
      requires IsAbs(basePath)
      requires ".." !in Split(targetPath)
      ensures ResolvePath(basePath, targetPath) == Ok(Clean(basePath + "/" + targetPath))
    {
      var full := basePath + "/" + targetPath;
      assert IsAbs(full);
      CleanIsAbs(full);
      CleanIdempotent(full);
      CleanExtends(basePath, targetPath);
    }

    /** Climbing out of the project is refused. */
    lemma ResolveRejectsEscape()
      ensures ResolvePath("/proj", "../etc") == Err(OutsideProject("../etc"))
    {
      CleanProject();
      CleanEscape();
      CleanEtc();
    }

    /** The check compares characters, not path segments: a sibling
        directory whose name extends the project's name is accepted. */
    lemma ResolveAcceptsSibling()
      ensures ResolvePath("/proj", "../proj2") == Ok("/proj2")
    {
      CleanProject();
      CleanSibling();
      CleanSiblingResult();
    }
  }

  lemma CleanProject()
    ensures Clean("/proj") == "/proj"
  {
    assert Render(["proj"], true) == "/proj";
    CleanRenderRooted(["proj"]);
  }

  /** Cleaning a rooted path whose segments are known. */
  lemma CleanFromSegments(p: string, segs: seq<string>, st: seq<string>)
    requires |segs| >= 1 && forall k :: 0 <= k < |segs| ==> '/' !in segs[k]
    requires JoinSegs(segs) == p && IsAbs(p)
    requires Fold([], segs, true) == st
    ensures Clean(p) == Render(st, true)
  {
    SplitJoin(segs);
  }

  lemma CleanEscape()
    ensures Clean("/proj" + "/" + "../etc") == "/etc"
  {
    EscapeJoin();
    EscapeFold();
    CleanFromSegments("/proj" + "/" + "../etc", ["", "proj", "..", "etc"], ["etc"]);
    assert Render(["etc"], true) == "/etc";
  }

  lemma EscapeJoin()
    ensures JoinSegs(["", "proj", "..", "etc"]) == "/proj" + "/" + "../etc"
  {
    JoinCons("..", ["etc"]);
    JoinCons("proj", ["..", "etc"]);
    JoinCons("", ["proj", "..", "etc"]);
  }

  lemma EscapeFold()
    ensures Fold([], ["", "proj", "..", "etc"], true) == ["etc"]
  {
    FoldCons([], "", ["proj", "..", "etc"], true);
    FoldCons([], "proj", ["..", "etc"], true);
    FoldCons(["proj"], "..", ["etc"], true);
    FoldCons([], "etc", [], true);
  }

  lemma CleanEtc()
    ensures Clean("/etc") == "/etc"
  {
    assert Render(["etc"], true) == "/etc";
    CleanRenderRooted(["etc"]);
  }

  lemma CleanSibling()
    ensures Clean("/proj" + "/" + "../proj2") == "/proj2"
  {
    SiblingJoin();
    SiblingFold();
    CleanFromSegments("/proj" + "/" + "../proj2", ["", "proj", "..", "proj2"], ["proj2"]);
    assert Render(["proj2"], true) == "/proj2";
  }

  lemma SiblingJoin()
    ensures JoinSegs(["", "proj", "..", "proj2"]) == "/proj" + "/" + "../proj2"
  {
    JoinCons("..", ["proj2"]);
    JoinCons("proj", ["..", "proj2"]);
    JoinCons("", ["proj", "..", "proj2"]);
  }

  lemma SiblingFold()
    ensures Fold([], ["", "proj", "..", "proj2"], true) == ["proj2"]
  {
    FoldCons([], "", ["proj", "..", "proj2"], true);
    FoldCons([], "proj", ["..", "proj2"], true);
    FoldCons(["proj"], "..", ["proj2"], true);
    FoldCons([], "proj2", [], true);
  }

  lemma CleanSiblingResult()
    ensures Clean("/proj2") == "/proj2"
  {
    assert Render(["proj2"], true) == "/proj2";
    CleanRenderRooted(["proj2"]);
  }
}
