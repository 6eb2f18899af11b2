/** The file manager's decisions (src/main/services/FileManager.ts) over an
    abstract file system: a map from path to what `stat` and `access` report
    for it, and the rows of the `audio_file` table. What an I/O call that can
    fail for reasons outside the model answers (a copy, a database insert) is
    given to each operation. */
module Files {
  import opened Types
  import opened Text

  /** `supportedFormats`, compared with the lower-cased extension. */
  const SupportedFormats: seq<string> := [".mp3", ".wav", ".m4a", ".flac", ".aac", ".ogg"]

  /** `maxFileSize`: 100 MiB. */
  const MaxFileSize: nat := 100 * 1024 * 1024

  /** Temporary files older than this many milliseconds (7 days) are removed. */
  const MaxTempAge: nat := 7 * 24 * 60 * 60 * 1000

  /** `getAvailableSpace` answers a fixed 1 GiB. */
  const AvailableSpace: nat := 1024 * 1024 * 1024

  const CopyFailed := "复制音频文件失败"
  const InfoFailed := "获取音频文件信息失败"
  const DeleteFailed := "删除音频文件失败"
  const CleanupFailed := "清理临时文件失败"

  /** What `stat` and `access` report about one regular file. */
  datatype FileData = FileData(size: nat, mtime: int, readable: bool, writable: bool)

  type FileSystem = map<string, FileData>

  function Find(fs: FileSystem, path: string): (f: Option<FileData>)
    ensures f.Some? <==> path in fs
    ensures f.Some? ==> f.value == fs[path]
  {
    if path in fs then Some(fs[path]) else None
  }

  /** `path.join(dir, name)` for a normalised directory and a plain name. */
  function Join(dir: string, name: string): string
  {
    dir + "/" + name
  }

  // ---------------------------------------------------------------------
  // POSIX `path.basename` and `path.extname`
  // ---------------------------------------------------------------------

  function TrimTrailingSlashes(p: string): (r: string)
    ensures |r| <= |p| && r == p[..|r|]
    ensures r == [] || r[|r| - 1] != '/'
    ensures forall i :: |r| <= i < |p| ==> p[i] == '/'
    decreases |p|
  {
    if p != [] && p[|p| - 1] == '/' then TrimTrailingSlashes(p[..|p| - 1]) else p
  }

  /** The index of the last occurrence of `c` in `s`. */
  function LastIndex(s: string, c: char): (k: Option<nat>)
    ensures k.Some? ==> k.value < |s| && s[k.value] == c && forall j :: k.value < j < |s| ==> s[j] != c
    ensures k.None? ==> forall j :: 0 <= j < |s| ==> s[j] != c
    decreases |s|
  {
    if s == [] then None else if s[|s| - 1] == c then Some(|s| - 1) else LastIndex(s[..|s| - 1], c)
  }

  /** `path.basename(p)`: the part after the last '/', trailing slashes ignored. */
  function Basename(p: string): (b: string)
    ensures forall i :: 0 <= i < |b| ==> b[i] != '/'
  {
    var t := TrimTrailingSlashes(p);
    var k := LastIndex(t, '/');
    if k.None? then t else t[k.value + 1..]
  }

  /** `path.extname(p)`: from the last '.' of the base name to its end; empty
      when the base name has no '.', when its only '.' leads it (a hidden
      file such as ".ogg"), or when it is "..". */
  function ExtName(p: string): (e: string)
    ensures e == [] || (e[0] == '.' && forall j :: 1 <= j < |e| ==> e[j] != '.' && e[j] != '/')
  {
    var b := Basename(p);
    var k := LastIndex(b, '.');
    if k.None? || k.value == 0 || b == ".." then "" else b[k.value..]
  }

  /** A non-empty extension is a proper suffix of the base name. */
  lemma ExtNameEndsBasename(p: string)
    ensures var e := ExtName(p);
      e != [] ==> |e| < |Basename(p)| && Basename(p)[|Basename(p)| - |e|..] == e
  {
  }

  /** The base name of a path is its last component. */
  lemma BasenameOf(dir: string, name: string)
    requires name != [] && forall j :: 0 <= j < |name| ==> name[j] != '/'
    ensures Basename(dir + "/" + name) == name
  {
    var p := dir + "/" + name;
    assert p == dir + ['/'] + name;
    assert p[|p| - 1] == name[|name| - 1];
    assert TrimTrailingSlashes(p) == p;
    LastIndexAfter(dir, '/', name);
    assert p[|dir| + 1..] == name;
  }

  /** The extension is the last '.' of the base name and what follows it,
      whatever dots the directory or the stem hold. */
  lemma ExtNameOf(dir: string, stem: string, ext: string)
    requires stem != [] && forall j :: 0 <= j < |stem| ==> stem[j] != '/'
    requires forall j :: 0 <= j < |ext| ==> ext[j] != '/' && ext[j] != '.'
    requires stem + "." + ext != ".."
    ensures ExtName(dir + "/" + stem + "." + ext) == "." + ext
  {
    var b := stem + "." + ext;
    assert b == stem + ['.'] + ext;
    assert forall j :: 0 <= j < |b| ==> b[j] != '/' by {
      forall j | 0 <= j < |b| ensures b[j] != '/' {
        if j < |stem| { assert b[j] == stem[j]; }
        else if j > |stem| { assert b[j] == ext[j - |stem| - 1]; }
      }
    }
    assert dir + "/" + stem + "." + ext == dir + "/" + b;
    BasenameOf(dir, b);
    LastIndexAfter(stem, '.', ext);
    assert b[|stem|..] == "." + ext;
  }

  /** A base name whose only dot leads it (a hidden file such as ".ogg") has
      no extension. */
  lemma ExtNameOfHiddenFile(dir: string, ext: string)
    requires forall j :: 0 <= j < |ext| ==> ext[j] != '/' && ext[j] != '.'
    ensures ExtName(dir + "/." + ext) == ""
  {
    var b := "." + ext;
    assert forall j :: 0 <= j < |b| ==> b[j] != '/' by {
      forall j | 0 <= j < |b| ensures b[j] != '/' {
        if j > 0 { assert b[j] == ext[j - 1]; }
      }
    }
    assert dir + "/." + ext == dir + "/" + b;
    BasenameOf(dir, b);
    LastIndexAfter([], '.', ext);
    assert [] + ['.'] + ext == b;
  }

  /** A dot in a directory name is not an extension. */
  lemma ExtNameIgnoresDirectories(dir: string, name: string)
    requires name != [] && forall j :: 0 <= j < |name| ==> name[j] != '/' && name[j] != '.'
    ensures ExtName(dir + "/" + name) == ""
  {
    BasenameOf(dir, name);
  }

  /** Trailing slashes do not hide the base name or the extension. */
  lemma ExtNameIgnoresTrailingSlash(p: string)
    ensures Basename(p + "/") == Basename(p)
    ensures ExtName(p + "/") == ExtName(p)
  {
    assert (p + "/")[..|p + "/"| - 1] == p;
  }

  /** The last `c` is the one before a suffix free of `c`. */
  lemma {:induction false} LastIndexAfter(pre: string, c: char, suf: string)
    requires forall j :: 0 <= j < |suf| ==> suf[j] != c
    ensures LastIndex(pre + [c] + suf, c) == Some(|pre|)
    decreases |suf|
  {
    if suf != [] {
      var init := suf[..|suf| - 1];
      assert (pre + [c] + suf)[..|pre + [c] + suf| - 1] == pre + [c] + init;
      LastIndexAfter(pre, c, init);
    }
  }

  // ---------------------------------------------------------------------
  // validateAudioFile and getAudioFileInfo
  // ---------------------------------------------------------------------

  /** Why a file is refused, in the order the checks run. */
  datatype Rejection = Missing | Unreadable | Unsupported(ext: string) | TooLarge(size: nat) | Empty

  /** The first check `validateAudioFile` fails, or None when it returns true. */
  function Screen(path: string, file: Option<FileData>): (r: Option<Rejection>)
    ensures r == Some(Missing) <==> file.None?
    ensures r == Some(Unreadable) <==> file.Some? && !file.value.readable
    ensures r.None? ==> file.Some? && file.value.readable && Lower(ExtName(path)) in SupportedFormats
                        && 0 < file.value.size <= MaxFileSize
  {
    if file.None? then Some(Missing)
    else if !file.value.readable then Some(Unreadable)
    else if Lower(ExtName(path)) !in SupportedFormats then Some(Unsupported(Lower(ExtName(path))))
    else if file.value.size > MaxFileSize then Some(TooLarge(file.value.size))
    else if file.value.size == 0 then Some(Empty)
    else None
  }

  /** A readable file with a supported extension of any letter case is
      accepted exactly when its size is in 1..100 MiB: exactly 100 MiB passes,
      one byte more or an empty file does not. */
  lemma SizeBoundary(path: string, f: FileData)
    requires f.readable && Lower(ExtName(path)) in SupportedFormats
    ensures Screen(path, Some(f)).None? <==> 0 < f.size <= MaxFileSize
    ensures Screen(path, Some(f.(size := MaxFileSize))).None?
    ensures Screen(path, Some(f.(size := MaxFileSize + 1))) == Some(TooLarge(104857601))
    ensures Screen(path, Some(f.(size := 0))) == Some(Empty)
  {
  }

  /** The extension is compared without regard to ASCII letter case: any
      spelling of a supported extension passes. */
  lemma AnyCaseExtensionAccepted(dir: string, stem: string, ext: string, f: FileData)
    requires stem != [] && forall j :: 0 <= j < |stem| ==> stem[j] != '/'
    requires forall j :: 0 <= j < |ext| ==> ext[j] != '/' && ext[j] != '.'
    requires stem + "." + ext != ".."
    requires Lower("." + ext) in SupportedFormats
    requires f.readable && 0 < f.size <= MaxFileSize
    ensures Screen(dir + "/" + stem + "." + ext, Some(f)).None?
  {
    ExtNameOf(dir, stem, ext);
  }

  /** A readable hidden file such as ".ogg" has no extension and is refused. */
  lemma HiddenFileRefused(dir: string, ext: string, f: FileData)
    requires forall j :: 0 <= j < |ext| ==> ext[j] != '/' && ext[j] != '.'
    requires f.readable
    ensures Screen(dir + "/." + ext, Some(f)) == Some(Unsupported(""))
  {
    ExtNameOfHiddenFile(dir, ext);
    assert Lower("") == "";
  }

  /** `getAudioFileInfo().format`: the lower-cased extension without its dot. */
  function FormatOf(path: string): (f: string)
    ensures |f| + 1 == |ExtName(path)| || (f == [] && ExtName(path) == [])
  {
    var e := Lower(ExtName(path));
    if e == [] then [] else e[1..]
  }

  /** Every accepted file has one of the six formats, and the format with a
      leading dot is the file's lower-cased extension. */
  lemma AcceptedFormat(path: string, file: Option<FileData>)
    requires Screen(path, file).None?
    ensures FormatOf(path) in ["mp3", "wav", "m4a", "flac", "aac", "ogg"]
    ensures "." + FormatOf(path) == Lower(ExtName(path))
  {
    SupportedWithoutDot(Lower(ExtName(path)));
  }

  lemma SupportedWithoutDot(e: string)
    requires e in SupportedFormats
    ensures e != [] && e[1..] in ["mp3", "wav", "m4a", "flac", "aac", "ogg"] && e == "." + e[1..]
  {
    if e == ".mp3" { assert e[1..] == "mp3"; }
    else if e == ".wav" { assert e[1..] == "wav"; }
    else if e == ".m4a" { assert e[1..] == "m4a"; }
    else if e == ".flac" { assert e[1..] == "flac"; }
    else if e == ".aac" { assert e[1..] == "aac"; }
    else { assert e[1..] == "ogg"; }
  }

  /** The media facts `getAudioFileInfo` reports (fixed defaults until a
      media probe exists) and the file's size. */
  datatype AudioFileInfo = AudioFileInfo(
    duration: nat,
    format: string,
    sampleRate: nat,
    channels: nat,
    bitRate: nat,
    fileSize: nat)

  /** `getAudioFileInfo`: fails only when `stat` does. */
  function FileInfo(fs: FileSystem, path: string): (r: Result<AudioFileInfo>)
    ensures r.Err? <==> path !in fs
    ensures r.Err? ==> r.error == FileError(InfoFailed)
    ensures r.Ok? ==> r.value.fileSize == fs[path].size && r.value.format == FormatOf(path)
                      && r.value.duration == 0 && r.value.sampleRate == 44100
                      && r.value.channels == 2 && r.value.bitRate == 128000
  {
    if path !in fs then Err(FileError(InfoFailed))
    else Ok(AudioFileInfo(0, FormatOf(path), 44100, 2, 128000, fs[path].size))
  }

  // ---------------------------------------------------------------------
  // copyAudioFile
  // ---------------------------------------------------------------------

  /** The name a copy first tries: the task id and the source's extension,
      in its original letter case. */
  function CopyTarget(audioDir: string, taskId: string, ext: string): string
  {
    Join(audioDir, taskId + ext)
  }

  /** The name used when `CopyTarget` is taken: the task id, '_', the
      millisecond clock and the extension. */
  function RenamedTarget(audioDir: string, taskId: string, ext: string, now: nat): string
  {
    Join(audioDir, taskId + "_" + NatToString(now) + ext)
  }

  /** `copyAudioFile`: the path written and the file system after it.
      `copied` is whether the copy itself succeeds; a missing or unreadable
      source always fails. The written file has the source's size and the
      clock as its modification time. The renamed path is written without
      checking it is free, and the size comparison after the first-choice
      copy always agrees here, since a copy keeps the size. */
  function CopySpec(fs: FileSystem, audioDir: string, source: string, taskId: string, copied: bool, now: nat)
    : (FileSystem, Result<string>)
  {
    if source !in fs || !fs[source].readable || !copied then (fs, Err(FileError(CopyFailed)))
    else
      var target := ChosenTarget(fs, audioDir, taskId, ExtName(source), now);
      (fs[target := FileData(fs[source].size, now, true, true)], Ok(target))
  }

  /** The first choice when it is free, the renamed path otherwise. */
  function ChosenTarget(fs: FileSystem, audioDir: string, taskId: string, ext: string, now: nat): string
  {
    if CopyTarget(audioDir, taskId, ext) in fs then RenamedTarget(audioDir, taskId, ext, now)
    else CopyTarget(audioDir, taskId, ext)
  }

  /** A copy fails exactly when the source is missing or unreadable or the
      copy itself fails, and then changes nothing. */
  lemma CopyFailure(fs: FileSystem, audioDir: string, source: string, taskId: string, copied: bool, now: nat)
    ensures var (fs', r) := CopySpec(fs, audioDir, source, taskId, copied, now);
      (r.Err? <==> source !in fs || !fs[source].readable || !copied) && (r.Err? ==> fs' == fs)
  {
  }

  /** A successful copy adds one file with the source's size and changes no
      other file; a free first choice is taken, and a taken one is never
      overwritten. */
  lemma CopyPlacesFile(fs: FileSystem, audioDir: string, source: string, taskId: string, now: nat)
    requires source in fs && fs[source].readable
    ensures var t := ChosenTarget(fs, audioDir, taskId, ExtName(source), now);
      CopySpec(fs, audioDir, source, taskId, true, now) == (fs[t := FileData(fs[source].size, now, true, true)], Ok(t))
    ensures var t := CopySpec(fs, audioDir, source, taskId, true, now).1.value;
      var fs' := CopySpec(fs, audioDir, source, taskId, true, now).0;
      && t in fs' && fs'[t].size == fs[source].size
      && fs'.Keys == fs.Keys + {t}
      && (forall p :: p in fs && p != t ==> fs'[p] == fs[p])
    ensures var first := CopyTarget(audioDir, taskId, ExtName(source));
      var t := CopySpec(fs, audioDir, source, taskId, true, now).1.value;
      && (first !in fs ==> t == first)
      && (first in fs ==> t == RenamedTarget(audioDir, taskId, ExtName(source), now) && t != first)
  {
    RenamedDiffers(audioDir, taskId, ExtName(source), now);
  }

  /** The renamed path is never the first choice: it is longer. */
  lemma RenamedDiffers(audioDir: string, taskId: string, ext: string, now: nat)
    ensures RenamedTarget(audioDir, taskId, ext, now) != CopyTarget(audioDir, taskId, ext)
  {
    assert |RenamedTarget(audioDir, taskId, ext, now)| > |CopyTarget(audioDir, taskId, ext)|;
  }

  /** Every path a copy may write lies in the audio directory, starts with
      the task id and ends with the extension. */
  lemma TargetNames(fs: FileSystem, audioDir: string, taskId: string, ext: string, now: nat)
    ensures var t := ChosenTarget(fs, audioDir, taskId, ext, now);
      StartsWith(t, audioDir + "/" + taskId) && EndsWith(t, ext)
  {
    var head := audioDir + "/" + taskId;
    if CopyTarget(audioDir, taskId, ext) in fs {
      var mid := "_" + NatToString(now);
      assert RenamedTarget(audioDir, taskId, ext, now) == head + mid + ext;
      Framed(head, mid, ext);
    } else {
      assert CopyTarget(audioDir, taskId, ext) == head + [] + ext;
      Framed(head, [], ext);
    }
  }

  lemma Framed(head: string, mid: string, ext: string)
    ensures StartsWith(head + mid + ext, head) && EndsWith(head + mid + ext, ext)
  {
    var whole := head + mid + ext;
    assert whole[..|head|] == head;
    assert whole[|whole| - |ext|..] == ext;
  }

  // ---------------------------------------------------------------------
  // deleteAudioFile
  // ---------------------------------------------------------------------

  /** `DELETE FROM audio_file WHERE filePath = ?`. */
  function WithoutPath(rows: seq<AudioFile>, path: string): (r: seq<AudioFile>)
    ensures |r| <= |rows|
    ensures forall x :: x in r <==> x in rows && x.filePath != path
  {
    if rows == [] then []
    else if rows[0].filePath == path then WithoutPath(rows[1..], path)
    else [rows[0]] + WithoutPath(rows[1..], path)
  }

  /** `deleteAudioFile`: a missing path is a quiet no-op; a file without
      write permission, or one whose unlink fails (`unlinked` false), fails
      with 删除音频文件失败 and changes nothing; otherwise the file goes and,
      unless the database refuses (`dbOk` false, an error that is only
      logged), its rows go too. */
  function DeleteSpec(fs: FileSystem, rows: seq<AudioFile>, path: string, unlinked: bool, dbOk: bool)
    : (FileSystem, seq<AudioFile>, Result<()>)
  {
    if path !in fs then (fs, rows, Ok(()))
    else if !fs[path].writable || !unlinked then (fs, rows, Err(FileError(DeleteFailed)))
    else (fs - {path}, if dbOk then WithoutPath(rows, path) else rows, Ok(()))
  }

  /** Deleting a path that does not exist succeeds and changes nothing; a
      successful deletion removes exactly that file and, when the database
      cooperates, every row pointing at it. */
  lemma DeleteOutcomes(fs: FileSystem, rows: seq<AudioFile>, path: string, unlinked: bool, dbOk: bool)
    ensures path !in fs ==> DeleteSpec(fs, rows, path, unlinked, dbOk) == (fs, rows, Ok(()))
    ensures path in fs && (!fs[path].writable || !unlinked) ==>
      DeleteSpec(fs, rows, path, unlinked, dbOk) == (fs, rows, Err(FileError(DeleteFailed)))
    ensures var (fs', rows', r) := DeleteSpec(fs, rows, path, unlinked, dbOk);
      path in fs && fs[path].writable && unlinked ==>
        && r.Ok? && path !in fs' && fs'.Keys == fs.Keys - {path}
        && (forall p :: p in fs' ==> fs'[p] == fs[p])
        && (dbOk ==> forall x :: x in rows' <==> x in rows && x.filePath != path)
        && (!dbOk ==> rows' == rows)
  {
  }

  // ---------------------------------------------------------------------
  // cleanupTempFiles
  // ---------------------------------------------------------------------

  /** Whether a file's age in milliseconds is strictly more than `maxAge`. */
  predicate Expired(f: FileData, now: int, maxAge: int)
  {
    now - f.mtime > maxAge
  }

  /** The progress of a cleanup: the file system, how many files and bytes
      were removed, and whether a `stat` has failed (which ends the sweep). */
  datatype Sweep = Sweep(files: FileSystem, deletedCount: nat, deletedSize: nat, ok: bool)

  function SweepStep(s: Sweep, path: string, now: int, maxAge: int): Sweep
  {
    if !s.ok then s
    else if path !in s.files then s.(ok := false)
    else if Expired(s.files[path], now, maxAge) then
      Sweep(s.files - {path}, s.deletedCount + 1, s.deletedSize + s.files[path].size, true)
    else s
  }

  /** The cleanup loop over the listed paths, in listing order, removing
      the files older than `maxAge`. */
  function SweepSpec(fs: FileSystem, paths: seq<string>, now: int, maxAge: int): Sweep
    decreases |paths|
  {
    if paths == [] then Sweep(fs, 0, 0, true)
    else SweepStep(SweepSpec(fs, paths[..|paths| - 1], now, maxAge), paths[|paths| - 1], now, maxAge)
  }

  /** The listed paths whose files are older than `maxAge`, in order. */
  function ExpiredPaths(fs: FileSystem, paths: seq<string>, now: int, maxAge: int): (r: seq<string>)
    decreases |paths|
  {
    if paths == [] then []
    else
      var p := paths[|paths| - 1];
      var rest := ExpiredPaths(fs, paths[..|paths| - 1], now, maxAge);
      if p in fs && Expired(fs[p], now, maxAge) then rest + [p] else rest
  }

  /** Only listed, existing, expired paths are selected. */
  lemma {:induction false} ExpiredPathsListed(fs: FileSystem, paths: seq<string>, now: int, maxAge: int, q: string)
    requires q in ExpiredPaths(fs, paths, now, maxAge)
    ensures q in paths && q in fs && Expired(fs[q], now, maxAge)
    decreases |paths|
  {
    var init := paths[..|paths| - 1];
    var last := paths[|paths| - 1];
    var rest := ExpiredPaths(fs, init, now, maxAge);
    if q != last || !(last in fs && Expired(fs[last], now, maxAge)) {
      assert q in rest;
      ExpiredPathsListed(fs, init, now, maxAge, q);
      assert q in init;
    }
  }

  function SizeOf(fs: FileSystem, paths: seq<string>): nat
    decreases |paths|
  {
    if paths == [] then 0
    else SizeOf(fs, paths[..|paths| - 1]) + (if paths[|paths| - 1] in fs then fs[paths[|paths| - 1]].size else 0)
  }

  predicate Distinct(paths: seq<string>)
  {
    forall i, j :: 0 <= i < j < |paths| ==> paths[i] != paths[j]
  }

  /** When every listed path exists and none is listed twice, the cleanup
      succeeds, removes exactly the files older than `maxAge` and no other,
      and its tallies count exactly those files and their bytes. */
  lemma {:induction false} SweepRemovesExactlyExpired(fs: FileSystem, paths: seq<string>, now: int, maxAge: int)
    requires Distinct(paths) && forall p :: p in paths ==> p in fs
    ensures var e := ExpiredPaths(fs, paths, now, maxAge);
      SweepSpec(fs, paths, now, maxAge) == Sweep(RemoveAll(fs, e), |e|, SizeOf(fs, e), true)
    decreases |paths|
  {
    if paths != [] {
      var init := paths[..|paths| - 1];
      var p := paths[|paths| - 1];
      DistinctInit(fs, paths);
      SweepRemovesExactlyExpired(fs, init, now, maxAge);
      var e0 := ExpiredPaths(fs, init, now, maxAge);
      if p in e0 {
        ExpiredPathsListed(fs, init, now, maxAge, p);
      }
      SweepOneMore(fs, e0, p, now, maxAge);
    }
  }

  lemma DistinctInit(fs: FileSystem, paths: seq<string>)
    requires paths != [] && Distinct(paths) && forall p :: p in paths ==> p in fs
    ensures var init := paths[..|paths| - 1];
      && Distinct(init) && (forall q :: q in init ==> q in fs)
      && paths[|paths| - 1] !in init && paths[|paths| - 1] in fs
  {
    var init := paths[..|paths| - 1];
    assert forall q :: q in init ==> q in paths;
    forall i | 0 <= i < |init| ensures init[i] != paths[|paths| - 1] {
      assert init[i] == paths[i];
    }
  }

  /** One more listed path, not removed before, in a sweep so far in step
      with `ExpiredPaths`. */
  lemma SweepOneMore(fs: FileSystem, e0: seq<string>, p: string, now: int, maxAge: int)
    requires p in fs && p !in e0
    ensures var before := Sweep(RemoveAll(fs, e0), |e0|, SizeOf(fs, e0), true);
      var e := e0 + [p];
      SweepStep(before, p, now, maxAge)
        == if Expired(fs[p], now, maxAge) then Sweep(RemoveAll(fs, e), |e|, SizeOf(fs, e), true) else before
  {
    RemoveAllKeeps(fs, e0, p);
    var e := e0 + [p];
    assert e[..|e| - 1] == e0 && e[|e| - 1] == p;
  }

  /** The file system without the given paths. */
  function RemoveAll(fs: FileSystem, paths: seq<string>): FileSystem
    decreases |paths|
  {
    if paths == [] then fs else RemoveAll(fs, paths[..|paths| - 1]) - {paths[|paths| - 1]}
  }

  /** A path survives `RemoveAll` exactly when it is not among the removed,
      and keeps its facts. */
  lemma {:induction false} RemoveAllKeeps(fs: FileSystem, paths: seq<string>, q: string)
    ensures q in RemoveAll(fs, paths) <==> q in fs && q !in paths
    ensures q in RemoveAll(fs, paths) ==> RemoveAll(fs, paths)[q] == fs[q]
    decreases |paths|
  {
    if paths != [] {
      var init := paths[..|paths| - 1];
      RemoveAllKeeps(fs, init, q);
      assert q in paths <==> q in init || q == paths[|paths| - 1];
    }
  }

  /** A sweep that ends well only ever met paths that existed before it. */
  lemma {:induction false} SweepOkOnlyIfListed(fs: FileSystem, paths: seq<string>, now: int, maxAge: int)
    ensures SweepSpec(fs, paths, now, maxAge).files.Keys <= fs.Keys
    ensures SweepSpec(fs, paths, now, maxAge).ok ==> forall p :: p in paths ==> p in fs
    decreases |paths|
  {
    if paths != [] {
      var init := paths[..|paths| - 1];
      SweepOkOnlyIfListed(fs, init, now, maxAge);
      assert forall p :: p in paths ==> p in init || p == paths[|paths| - 1];
    }
  }

  /** Files no older than `maxAge` survive any cleanup unchanged. */
  lemma {:induction false} SweepKeepsRecent(fs: FileSystem, paths: seq<string>, now: int, maxAge: int, q: string)
    requires q in fs && !Expired(fs[q], now, maxAge)
    ensures q in SweepSpec(fs, paths, now, maxAge).files && SweepSpec(fs, paths, now, maxAge).files[q] == fs[q]
    decreases |paths|
  {
    if paths != [] {
      SweepKeepsRecent(fs, paths[..|paths| - 1], now, maxAge, q);
    }
  }

  /** A path that is not listed is never touched. */
  lemma {:induction false} SweepKeepsUnlisted(fs: FileSystem, paths: seq<string>, now: int, maxAge: int, q: string)
    requires q !in paths
    ensures var r := SweepSpec(fs, paths, now, maxAge).files;
      (q in r <==> q in fs) && (q in fs ==> r[q] == fs[q])
    decreases |paths|
  {
    if paths != [] {
      var init := paths[..|paths| - 1];
      assert q !in init && q != paths[|paths| - 1];
      SweepKeepsUnlisted(fs, init, now, maxAge, q);
    }
  }

  /** Once a `stat` has failed, later paths change nothing. */
  lemma {:induction false} SweepStaysFailed(fs: FileSystem, paths: seq<string>, more: seq<string>, now: int, maxAge: int)
    requires !SweepSpec(fs, paths, now, maxAge).ok
    ensures SweepSpec(fs, paths + more, now, maxAge) == SweepSpec(fs, paths, now, maxAge)
    decreases |more|
  {
    if more == [] {
      assert paths + more == paths;
    } else {
      var init := more[..|more| - 1];
      assert (paths + more)[..|paths + more| - 1] == paths + init;
      SweepStaysFailed(fs, paths, init, now, maxAge);
    }
  }

  /** The listed names as paths under the temporary directory. */
  function TempPaths(tempDir: string, names: seq<string>): (r: seq<string>)
    ensures |r| == |names| && forall i :: 0 <= i < |names| ==> r[i] == Join(tempDir, names[i])
  {
    seq(|names|, i requires 0 <= i < |names| => Join(tempDir, names[i]))
  }

  /** The tallies a cleanup logs. */
  datatype Tally = Tally(deletedCount: nat, deletedSize: nat)

  // ---------------------------------------------------------------------
  // calculateDirectorySize and getStorageUsage
  // ---------------------------------------------------------------------

  /** A directory entry as `readdir` and `stat` see it: a regular file, a
      directory that can be listed, one that cannot, something else (which
      adds nothing), or an entry whose `stat` fails. */
  datatype Entry = File(size: nat) | Dir(children: seq<Entry>) | LockedDir | Special | Unstatable

  /** `calculateDirectorySize` of an existing path: 0 unless it is a listable
      directory, and 0 when the `stat` of one of its entries fails; a
      sub-directory's own failure only zeroes that sub-directory. */
  function EntrySize(e: Entry): nat
    decreases e, 1
  {
    match e
    case Dir(es) => if exists i :: 0 <= i < |es| && es[i].Unstatable? then 0 else ListingSize(e, es)
    case _ => 0
  }

  /** The sum over a prefix of `parent`'s entries: a file's size, a
      directory's own size, nothing for the rest. */
  function ListingSize(parent: Entry, es: seq<Entry>): nat
    requires parent.Dir? && es <= parent.children
    decreases parent, 0, |es|
  {
    if es == [] then 0
    else
      var last := es[|es| - 1];
      assert last == parent.children[|es| - 1];
      ListingSize(parent, es[..|es| - 1]) + (match last case File(s) => s case Dir(_) => EntrySize(last) case _ => 0)
  }

  /** `calculateDirectorySize`: 0 for a path that does not exist. */
  function DirectorySize(root: Option<Entry>): nat
  {
    if root.None? then 0 else EntrySize(root.value)
  }

  /** A tree where every `stat` and every listing succeeds. */
  predicate Healthy(e: Entry)
  {
    match e
    case File(_) => true
    case Dir(es) => forall i :: 0 <= i < |es| ==> Healthy(es[i])
    case Special => true
    case LockedDir => false
    case Unstatable => false
  }

  /** The sizes of all regular files anywhere below, in listing order. */
  function FileSizes(e: Entry): seq<nat>
    decreases e, 1
  {
    match e
    case File(s) => [s]
    case Dir(es) => ListingFileSizes(e, es)
    case _ => []
  }

  function ListingFileSizes(parent: Entry, es: seq<Entry>): seq<nat>
    requires parent.Dir? && es <= parent.children
    decreases parent, 0, |es|
  {
    if es == [] then []
    else
      var last := es[|es| - 1];
      assert last == parent.children[|es| - 1];
      ListingFileSizes(parent, es[..|es| - 1]) + FileSizes(last)
  }

  function Total(xs: seq<nat>): nat
  {
    if xs == [] then 0 else Total(xs[..|xs| - 1]) + xs[|xs| - 1]
  }

  lemma {:induction false} TotalAppend(a: seq<nat>, b: seq<nat>)
    ensures Total(a + b) == Total(a) + Total(b)
    decreases |b|
  {
    if b != [] {
      var init := b[..|b| - 1];
      assert (a + b)[..|a + b| - 1] == a + init;
      assert (a + b)[|a + b| - 1] == b[|b| - 1];
      TotalAppend(a, init);
    } else {
      assert a + b == a;
    }
  }

  /** In a healthy tree a directory's size is the sum of the sizes of all
      regular files at any depth below it. */
  lemma {:induction false} HealthySizeIsFileTotal(e: Entry)
    requires Healthy(e) && e.Dir?
    ensures EntrySize(e) == Total(FileSizes(e))
    decreases e, 1
  {
    ListingIsFileTotal(e, e.children);
  }

  lemma {:induction false} ListingIsFileTotal(parent: Entry, es: seq<Entry>)
    requires parent.Dir? && es <= parent.children && Healthy(parent)
    ensures ListingSize(parent, es) == Total(ListingFileSizes(parent, es))
    decreases parent, 0, |es|
  {
    if es != [] {
      var last := es[|es| - 1];
      assert last == parent.children[|es| - 1];
      ListingIsFileTotal(parent, es[..|es| - 1]);
      TotalAppend(ListingFileSizes(parent, es[..|es| - 1]), FileSizes(last));
      match last
      case File(s) => assert Total([s]) == Total([]) + s;
      case Dir(_) => HealthySizeIsFileTotal(last);
      case Special =>
      case LockedDir =>
      case Unstatable =>
    }
  }

  /** One entry whose `stat` fails zeroes its whole directory, while a
      sub-directory that cannot be listed only counts as empty. */
  lemma DirectoryErrors(files: seq<Entry>, sizes: seq<nat>)
    requires |files| == |sizes| && forall i :: 0 <= i < |files| ==> files[i] == File(sizes[i])
    ensures EntrySize(Dir(files + [Unstatable])) == 0
    ensures EntrySize(Dir(files + [LockedDir])) == EntrySize(Dir(files))
  {
    var withLocked := Dir(files + [LockedDir]);
    assert !exists i :: 0 <= i < |files| && files[i].Unstatable?;
    assert (files + [LockedDir])[..|files|] == files;
    assert (files + [Unstatable])[|files|].Unstatable?;
    SameListingSize(withLocked, Dir(files), files);
  }

  /** Two directories whose listings share a prefix agree on its size. */
  lemma {:induction false} SameListingSize(p: Entry, q: Entry, es: seq<Entry>)
    requires p.Dir? && q.Dir? && es <= p.children && es <= q.children
    ensures ListingSize(p, es) == ListingSize(q, es)
    decreases |es|
  {
    if es != [] {
      SameListingSize(p, q, es[..|es| - 1]);
    }
  }

  /** `calculateDirectorySize`, walking the listing with a running total and
      descending into sub-directories. */
  method CalculateDirectorySize(root: Option<Entry>) returns (total: nat)
    ensures total == DirectorySize(root)
  {
    if root.None? {
      return 0;
    }
    total := SizeOfEntry(root.value);
  }

  method SizeOfEntry(e: Entry) returns (total: nat)
    ensures total == EntrySize(e)
    decreases e
  {
    if !e.Dir? {
      return 0;
    }
    var es := e.children;
    total := 0;
    var i := 0;
    while i < |es|
      invariant 0 <= i <= |es|
      invariant (forall j :: 0 <= j < i ==> !es[j].Unstatable?)
      invariant total == ListingSize(e, es[..i])
    {
      var entry := es[i];
      assert es[..i + 1][..i] == es[..i];
      match entry {
        case Unstatable =>
          return 0;
        case File(s) =>
          total := total + s;
        case Dir(_) =>
          var sub := SizeOfEntry(entry);
          total := total + sub;
        case LockedDir =>
        case Special =>
      }
      i := i + 1;
    }
    assert es[..i] == es;
  }

  /** `getStorageUsage`. */
  datatype StorageUsage = StorageUsage(
    totalSize: nat,
    audioFilesSize: nat,
    transcriptionFilesSize: nat,
    tempFilesSize: nat,
    availableSpace: nat)

  /** `getStorageUsage` over snapshots of the application directory and its
      audio, transcription and temporary sub-directories. */
  method GetStorageUsage(app: Option<Entry>, audio: Option<Entry>, transcriptions: Option<Entry>, temp: Option<Entry>)
    returns (u: StorageUsage)
    ensures u.totalSize == DirectorySize(app) && u.audioFilesSize == DirectorySize(audio)
    ensures u.transcriptionFilesSize == DirectorySize(transcriptions) && u.tempFilesSize == DirectorySize(temp)
    ensures u.availableSpace == 1073741824
  {
    var total := CalculateDirectorySize(app);
    var audioSize := CalculateDirectorySize(audio);
    var transcriptionSize := CalculateDirectorySize(transcriptions);
    var tempSize := CalculateDirectorySize(temp);
    u := StorageUsage(total, audioSize, transcriptionSize, tempSize, AvailableSpace);
  }

  // ---------------------------------------------------------------------
  // importAudioFiles
  // ---------------------------------------------------------------------

  /** What the world answers for one imported file: the two generated ids,
      whether the copy succeeds and whether the row is saved. */
  datatype Draw = Draw(taskId: string, fileId: string, copied: bool, saved: bool)

  /** The file system, the `audio_file` rows and the records returned so far. */
  datatype ImportState = ImportState(files: FileSystem, rows: seq<AudioFile>, imported: seq<AudioFile>)

  /** The record built for an imported file. */
  function ImportedRecord(path: string, target: string, info: AudioFileInfo, d: Draw, now: nat): AudioFile
  {
    AudioFile(d.fileId, d.taskId, Basename(path), target, info.fileSize, Some(info.duration), info.format,
              Some(info.sampleRate), Some(info.channels), Some(info.bitRate), now, now)
  }

  /** One iteration of `importAudioFiles`: an invalid file is skipped, a
      failed copy skips the file, and a failed insert skips it too but keeps
      the copy already written. */
  function ImportStep(s: ImportState, audioDir: string, path: string, d: Draw, now: nat): ImportState
  {
    if Screen(path, Find(s.files, path)).Some? then s
    else
      var info := AudioFileInfo(0, FormatOf(path), 44100, 2, 128000, s.files[path].size);
      var (files', copy) := CopySpec(s.files, audioDir, path, d.taskId, d.copied, now);
      if copy.Err? then s
      else if !d.saved then s.(files := files')
      else
        var record := ImportedRecord(path, copy.value, info, d, now);
        ImportState(files', s.rows + [record], s.imported + [record])
  }

  function ImportSpec(s: ImportState, audioDir: string, paths: seq<string>, draws: seq<Draw>, now: nat): ImportState
    requires |draws| == |paths|
    decreases |paths|
  {
    if paths == [] then s
    else
      var n := |paths| - 1;
      ImportStep(ImportSpec(s, audioDir, paths[..n], draws[..n], now), audioDir, paths[n], draws[n], now)
  }

  /** A record of an accepted file: one of the six formats, a size in range,
      stored under the audio directory, stamped now. */
  predicate WellFormed(r: AudioFile, audioDir: string, now: nat)
  {
    && r.format in ["mp3", "wav", "m4a", "flac", "aac", "ogg"]
    && 0 < r.fileSize <= MaxFileSize
    && StartsWith(r.filePath, audioDir + "/")
    && r.createdAt == now && r.updatedAt == now
  }

  /** What an import keeps true: the table is the rows before it followed by
      the records returned, every record is well-formed and its file exists,
      and no file that existed before has gone. */
  ghost predicate ImportInv(s: ImportState, fs: FileSystem, rows: seq<AudioFile>, audioDir: string, now: nat)
  {
    && s.rows == rows + s.imported
    && fs.Keys <= s.files.Keys
    && forall k :: 0 <= k < |s.imported| ==> WellFormed(s.imported[k], audioDir, now) && s.imported[k].filePath in s.files
  }

  /** An accepted file that is copied yields a well-formed record whose file
      now exists, and the copy keeps every file that was there. */
  lemma ImportedRecordFacts(s: ImportState, audioDir: string, p: string, d: Draw, now: nat)
    requires Screen(p, Find(s.files, p)).None? && d.copied
    ensures var (files', copy) := CopySpec(s.files, audioDir, p, d.taskId, d.copied, now);
      var info := AudioFileInfo(0, FormatOf(p), 44100, 2, 128000, s.files[p].size);
      && copy.Ok? && copy.value in files' && s.files.Keys <= files'.Keys
      && WellFormed(ImportedRecord(p, copy.value, info, d, now), audioDir, now)
  {
    AcceptedFormat(p, Find(s.files, p));
    TargetNames(s.files, audioDir, d.taskId, ExtName(p), now);
    CopyPlacesFile(s.files, audioDir, p, d.taskId, now);
    var target := ChosenTarget(s.files, audioDir, d.taskId, ExtName(p), now);
    assert StartsWith(target, audioDir + "/") by {
      assert (audioDir + "/" + d.taskId)[..|audioDir + "/"|] == audioDir + "/";
    }
  }

  /** An accepted and copied file keeps the invariant, saved or not. */
  lemma ImportCopiedKeepsInv(s: ImportState, fs: FileSystem, rows: seq<AudioFile>, audioDir: string, p: string, d: Draw, now: nat)
    requires ImportInv(s, fs, rows, audioDir, now)
    requires Screen(p, Find(s.files, p)).None? && d.copied
    ensures ImportInv(ImportStep(s, audioDir, p, d, now), fs, rows, audioDir, now)
    ensures |ImportStep(s, audioDir, p, d, now).imported| <= |s.imported| + 1
  {
    var s' := ImportStep(s, audioDir, p, d, now);
    var (files', copy) := CopySpec(s.files, audioDir, p, d.taskId, d.copied, now);
    ImportedRecordFacts(s, audioDir, p, d, now);
    if !d.saved {
      assert s' == s.(files := files');
    } else {
      var info := AudioFileInfo(0, FormatOf(p), 44100, 2, 128000, s.files[p].size);
      var record := ImportedRecord(p, copy.value, info, d, now);
      assert s' == ImportState(files', s.rows + [record], s.imported + [record]);
      forall k | 0 <= k < |s'.imported|
        ensures WellFormed(s'.imported[k], audioDir, now) && s'.imported[k].filePath in s'.files
      {
        if k < |s.imported| {
          assert s'.imported[k] == s.imported[k];
        }
      }
    }
  }

  lemma ImportStepKeepsInv(s: ImportState, fs: FileSystem, rows: seq<AudioFile>, audioDir: string, p: string, d: Draw, now: nat)
    requires ImportInv(s, fs, rows, audioDir, now)
    ensures ImportInv(ImportStep(s, audioDir, p, d, now), fs, rows, audioDir, now)
    ensures |ImportStep(s, audioDir, p, d, now).imported| <= |s.imported| + 1
  {
    if Screen(p, Find(s.files, p)).Some? || !d.copied {
      assert ImportStep(s, audioDir, p, d, now) == s;
    } else {
      ImportCopiedKeepsInv(s, fs, rows, audioDir, p, d, now);
    }
  }

  /** Every import returns well-formed records whose files exist, at most one
      per path, adds exactly those records to the table after the rows that
      were there, and never removes a file. */
  lemma {:induction false} ImportInvariant(fs: FileSystem, rows: seq<AudioFile>, audioDir: string, paths: seq<string>, draws: seq<Draw>, now: nat)
    requires |draws| == |paths|
    ensures var r := ImportSpec(ImportState(fs, rows, []), audioDir, paths, draws, now);
      && r.rows == rows + r.imported
      && |r.imported| <= |paths|
      && fs.Keys <= r.files.Keys
      && forall k :: 0 <= k < |r.imported| ==> WellFormed(r.imported[k], audioDir, now) && r.imported[k].filePath in r.files
    decreases |paths|
  {
    if paths != [] {
      var n := |paths| - 1;
      ImportInvariant(fs, rows, audioDir, paths[..n], draws[..n], now);
      var s := ImportSpec(ImportState(fs, rows, []), audioDir, paths[..n], draws[..n], now);
      ImportStepKeepsInv(s, fs, rows, audioDir, paths[n], draws[n], now);
    }
  }

  /** A batch where no file passes validation imports nothing and changes nothing. */
  lemma {:induction false} ImportSkipsInvalid(s: ImportState, audioDir: string, paths: seq<string>, draws: seq<Draw>, now: nat)
    requires |draws| == |paths|
    requires forall i :: 0 <= i < |paths| ==> Screen(paths[i], Find(s.files, paths[i])).Some?
    ensures ImportSpec(s, audioDir, paths, draws, now) == s
    decreases |paths|
  {
    if paths != [] {
      var n := |paths| - 1;
      ImportSkipsInvalid(s, audioDir, paths[..n], draws[..n], now);
    }
  }

  /** A failing file does not stop the batch: after it, a valid file whose
      copy and insert succeed is still imported. */
  lemma ImportContinuesAfterFailure(s: ImportState, audioDir: string, bad: string, good: string, d0: Draw, d1: Draw, now: nat)
    requires Screen(bad, Find(s.files, bad)).Some?
    requires Screen(good, Find(s.files, good)).None? && d1.copied && d1.saved
    requires CopyTarget(audioDir, d1.taskId, ExtName(good)) !in s.files
    ensures var r := ImportSpec(s, audioDir, [bad, good], [d0, d1], now);
      && r.imported == s.imported + [ImportedRecord(good, CopyTarget(audioDir, d1.taskId, ExtName(good)),
                                       AudioFileInfo(0, FormatOf(good), 44100, 2, 128000, s.files[good].size), d1, now)]
      && r.rows == s.rows + [r.imported[|r.imported| - 1]]
  {
    assert [bad, good][..1] == [bad];
    assert [d0, d1][..1] == [d0];
    assert [bad][..0] == [];
    assert [d0][..0] == [];
    assert ImportSpec(s, audioDir, [bad], [d0], now) == s;
    assert ImportSpec(s, audioDir, [bad, good], [d0, d1], now) == ImportStep(s, audioDir, good, d1, now);
    CopyPlacesFile(s.files, audioDir, good, d1.taskId, now);
  }

  // ---------------------------------------------------------------------
  // The manager
  // ---------------------------------------------------------------------

  class FileManager {
    const appDir: string
    const tempDir: string
    const audioDir: string
    const transcriptionDir: string
    /** The regular files the manager can see, by absolute path. */
    var files: FileSystem
    /** The `audio_file` table. */
    var audioRows: seq<AudioFile>

    /** The directories under the user-data directory. */
    constructor (userData: string, existing: FileSystem)
      ensures appDir == Join(userData, "files")
      ensures tempDir == Join(appDir, "temp") && audioDir == Join(appDir, "audio")
      ensures transcriptionDir == Join(appDir, "transcriptions")
      ensures files == existing && audioRows == []
    {
      appDir := Join(userData, "files");
      tempDir := Join(Join(userData, "files"), "temp");
      audioDir := Join(Join(userData, "files"), "audio");
      transcriptionDir := Join(Join(userData, "files"), "transcriptions");
      files := existing;
      audioRows := [];
    }

    /** `validateAudioFile`. */
    predicate ValidateAudioFile(path: string)
      reads this
    {
      Screen(path, Find(files, path)).None?
    }

    /** `getAudioFileInfo`. */
    function GetAudioFileInfo(path: string): (r: Result<AudioFileInfo>)
      reads this
      ensures ValidateAudioFile(path) ==> r.Ok? && r.value.format in ["mp3", "wav", "m4a", "flac", "aac", "ogg"]
                                          && 0 < r.value.fileSize <= MaxFileSize
      ensures r.Err? <==> path !in files
    {
      if ValidateAudioFile(path) then
        AcceptedFormat(path, Find(files, path));
        FileInfo(files, path)
      else FileInfo(files, path)
    }

    /** `copyAudioFile`; `copied` is whether the copy itself succeeds. */
    method CopyAudioFile(source: string, taskId: string, copied: bool, now: nat) returns (r: Result<string>)
      modifies this
      ensures (files, r) == CopySpec(old(files), audioDir, source, taskId, copied, now)
      ensures audioRows == old(audioRows)
    {
      if source !in files || !files[source].readable || !copied {
        return Err(FileError(CopyFailed));
      }
      var ext := ExtName(source);
      var target := CopyTarget(audioDir, taskId, ext);
      if target in files {
        target := RenamedTarget(audioDir, taskId, ext, now);
      }
      files := files[target := FileData(files[source].size, now, true, true)];
      r := Ok(target);
    }

    /** `deleteAudioFile`; `dbOk` is whether the row deletion succeeds. */
    method DeleteAudioFile(path: string, unlinked: bool, dbOk: bool) returns (r: Result<()>)
      modifies this
      ensures (files, audioRows, r) == DeleteSpec(old(files), old(audioRows), path, unlinked, dbOk)
    {
      if path !in files {
        return Ok(());
      }
      if !files[path].writable || !unlinked {
        return Err(FileError(DeleteFailed));
      }
      files := files - {path};
      if dbOk {
        audioRows := WithoutPath(audioRows, path);
      }
      r := Ok(());
    }

    /** `cleanupTempFiles`, given the listing of the temporary directory
      (None when it cannot be read) and the clock. Files removed before a
      failing `stat` stay removed. */
    method CleanupTempFiles(listing: Option<seq<string>>, now: int) returns (r: Result<Tally>)
      modifies this
      ensures audioRows == old(audioRows)
      ensures listing.None? ==> r == Err(FileError(CleanupFailed)) && files == old(files)
      ensures listing.Some? ==>
        var s := SweepSpec(old(files), TempPaths(tempDir, listing.value), now, MaxTempAge);
        && files == s.files
        && (s.ok ==> r == Ok(Tally(s.deletedCount, s.deletedSize)))
        && (!s.ok ==> r == Err(FileError(CleanupFailed)))
    {
      if listing.None? {
        return Err(FileError(CleanupFailed));
      }
      var paths := TempPaths(tempDir, listing.value);
      var count: nat, size: nat := 0, 0;
      var i := 0;
      while i < |paths|
        invariant 0 <= i <= |paths|
        invariant SweepSpec(old(files), paths[..i], now, MaxTempAge) == Sweep(files, count, size, true)
        invariant audioRows == old(audioRows)
      {
        var path := paths[i];
        assert paths[..i + 1][..i] == paths[..i];
        if path !in files {
          SweepStaysFailed(old(files), paths[..i + 1], paths[i + 1..], now, MaxTempAge);
          assert paths[..i + 1] + paths[i + 1..] == paths;
          return Err(FileError(CleanupFailed));
        }
        if Expired(files[path], now, MaxTempAge) {
          count, size := count + 1, size + files[path].size;
          files := files - {path};
        }
        i := i + 1;
      }
      assert paths[..i] == paths;
      r := Ok(Tally(count, size));
    }

    /** `importAudioFiles`: the records of the files that passed validation
      and were copied and saved, in input order; any other file is skipped. */
    method ImportAudioFiles(paths: seq<string>, draws: seq<Draw>, now: nat) returns (imported: seq<AudioFile>)
      requires |draws| == |paths|
      modifies this
      ensures var s := ImportSpec(ImportState(old(files), old(audioRows), []), audioDir, paths, draws, now);
        files == s.files && audioRows == s.rows && imported == s.imported
    {
      imported := [];
      ghost var start := ImportState(files, audioRows, []);
      var i := 0;
      while i < |paths|
        invariant 0 <= i <= |paths|
        invariant ImportSpec(start, audioDir, paths[..i], draws[..i], now) == ImportState(files, audioRows, imported)
      {
        assert paths[..i + 1][..i] == paths[..i] && draws[..i + 1][..i] == draws[..i];
        var path := paths[i];
        var d := draws[i];
        ghost var before := ImportState(files, audioRows, imported);
        if ValidateAudioFile(path) {
          var info := GetAudioFileInfo(path);
          assert info.value == AudioFileInfo(0, FormatOf(path), 44100, 2, 128000, files[path].size);
          var copy := CopyAudioFile(path, d.taskId, d.copied, now);
          if copy.Ok? && d.saved {
            var record := ImportedRecord(path, copy.value, info.value, d, now);
            audioRows := audioRows + [record];
            imported := imported + [record];
          }
        }
        assert ImportState(files, audioRows, imported) == ImportStep(before, audioDir, path, d, now);
        i := i + 1;
      }
      assert paths[..i] == paths && draws[..i] == draws;
    }
  }
}
