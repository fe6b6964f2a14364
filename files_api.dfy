/**
 * The three file routes of a chat session: `POST /api/files/upload` stores
 * a file under the session's upload directory, `GET /api/files/list` lists
 * that directory, and `DELETE /api/files/delete` removes one file from it
 * after checking that the path stays inside the session directory. The
 * filesystem is a parameter: the directory listing, the set of existing
 * paths and the current time are given, and the write, the unlink and the
 * directory creation are described by the reply.
 */
module FilesApi {
  import opened Wrappers
  import Str
  import PosixPath

  /** A query parameter or form field as JavaScript tests it: present and not empty. */
  predicate Present(s: Option<string>)
  {
    s.Some? && s.value != ""
  }

  // ---------------------------------------------------------------------------
  // Upload
  // ---------------------------------------------------------------------------

  /** The `file` field of the form: its name and its size in bytes. */
  datatype UploadFile = UploadFile(name: string, size: int)

  /** A rejection with its status and error text, or the members of the success reply. */
  datatype UploadReply =
    | UploadRejected(status: int, error: string)
    | Uploaded(filePath: string, fileId: string, fileName: string, size: int, path: string)

  const AllowedExtensions: seq<string> := [
    ".txt", ".pdf", ".doc", ".docx",
    ".xls", ".xlsx", ".csv", ".json",
    ".png", ".jpg", ".jpeg" ]

  const MaxSize := 10 * 1024 * 1024

  const NoFile := "没有文件"
  const TooLarge := "文件大小超过 10MB"

  function UnsupportedType(ext: string): string
  {
    "不支持的文件类型: " + ext
  }

  /** The lower-cased extension the type check looks at. */
  function Extension(name: string): string
  {
    Str.ToLower(PosixPath.Extname(name))
  }

  /** The characters the stored name keeps: `[a-zA-Z0-9._-]`. */
  predicate SafeChar(c: char)
  {
    Str.IsLetter(c) || Str.IsDigit(c) || c == '.' || c == '_' || c == '-'
  }

  predicate AllSafe(s: string)
  {
    forall i :: 0 <= i < |s| ==> SafeChar(s[i])
  }

  /**
   * What one character of the name becomes: itself when safe, otherwise
   * one `_` per UTF-16 code unit, since the pattern has no `u` flag and
   * matches each half of a surrogate pair on its own.
   */
  function SanitizeChar(c: char): (r: string)
    ensures |r| == |Str.UnitsOf(c)|
    ensures AllSafe(r)
  {
    if SafeChar(c) then [c] else if Str.IsAstral(c) then "__" else "_"
  }

  /** `name.replace(/[^a-zA-Z0-9._-]/g, "_")` */
  function Sanitize(name: string): (r: string)
    ensures |r| == |Str.CodeUnits(name)|
    ensures AllSafe(r)
  {
    if |name| == 0 then "" else Sanitize(name[..|name| - 1]) + SanitizeChar(name[|name| - 1])
  }

  /** Sanitising works character by character, so it distributes over concatenation. */
  lemma {:induction false} SanitizeAppend(a: string, b: string)
    ensures Sanitize(a + b) == Sanitize(a) + Sanitize(b)
  {
    if |b| > 0 {
      var b' := b[..|b| - 1];
      assert (a + b)[..|a + b| - 1] == a + b';
      assert (a + b)[|a + b| - 1] == b[|b| - 1];
      SanitizeAppend(a, b');
      assert Sanitize(b) == Sanitize(b') + SanitizeChar(b[|b| - 1]);
    } else {
      assert a + b == a;
    }
  }

  /**
   * On a name without astral characters every character keeps its place
   * and is replaced by one `_` when unsafe; an astral character such as an
   * emoji becomes two.
   */
  lemma {:induction false} SanitizeBmp(name: string)
    requires forall k :: 0 <= k < |name| ==> !Str.IsAstral(name[k])
    ensures |Sanitize(name)| == |name|
    ensures forall i :: 0 <= i < |name| ==> Sanitize(name)[i] == (if SafeChar(name[i]) then name[i] else '_')
  {
    if |name| > 0 {
      var front := name[..|name| - 1];
      SanitizeBmp(front);
    }
  }

  lemma SanitizeAstral(c: char)
    requires Str.IsAstral(c)
    ensures Sanitize([c]) == "__"
  {
    assert [c][..0] == [];
  }

  /** Only safe characters remain, and a name made of them is left alone. */
  lemma {:induction false} SanitizeSafe(name: string)
    ensures AllSafe(Sanitize(name))
    ensures Sanitize(name) == name <==> AllSafe(name)
  {
    if |name| > 0 {
      var front := name[..|name| - 1];
      var last := name[|name| - 1];
      SanitizeSafe(front);
      if Sanitize(name) == name {
        assert Sanitize(name)[..|Sanitize(front)|] == Sanitize(front);
        assert name[..|front|] == front;
        assert Sanitize(front) == front;
        assert SanitizeChar(last) == [last];
        assert forall i :: 0 <= i < |name| ==> SafeChar(name[i]) by {
          forall i | 0 <= i < |name| ensures SafeChar(name[i]) {
            if i < |front| { assert name[i] == front[i]; }
          }
        }
      }
      if AllSafe(name) {
        assert AllSafe(front) by {
          forall i | 0 <= i < |front| ensures SafeChar(front[i]) { assert front[i] == name[i]; }
        }
        assert name == front + [last];
      }
    }
  }

  /** `${timestamp}_${sanitizedFileName}`: the name the file is stored under and its `fileId`. */
  function StoredName(timestamp: nat, name: string): string
  {
    Str.NatToString(timestamp) + "_" + Sanitize(name)
  }

  /**
   * The stored name is a single path segment, whatever the uploaded name
   * was: joining it onto the upload directory can neither climb out of it
   * nor reach a sub-directory.
   */
  lemma StoredNameIsSegment(timestamp: nat, name: string)
    ensures PosixPath.IsName(StoredName(timestamp, name))
  {
    var d := Str.NatToString(timestamp);
    var s := StoredName(timestamp, name);
    SanitizeSafe(name);
    assert s[|d|] == '_';
    assert forall i :: 0 <= i < |s| ==> s[i] != '/' by {
      forall i | 0 <= i < |s| ensures s[i] != '/' {
        if i < |d| { assert s[i] == d[i]; }
        else if i > |d| { assert s[i] == Sanitize(name)[i - |d| - 1]; }
      }
    }
    assert s != "." && s != ".." by {
      assert Str.IsDigit(s[0]);
    }
  }

  /** The directory the file is written to. */
  function UploadDir(root: string, sessionId: Option<string>): string
  {
    if Present(sessionId) then PosixPath.Join([root, "workspace", "sessions", sessionId.value, "uploads"])
    else PosixPath.Join([root, "workspace", "temp_uploads"])
  }

  const SessionsPrefix := "workspace/sessions/"
  const TempPrefix := "workspace/temp_uploads/"

  /** `path.join(uploadDir, fileName)`: where the file is written. */
  function StoredPath(root: string, sessionId: Option<string>, now: nat, name: string): string
  {
    PosixPath.Join([UploadDir(root, sessionId), StoredName(now, name)])
  }

  /** The `path` member of the success reply, relative to the project root. */
  function ReplyPath(sessionId: Option<string>, fileName: string): string
  {
    if Present(sessionId) then SessionsPrefix + sessionId.value + "/uploads/" + fileName
    else TempPrefix + fileName
  }

  /**
   * `POST /api/files/upload` with the form's `file` and `sessionId`, the
   * project root and the clock reading `Date.now()`: a missing file, an
   * extension outside the list and a size over 10 MiB are refused with
   * 400, in that order; otherwise the file is written to `filePath`.
   */
  function Upload(file: Option<UploadFile>, sessionId: Option<string>, root: string, now: nat): (r: UploadReply)
    ensures file.None? ==> r == UploadRejected(400, NoFile)
    ensures file.Some? && Extension(file.value.name) !in AllowedExtensions ==>
      r == UploadRejected(400, UnsupportedType(Extension(file.value.name)))
    ensures r.Uploaded? <==>
      file.Some? && Extension(file.value.name) in AllowedExtensions && file.value.size <= MaxSize
    ensures r.Uploaded? ==>
      r.fileId == StoredName(now, file.value.name) && r.fileName == file.value.name &&
      r.size == file.value.size &&
      r.filePath == StoredPath(root, sessionId, now, file.value.name) &&
      r.path == ReplyPath(sessionId, r.fileId)
  {
    match file
    case None => UploadRejected(400, NoFile)
    case Some(f) =>
      var ext := Extension(f.name);
      if ext !in AllowedExtensions then UploadRejected(400, UnsupportedType(ext))
      else if f.size > MaxSize then UploadRejected(400, TooLarge)
      else
        var fileName := StoredName(now, f.name);
        Uploaded(StoredPath(root, sessionId, now, f.name), fileName, f.name, f.size,
                 ReplyPath(sessionId, fileName))
  }

  /** Every refusal is a 400; a file of exactly 10 MiB with an allowed extension is accepted and one byte more is not. */
  lemma UploadSizeLimit(name: string, sessionId: Option<string>, root: string, now: nat)
    requires Extension(name) in AllowedExtensions
    ensures Upload(Some(UploadFile(name, MaxSize)), sessionId, root, now).Uploaded?
    ensures Upload(Some(UploadFile(name, MaxSize + 1)), sessionId, root, now) == UploadRejected(400, TooLarge)
  {
  }

  /** The extension is matched case-insensitively: `report.PDF` passes as `.pdf`. */
  lemma UploadExtensionCase(stem: string)
    requires stem != "" && PosixPath.NoSlash(stem)
    ensures Extension(stem + ".PDF") == ".pdf"
  {
    assert stem + ".PDF" == stem + "." + "PDF";
    PosixPath.ExtnameOfName(stem, "PDF");
    LowerPdf();
  }

  lemma LowerPdf()
    ensures Str.ToLower(".PDF") == ".pdf"
  {
    var lower := Str.ToLower(".PDF");
    assert lower[0] == '.' && lower[1] == 'p' && lower[2] == 'd' && lower[3] == 'f';
  }

  /**
   * The refusal text shows the lower-cased extension, accented capitals
   * included: `x.ÉXE` is refused as `.éxe`, which is not on the list.
   */
  lemma UploadLowersAccented(stem: string)
    requires stem != "" && PosixPath.NoSlash(stem)
    ensures Extension(stem + ".ÉXE") == ".éxe" && ".éxe" !in AllowedExtensions
  {
    assert stem + ".ÉXE" == stem + "." + "ÉXE";
    PosixPath.ExtnameOfName(stem, "ÉXE");
    Str.LowerAccented();
  }

  /** An extension outside the list, such as `.exe`, is refused. */
  lemma UploadRefusesExe(stem: string)
    requires stem != "" && PosixPath.NoSlash(stem)
    ensures Extension(stem + ".exe") !in AllowedExtensions
  {
    assert stem + ".exe" == stem + "." + "exe";
    PosixPath.ExtnameOfName(stem, "exe");
    LowerExe();
  }

  lemma LowerExe()
    ensures Str.ToLower(".exe") !in AllowedExtensions
  {
    var lower := Str.ToLower(".exe");
    assert lower[0] == '.' && lower[1] == 'e' && lower[2] == 'x' && lower[3] == 'e';
    assert lower == ".exe";
  }

  /** A name without an extension, or a hidden file such as `.pdf`, has the empty extension and is refused. */
  lemma UploadNeedsExtension(name: string)
    requires PosixPath.NoSlash(name)
    requires forall i :: 1 <= i < |name| ==> name[i] != '.'
    ensures Extension(name) == "" && Extension(name) !in AllowedExtensions
  {
    PosixPath.ExtnameOfPlainName(name);
  }

  /** The reply path is under the session's `uploads` exactly when a session id was given, else under `temp_uploads`. */
  lemma ReplyPathPlace(sessionId: Option<string>, fileName: string)
    ensures Present(sessionId) ==> Str.StartsWith(ReplyPath(sessionId, fileName), SessionsPrefix + sessionId.value + "/uploads/")
    ensures Str.StartsWith(ReplyPath(sessionId, fileName), TempPrefix) <==> !Present(sessionId)
    ensures Str.EndsWith(ReplyPath(sessionId, fileName), fileName)
  {
    var p := ReplyPath(sessionId, fileName);
    if Present(sessionId) {
      var pre := SessionsPrefix + sessionId.value + "/uploads/";
      assert p == pre + fileName;
      assert p[..|pre|] == pre;
      assert p[10] == 's' != TempPrefix[10];
    } else {
      assert p[..|TempPrefix|] == TempPrefix;
    }
  }

  const SessionUploads: seq<string> := ["workspace", "sessions"]
  const TempUploads: seq<string> := ["workspace", "temp_uploads"]

  /** The session's upload directory below a root made of names. */
  lemma SessionUploadDir(rs: seq<string>, sid: string)
    requires |rs| > 0 && PosixPath.AllNames(rs) && PosixPath.IsName(sid)
    ensures UploadDir(PosixPath.Absolute(rs), Some(sid)) == PosixPath.Absolute(rs + (SessionUploads + [sid, "uploads"]))
  {
    var ds := SessionUploads + [sid, "uploads"];
    assert [PosixPath.Absolute(rs), "workspace", "sessions", sid, "uploads"] == [PosixPath.Absolute(rs)] + ds;
    PosixPath.JoinNames(rs, ds);
  }

  lemma TempUploadDir(rs: seq<string>)
    requires |rs| > 0 && PosixPath.AllNames(rs)
    ensures UploadDir(PosixPath.Absolute(rs), None) == PosixPath.Absolute(rs + TempUploads)
  {
    assert [PosixPath.Absolute(rs), "workspace", "temp_uploads"] == [PosixPath.Absolute(rs)] + TempUploads;
    PosixPath.JoinNames(rs, TempUploads);
  }

  /**
   * With a project root and session id that are plain names, the file is
   * written at `<root>/workspace/sessions/<id>/uploads/<fileId>`, which is
   * the reply's `path` below the root.
   */
  lemma UploadWritesIntoSession(rs: seq<string>, sid: string, now: nat, name: string)
    requires |rs| > 0 && PosixPath.AllNames(rs) && PosixPath.IsName(sid)
    ensures StoredPath(PosixPath.Absolute(rs), Some(sid), now, name) ==
      PosixPath.Absolute(rs + (SessionUploads + [sid, "uploads", StoredName(now, name)]))
  {
    var id := StoredName(now, name);
    StoredNameIsSegment(now, name);
    SessionUploadDir(rs, sid);
    var ds := rs + (SessionUploads + [sid, "uploads"]);
    PosixPath.JoinNames(ds, [id]);
    assert ds + [id] == rs + (SessionUploads + [sid, "uploads", id]);
  }

  /** Without a session id the file is written at `<root>/workspace/temp_uploads/<fileId>`. */
  lemma UploadWritesIntoTemp(rs: seq<string>, now: nat, name: string)
    requires |rs| > 0 && PosixPath.AllNames(rs)
    ensures StoredPath(PosixPath.Absolute(rs), None, now, name) ==
      PosixPath.Absolute(rs + TempUploads + [StoredName(now, name)])
  {
    StoredNameIsSegment(now, name);
    TempUploadDir(rs);
    PosixPath.JoinNames(rs + TempUploads, [StoredName(now, name)]);
  }

  // ---------------------------------------------------------------------------
  // List
  // ---------------------------------------------------------------------------

  /** One directory entry as `readdir` and `stat` report it. */
  datatype DirEntry = DirEntry(name: string, size: int, mtime: string)

  datatype ListedFile = ListedFile(fileId: string, fileName: string, size: int, uploadTime: string, path: string)

  datatype ListReply =
    | ListRejected(status: int, error: string)
    | Listing(files: seq<ListedFile>)

  const MissingSession := "缺少 sessionId 参数"

  /** `fileName.replace(/^\d+_/, "")`: one leading run of digits followed by `_` is removed. */
  function OriginalName(stored: string): (r: string)
    ensures Str.EndsWith(stored, r)
  {
    var k := Str.DigitsEnd(stored, 0);
    if 0 < k < |stored| && stored[k] == '_' then stored[k + 1..] else stored
  }

  /** The list row of one directory entry. */
  function Listed(sessionId: string, e: DirEntry): ListedFile
  {
    ListedFile(e.name, OriginalName(e.name), e.size, e.mtime, SessionsPrefix + sessionId + "/uploads/" + e.name)
  }

  /**
   * `GET /api/files/list`: without a session id, 400; when the session's
   * upload directory does not exist (`entries` is `None`), an empty list;
   * otherwise one row per directory entry, in `readdir` order.
   */
  function ListFiles(sessionId: Option<string>, entries: Option<seq<DirEntry>>): (r: ListReply)
    ensures r.ListRejected? <==> !Present(sessionId)
    ensures r.ListRejected? ==> r == ListRejected(400, MissingSession)
    ensures Present(sessionId) && entries.None? ==> r == Listing([])
    ensures Present(sessionId) && entries.Some? ==>
      r.Listing? && |r.files| == |entries.value| &&
      forall i :: 0 <= i < |r.files| ==>
        r.files[i].fileId == entries.value[i].name &&
        r.files[i].fileName == OriginalName(entries.value[i].name) &&
        r.files[i].size == entries.value[i].size &&
        r.files[i].path == SessionsPrefix + sessionId.value + "/uploads/" + entries.value[i].name
  {
    if !Present(sessionId) then ListRejected(400, MissingSession)
    else
      match entries
      case None => Listing([])
      case Some(es) => Listing(seq(|es|, i requires 0 <= i < |es| => Listed(sessionId.value, es[i])))
  }

  /**
   * Listing undoes upload's naming: the name shown for a stored file is the
   * sanitised upload name, even when that name itself starts with digits
   * and `_`, because only the timestamp's prefix is removed.
   */
  lemma ListRecoversName(timestamp: nat, name: string)
    ensures OriginalName(StoredName(timestamp, name)) == Sanitize(name)
  {
    var d := Str.NatToString(timestamp);
    var s := StoredName(timestamp, name);
    assert s[|d|] == '_';
    assert forall j :: 0 <= j < |d| ==> s[j] == d[j];
    var k := Str.DigitsEnd(s, 0);
    assert k == |d|;
    assert s[k + 1..] == Sanitize(name);
  }

  /**
   * An uploaded file, once listed, has the upload's `fileId` and `path`;
   * its listed `fileName` equals the uploaded name exactly when that name
   * has only safe characters.
   */
  lemma ListedUpload(f: UploadFile, sessionId: Option<string>, root: string, now: nat, e: DirEntry)
    requires Present(sessionId)
    requires Upload(Some(f), sessionId, root, now).Uploaded?
    requires e.name == Upload(Some(f), sessionId, root, now).fileId
    ensures Listed(sessionId.value, e).fileId == Upload(Some(f), sessionId, root, now).fileId
    ensures Listed(sessionId.value, e).path == Upload(Some(f), sessionId, root, now).path
    ensures Listed(sessionId.value, e).fileName == Sanitize(f.name)
    ensures Listed(sessionId.value, e).fileName == Upload(Some(f), sessionId, root, now).fileName <==> AllSafe(f.name)
  {
    ListRecoversName(now, f.name);
    SanitizeSafe(f.name);
  }

  // ---------------------------------------------------------------------------
  // Delete
  // ---------------------------------------------------------------------------

  /** The status and text of the reply, and the paths that exist afterwards. */
  datatype DeleteReply = DeleteReply(status: int, message: string, remaining: set<string>)

  const MissingParams := "缺少 sessionId 或 fileId 参数"
  const IllegalPath := "非法的文件路径"
  const NotFound := "文件不存在"
  const Deleted := "文件已删除"

  /** `path.join(root, "workspace", "sessions", sessionId, "uploads", fileId)` */
  function DeletePath(root: string, sessionId: string, fileId: string): string
  {
    PosixPath.Join([root, "workspace", "sessions", sessionId, "uploads", fileId])
  }

  /** `path.join(root, "workspace", "sessions", sessionId)`, the directory the guard compares against. */
  function SessionDir(root: string, sessionId: string): string
  {
    PosixPath.Join([root, "workspace", "sessions", sessionId])
  }

  /** The guard as written: `normalizedPath.startsWith(workspaceDir)`. */
  predicate GuardAsWritten(normalized: string, dir: string)
  {
    Str.StartsWith(normalized, dir)
  }

  /** The guard as intended: the path lies below the directory, `dir` followed by a separator. */
  predicate Guard(normalized: string, dir: string)
  {
    Str.StartsWith(normalized, dir + "/")
  }

  /** Anything the intended guard lets through, the written guard lets through too. */
  lemma GuardStricter(normalized: string, dir: string)
    requires Guard(normalized, dir)
    ensures GuardAsWritten(normalized, dir)
  {
    assert normalized[..|dir|] == (dir + "/")[..|dir|];
  }

  /** What the intended guard promises: the directory's segments begin the path's segments. */
  lemma GuardConfines(normalized: string, dir: string)
    requires Guard(normalized, dir)
    ensures |PosixPath.Segments(dir)| <= |PosixPath.Segments(normalized)|
    ensures PosixPath.Segments(normalized)[..|PosixPath.Segments(dir)|] == PosixPath.Segments(dir)
  {
    var rest := normalized[|dir| + 1..];
    assert normalized == dir + "/" + rest;
    PosixPath.SegmentsSplit(dir, rest);
  }

  /** Below a root made of names, the delete path is the normalised text `root/workspace/sessions/<id>/uploads/<fileId>`. */
  lemma DeletePathText(rs: seq<string>, sid: string, fileId: string)
    requires |rs| > 0 && PosixPath.AllNames(rs) && PosixPath.IsName(sid) && fileId != ""
    ensures DeletePath(PosixPath.Absolute(rs), sid, fileId) ==
      PosixPath.Normalize(PosixPath.Absolute(rs + (SessionUploads + [sid, "uploads"])) + "/" + fileId)
  {
    var root := PosixPath.Absolute(rs);
    assert [root, "workspace", "sessions", sid, "uploads", fileId] == [root] + (SessionUploads + [sid, "uploads"]) + [fileId];
    PosixPath.JoinTail(rs, SessionUploads + [sid, "uploads"], fileId);
  }

  /** `../../<other>/uploads/<name>`: a file id that climbs out of the session into another one. */
  function SiblingId(other: string, name: string): string
  {
    Str.Join(["..", "..", other, "uploads", name], "/")
  }

  /** Two `..` climb from `<id>/uploads` back to `sessions`, where the other session's names are appended. */
  lemma SiblingResolves(rs: seq<string>, sid: string, other: string, name: string)
    requires PosixPath.IsName(sid) && PosixPath.IsName(other) && PosixPath.IsName(name)
    ensures PosixPath.Segments(SiblingId(other, name)) == ["..", "..", other, "uploads", name]
    ensures PosixPath.Resolve(rs + (SessionUploads + [sid, "uploads"]), ["..", "..", other, "uploads", name], true) ==
      rs + (SessionUploads + [other, "uploads", name])
  {
    PosixPath.SegmentsOfJoin(["..", "..", other, "uploads", name]);
    var kept := rs + (SessionUploads + [sid, "uploads"]);
    var ups := ["..", "..", other, "uploads", name];
    var k1 := rs + (SessionUploads + [sid]);
    var k2 := rs + SessionUploads;
    assert kept[..|kept| - 1] == k1 && kept[|kept| - 1] == "uploads";
    assert k1[..|k1| - 1] == k2 && k1[|k1| - 1] == sid;
    assert PosixPath.Resolve(kept, ups, true) == PosixPath.Resolve(k1, ups[1..], true);
    assert PosixPath.Resolve(k1, ups[1..], true) == PosixPath.Resolve(k2, ups[2..], true);
    assert ups[2..] == [other, "uploads", name];
    PosixPath.ResolveNames(k2, [other, "uploads", name], true);
    assert k2 + [other, "uploads", name] == rs + (SessionUploads + [other, "uploads", name]);
  }

  /** The text of `base/<sid><tail>/rest` begins with the text of `base/<sid>` followed by `tail`. */
  lemma SiblingText(base: seq<string>, sid: string, tail: string, rest: seq<string>)
    requires |base| > 0 && |rest| > 0
    ensures Str.StartsWith(PosixPath.Absolute(base + ([sid + tail] + rest)), PosixPath.Absolute(base + [sid]) + tail)
  {
    var q := "/" + (Str.Join(base, "/") + "/");
    var z := "/" + Str.Join(rest, "/");
    Str.JoinAppend(base, sid, "/");
    Str.JoinConcat(base, [sid + tail] + rest, "/");
    Str.JoinCons(sid + tail, rest, "/");
    var p := PosixPath.Absolute(base + ([sid + tail] + rest));
    var dir := PosixPath.Absolute(base + [sid]);
    assert dir == q + sid;
    assert p == q + (sid + tail + z);
    assert p == (q + sid + tail) + z;
  }

  /** Where the sibling file id leads: the named file in the other session's uploads. */
  lemma SiblingPath(rs: seq<string>, sid: string, other: string, name: string)
    requires |rs| > 0 && PosixPath.AllNames(rs)
    requires PosixPath.IsName(sid) && PosixPath.IsName(other) && PosixPath.IsName(name)
    ensures DeletePath(PosixPath.Absolute(rs), sid, SiblingId(other, name)) ==
      PosixPath.Absolute(rs + (SessionUploads + [other, "uploads", name]))
  {
    var fileId := SiblingId(other, name);
    PosixPath.JoinEndsWithLast(["..", "..", other, "uploads", name]);
    SiblingResolves(rs, sid, other, name);
    DeletePathText(rs, sid, fileId);
    PosixPath.NormalizeBelow(rs + (SessionUploads + [sid, "uploads"]), fileId);
  }

  lemma SiblingName(sid: string, tail: string)
    requires PosixPath.IsName(sid) && tail != "" && PosixPath.NoSlash(tail)
    ensures PosixPath.IsName(sid + tail)
  {
    var other := sid + tail;
    assert |other| >= 2 && other[0] == sid[0];
    forall i | 0 <= i < |other| ensures other[i] != '/' {
      if i < |sid| { assert other[i] == sid[i]; } else { assert other[i] == tail[i - |sid|]; }
    }
  }

  /**
   * The written guard lets through a path into a sibling session: for a
   * session named `a`, the file id `../../ab/uploads/x` resolves into the
   * uploads of session `ab`, which passes `startsWith` but is not below
   * the session directory; the intended guard refuses it.
   */
  lemma GuardAsWrittenAdmitsSibling(rs: seq<string>, sid: string, tail: string, name: string)
    requires |rs| > 0 && PosixPath.AllNames(rs)
    requires PosixPath.IsName(sid) && PosixPath.IsName(name) && tail != "" && PosixPath.NoSlash(tail)
    ensures DeletePath(PosixPath.Absolute(rs), sid, SiblingId(sid + tail, name)) ==
      PosixPath.Absolute(rs + (SessionUploads + [sid + tail, "uploads", name]))
    ensures GuardAsWritten(DeletePath(PosixPath.Absolute(rs), sid, SiblingId(sid + tail, name)), SessionDir(PosixPath.Absolute(rs), sid))
    ensures !Guard(DeletePath(PosixPath.Absolute(rs), sid, SiblingId(sid + tail, name)), SessionDir(PosixPath.Absolute(rs), sid))
  {
    var root := PosixPath.Absolute(rs);
    SiblingName(sid, tail);
    SiblingPath(rs, sid, sid + tail, name);
    var p := DeletePath(root, sid, SiblingId(sid + tail, name));
    var base := rs + SessionUploads;
    SessionDirOfNames(rs, sid);
    var dir := SessionDir(root, sid);
    assert base + [sid] == rs + (SessionUploads + [sid]);
    assert rs + (SessionUploads + [sid + tail, "uploads", name]) == base + ([sid + tail] + ["uploads", name]);
    SiblingText(base, sid, tail, ["uploads", name]);
    assert p[..|dir|] == dir;
    assert p[|dir|] == tail[0];
  }

  /** Below a root made of names, the session directory is `root/workspace/sessions/<id>`. */
  lemma SessionDirOfNames(rs: seq<string>, sid: string)
    requires |rs| > 0 && PosixPath.AllNames(rs) && PosixPath.IsName(sid)
    ensures SessionDir(PosixPath.Absolute(rs), sid) == PosixPath.Absolute(rs + (SessionUploads + [sid]))
  {
    var root := PosixPath.Absolute(rs);
    assert [root, "workspace", "sessions", sid] == [root] + (SessionUploads + [sid]);
    PosixPath.JoinNames(rs, SessionUploads + [sid]);
  }

  /** Below a root made of names, the delete path of a plain file id is that file in the session's uploads. */
  lemma DeletePathOfNames(rs: seq<string>, sid: string, fileId: string)
    requires |rs| > 0 && PosixPath.AllNames(rs) && PosixPath.IsName(sid) && PosixPath.IsName(fileId)
    ensures DeletePath(PosixPath.Absolute(rs), sid, fileId) == PosixPath.Absolute(rs + (SessionUploads + [sid, "uploads", fileId]))
    ensures SessionDir(PosixPath.Absolute(rs), sid) == PosixPath.Absolute(rs + (SessionUploads + [sid]))
  {
    var root := PosixPath.Absolute(rs);
    assert [root, "workspace", "sessions", sid, "uploads", fileId] == [root] + (SessionUploads + [sid, "uploads", fileId]);
    PosixPath.JoinNames(rs, SessionUploads + [sid, "uploads", fileId]);
    SessionDirOfNames(rs, sid);
  }

  /** With plain names for the root, the session and the file, both guards pass and the path is the file in the session's uploads. */
  lemma GuardAdmitsOwnFile(rs: seq<string>, sid: string, fileId: string)
    requires |rs| > 0 && PosixPath.AllNames(rs)
    requires PosixPath.IsName(sid) && PosixPath.IsName(fileId)
    ensures DeletePath(PosixPath.Absolute(rs), sid, fileId) ==
      SessionDir(PosixPath.Absolute(rs), sid) + "/uploads/" + fileId
    ensures Guard(DeletePath(PosixPath.Absolute(rs), sid, fileId), SessionDir(PosixPath.Absolute(rs), sid))
    ensures GuardAsWritten(DeletePath(PosixPath.Absolute(rs), sid, fileId), SessionDir(PosixPath.Absolute(rs), sid))
  {
    DeletePathOfNames(rs, sid, fileId);
    var base := rs + (SessionUploads + [sid]);
    assert rs + (SessionUploads + [sid, "uploads", fileId]) == base + ["uploads", fileId];
    UploadsBelow(base, fileId);
    GuardStricter(DeletePath(PosixPath.Absolute(rs), sid, fileId), SessionDir(PosixPath.Absolute(rs), sid));
  }

  /** A file of the `uploads` directory below a directory of names. */
  lemma UploadsBelow(base: seq<string>, fileId: string)
    requires |base| > 0
    ensures PosixPath.Absolute(base + ["uploads", fileId]) == PosixPath.Absolute(base) + "/uploads/" + fileId
    ensures Str.StartsWith(PosixPath.Absolute(base + ["uploads", fileId]), PosixPath.Absolute(base) + "/")
  {
    Str.JoinConcat(base, ["uploads", fileId], "/");
    Str.JoinCons("uploads", [fileId], "/");
    var dir := PosixPath.Absolute(base);
    var p := PosixPath.Absolute(base + ["uploads", fileId]);
    assert p == (dir + "/") + ("uploads/" + fileId);
    assert p[..|dir| + 1] == dir + "/";
  }

  /**
   * `DELETE /api/files/delete` with the `sessionId` and `fileId` query
   * parameters and the set of paths that exist: missing parameters give
   * 400, a path outside the session directory 403, a path that does not
   * exist 404, and only then is the file removed. The path check is the
   * intended `Guard`.
   */
  function Delete(root: string, sessionId: Option<string>, fileId: Option<string>, existing: set<string>): (r: DeleteReply)
    ensures r.status == 400 <==> !(Present(sessionId) && Present(fileId))
    ensures r.status == 403 <==>
      Present(sessionId) && Present(fileId) &&
      !Guard(PosixPath.Normalize(DeletePath(root, sessionId.value, fileId.value)), SessionDir(root, sessionId.value))
    ensures r.status == 404 <==>
      Present(sessionId) && Present(fileId) &&
      Guard(PosixPath.Normalize(DeletePath(root, sessionId.value, fileId.value)), SessionDir(root, sessionId.value)) &&
      DeletePath(root, sessionId.value, fileId.value) !in existing
    ensures r.status == 200 || r.status == 400 || r.status == 403 || r.status == 404
    ensures r.status == 200 ==> r.remaining == existing - {DeletePath(root, sessionId.value, fileId.value)}
    ensures r.status != 200 ==> r.remaining == existing
  {
    if !(Present(sessionId) && Present(fileId)) then DeleteReply(400, MissingParams, existing)
    else
      var filePath := DeletePath(root, sessionId.value, fileId.value);
      if !Guard(PosixPath.Normalize(filePath), SessionDir(root, sessionId.value)) then DeleteReply(403, IllegalPath, existing)
      else if filePath !in existing then DeleteReply(404, NotFound, existing)
      else DeleteReply(200, Deleted, existing - {filePath})
  }

  /** A successful delete removed one path that existed, and it lies below the session directory. */
  lemma DeleteRemovesOne(root: string, sessionId: Option<string>, fileId: Option<string>, existing: set<string>)
    requires Delete(root, sessionId, fileId, existing).status == 200
    ensures exists p :: (p in existing &&
      Delete(root, sessionId, fileId, existing).remaining == existing - {p} &&
      Guard(PosixPath.Normalize(p), SessionDir(root, sessionId.value)))
  {
    var p := DeletePath(root, sessionId.value, fileId.value);
    assert p in existing;
  }

  /** The path delete computes for a stored name is where upload wrote it. */
  lemma DeleteFindsUpload(rs: seq<string>, sid: string, now: nat, name: string)
    requires |rs| > 0 && PosixPath.AllNames(rs) && PosixPath.IsName(sid)
    ensures DeletePath(PosixPath.Absolute(rs), sid, StoredName(now, name)) == StoredPath(PosixPath.Absolute(rs), Some(sid), now, name)
  {
    StoredNameIsSegment(now, name);
    UploadWritesIntoSession(rs, sid, now, name);
    DeletePathOfNames(rs, sid, StoredName(now, name));
  }

  /** The guard admits a stored name. */
  lemma GuardAdmitsUpload(rs: seq<string>, sid: string, now: nat, name: string)
    requires |rs| > 0 && PosixPath.AllNames(rs) && PosixPath.IsName(sid)
    ensures Guard(PosixPath.Normalize(DeletePath(PosixPath.Absolute(rs), sid, StoredName(now, name))), SessionDir(PosixPath.Absolute(rs), sid))
  {
    var id := StoredName(now, name);
    StoredNameIsSegment(now, name);
    DeletePathOfNames(rs, sid, id);
    SessionFileNames(rs, sid, id);
    PosixPath.NormalizeAbsolute(rs + (SessionUploads + [sid, "uploads", id]));
    GuardAdmitsOwnFile(rs, sid, id);
  }

  /** A file of a session below a root of names is named by names only. */
  lemma SessionFileNames(rs: seq<string>, sid: string, id: string)
    requires PosixPath.AllNames(rs) && PosixPath.IsName(sid) && PosixPath.IsName(id)
    ensures PosixPath.AllNames(rs + (SessionUploads + [sid, "uploads", id]))
  {
    var tail := SessionUploads + [sid, "uploads", id];
    assert PosixPath.IsName("workspace") && PosixPath.IsName("sessions") && PosixPath.IsName("uploads");
    assert PosixPath.AllNames(tail);
    PosixPath.AllNamesConcat(rs, tail);
  }

  /** A file the upload stored in a session can be deleted again by its `fileId`. */
  lemma DeleteAfterUpload(rs: seq<string>, sid: string, now: nat, name: string, existing: set<string>)
    requires |rs| > 0 && PosixPath.AllNames(rs) && PosixPath.IsName(sid)
    requires StoredPath(PosixPath.Absolute(rs), Some(sid), now, name) in existing
    ensures Delete(PosixPath.Absolute(rs), Some(sid), Some(StoredName(now, name)), existing).status == 200
  {
    DeleteFindsUpload(rs, sid, now, name);
    GuardAdmitsUpload(rs, sid, now, name);
    StoredNameIsSegment(now, name);
  }
}
