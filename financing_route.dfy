/** `/api/financing`: GET lists the financing partners; POST stores an uploaded logo under
    the public `uploads` directory and creates a partner that points at it. The clock, the
    file system's and the database's failures are parameters. */
module FinancingRoute {
  import opened Common
  import opened Numbers
  import opened Forms
  import opened Paths

  /** A row of the `financingPartner` table; `logo` is the public path of the stored file. */
  datatype PartnerRecord = PartnerRecord(
    id: nat, name: string, logo: string, description: string, additionalInfo: Option<string>)

  /** GET. `fault` says that `findMany` throws. */
  function GetPartners(rows: seq<PartnerRecord>, fault: bool): (r: Response<seq<PartnerRecord>>)
    ensures fault <==> r == Error(500, "Failed to fetch financing partners")
    ensures !fault ==> r == Response(200, Json(rows))
  {
    if fault then Error(500, "Failed to fetch financing partners") else JsonOk(rows)
  }

  /** The stored file's name AS WRITTEN: the upload time in milliseconds, a dash, and the
      name the client gave the file, slashes and all. */
  function LogoFileNameAsWritten(nowMs: nat, uploaded: string): (r: string)
    ensures |r| > |uploaded| && r[|r| - |uploaded|..] == uploaded && r[|r| - |uploaded| - 1] == '-'
    ensures ParseInt(r[..|r| - |uploaded| - 1]) == Finite(nowMs)
  {
    var digits := NumberToString(Finite(nowMs));
    ParseIntOfString(Finite(nowMs));
    var r := digits + "-" + uploaded;
    assert r[..|r| - |uploaded| - 1] == digits;
    r
  }

  /** AS WRITTEN, a client that names its logo "../../../x" has the file written as `x` in
      the parent of the uploads directory, outside it: `path.join` resolves the `..`
      segments, the first of which cancels the timestamp segment. */
  lemma UploadEscapesAsWritten(uploadDir: seq<string>, nowMs: nat)
    requires |uploadDir| >= 1
    ensures Join(uploadDir, LogoFileNameAsWritten(nowMs, "../../../x")) == uploadDir[..|uploadDir| - 1] + ["x"]
    ensures !Inside(uploadDir, Join(uploadDir, LogoFileNameAsWritten(nowMs, "../../../x")))
  {
    var digits := NatDigits(nowMs);
    var first := digits + "-..";
    assert forall i :: 0 <= i < |digits| ==> digits[i] != '/';
    assert '/' !in first;
    assert LogoFileNameAsWritten(nowMs, "../../../x") == first + "/" + (".." + "/" + (".." + "/" + "x"));
    SplitAtSlash(first, ".." + "/" + (".." + "/" + "x"));
    SplitAtSlash("..", ".." + "/" + "x");
    SplitAtSlash("..", "x");
    SplitWithoutSlash("x");
    var segs := [first, "..", "..", "x"];
    assert Split(LogoFileNameAsWritten(nowMs, "../../../x")) == segs;
    assert segs[1..] == ["..", "..", "x"] && segs[2..] == ["..", "x"] && segs[3..] == ["x"];
    assert Resolve(uploadDir, segs) == Resolve(uploadDir + [first], ["..", "..", "x"]);
    assert (uploadDir + [first])[..|uploadDir|] == uploadDir;
    assert Resolve(uploadDir + [first], ["..", "..", "x"]) == Resolve(uploadDir, ["..", "x"]);
    assert Resolve(uploadDir, ["..", "x"]) == Resolve(uploadDir[..|uploadDir| - 1], ["x"]);
    assert ["x"][1..] == [];
  }

  lemma NoSlashInConcat(a: string, b: string, c: string)
    requires AllDigits(a) && '/' !in b && '/' !in c
    ensures '/' !in a + b + c
  {
    var s := a + b + c;
    forall i | 0 <= i < |s| ensures s[i] != '/' {
      if i < |a| {
        assert s[i] == a[i];
      } else if i < |a| + |b| {
        assert s[i] == b[i - |a|];
      } else {
        assert s[i] == c[i - |a| - |b|];
      }
    }
  }

  lemma DashIsNotDots(r: string, k: nat)
    requires k < |r| && r[k] == '-'
    ensures r != "" && r != "." && r != ".."
  {
  }

  /** The stored file's name with the client's directory part dropped: the upload time, a
      dash and the name after the last slash. For a name without slashes it is the name
      as written. */
  function LogoFileName(nowMs: nat, uploaded: string): (r: string)
    ensures '/' !in r && r != "" && r != "." && r != ".."
    ensures |r| > |BaseName(uploaded)| && r[|r| - |BaseName(uploaded)|..] == BaseName(uploaded)
    ensures '/' !in uploaded ==> r == LogoFileNameAsWritten(nowMs, uploaded)
  {
    var digits := NumberToString(Finite(nowMs));
    var base := BaseName(uploaded);
    var r := digits + "-" + base;
    assert digits == NatDigits(nowMs);
    NoSlashInConcat(digits, "-", base);
    DashIsNotDots(r, |digits|);
    assert r == (digits + "-") + base;
    assert r[|r| - |base|..] == base;
    r
  }

  /** With the directory part dropped, the logo is always written directly inside the
      uploads directory, under the name its public path carries. */
  lemma LogoStaysInUploads(uploadDir: seq<string>, nowMs: nat, uploaded: string)
    ensures Join(uploadDir, LogoFileName(nowMs, uploaded)) == uploadDir + [LogoFileName(nowMs, uploaded)]
    ensures Inside(uploadDir, Join(uploadDir, LogoFileName(nowMs, uploaded)))
  {
    JoinPlainName(uploadDir, LogoFileName(nowMs, uploaded));
  }

  /** The public path of a file in the uploads directory. */
  function LogoPath(fileName: string): string {
    "/uploads/" + fileName
  }

  /** The text of an optional column: a missing entry is null, a file is rejected (None). */
  function OptionalText(v: Option<FormValue>): Option<Option<string>> {
    match v
    case None => Some(None)
    case Some(Text(s)) => Some(Some(s))
    case Some(Upload(_)) => None
  }

  /** Whether POST passes its check of the required fields: name, description and logo must
      all be truthy. */
  predicate HasRequired(entries: seq<Entry>) {
    Truthy(Get(entries, "name")) && Truthy(Get(entries, "description")) && Truthy(Get(entries, "logo"))
  }

  /** The part of the outcome that depends only on the form: 400 for a missing field, None
      when the logo is text (reading it as a file throws), else the logo file. */
  function LogoOf(entries: seq<Entry>): (r: Option<File>)
    ensures r.Some? ==> HasRequired(entries) && Get(entries, "logo") == Some(Upload(r.value))
    ensures HasRequired(entries) && Get(entries, "logo").value.Upload? ==> r.Some?
  {
    if HasRequired(entries) && Get(entries, "logo").value.Upload? then Some(Get(entries, "logo").value.file)
    else None
  }

  /** The row POST creates, or None when the database rejects the values: name and
      description must be text, additional information text or absent. */
  function NewRow(entries: seq<Entry>, id: nat, logo: string): (r: Option<PartnerRecord>)
    ensures r.Some? ==> r.value.id == id && r.value.logo == logo && Get(entries, "name") == Some(Text(r.value.name)) &&
                        Get(entries, "description") == Some(Text(r.value.description))
    ensures r.Some? ==> (r.value.additionalInfo.None? <==> Get(entries, "additionalInfo").None?)
    ensures r.Some? && r.value.additionalInfo.Some? ==>
      Get(entries, "additionalInfo") == Some(Text(r.value.additionalInfo.value))
    ensures r.Some? <==> (Get(entries, "name").Some? && Get(entries, "name").value.Text? &&
                          Get(entries, "description").Some? && Get(entries, "description").value.Text? &&
                          !(Get(entries, "additionalInfo").Some? && Get(entries, "additionalInfo").value.Upload?))
  {
    match (Get(entries, "name"), Get(entries, "description"), OptionalText(Get(entries, "additionalInfo")))
    case (Some(Text(name)), Some(Text(description)), Some(info)) => Some(PartnerRecord(id, name, logo, description, info))
    case _ => None
  }

  /** Ids in increasing order, all below the next one handed out. */
  predicate IdsBelow(rows: seq<PartnerRecord>, nextId: nat) {
    (forall i, j :: 0 <= i < j < |rows| ==> rows[i].id < rows[j].id) &&
    (forall i :: 0 <= i < |rows| ==> rows[i].id < nextId)
  }

  /** A row with the next id, appended, keeps the ids ordered and below the new next id. */
  lemma AppendKeepsIdsBelow(rows: seq<PartnerRecord>, nextId: nat, row: PartnerRecord)
    requires IdsBelow(rows, nextId) && row.id == nextId
    ensures IdsBelow(rows + [row], nextId + 1)
  {
  }

  /** What one POST does: its reply, the file it writes (path and bytes), if any, and the
      row it inserts, if any. */
  datatype Outcome = Outcome(response: Response<PartnerRecord>, written: Option<(seq<string>, seq<Base64.byte>)>,
                             created: Option<PartnerRecord>)

  /** POST with `nextId` as the next id, as written: the file goes to `path.join` of the
      uploads directory and the raw file name. `writeOk` says whether `writeFile` succeeds
      (it fails, for one, when the joined path names a directory that does not exist).
      A missing field answers 400 before anything is stored; a logo that is not a file, or a
      failed write, answers 500 with nothing stored; after the write, a rejected or failed
      insert answers 500 and the file stays. */
  function PostOutcome(uploadDir: seq<string>, entries: seq<Entry>, nowMs: nat, writeOk: bool, createOk: bool,
                       nextId: nat): (p: Outcome)
    ensures !HasRequired(entries) <==> p.response == Error(400, "Missing required fields")
    ensures !HasRequired(entries) ==> p.written.None? && p.created.None?
    ensures p.written.Some? <==> LogoOf(entries).Some? && writeOk
    ensures p.written.Some? ==>
      var name := LogoFileNameAsWritten(nowMs, LogoOf(entries).value.name);
      p.written.value == (Join(uploadDir, name), LogoOf(entries).value.bytes)
    ensures p.created.Some? <==> p.response.Ok()
    ensures p.created.Some? <==>
      p.written.Some? && createOk &&
      NewRow(entries, nextId, LogoPath(LogoFileNameAsWritten(nowMs, LogoOf(entries).value.name))).Some?
    ensures p.created.Some? ==>
      p.created == NewRow(entries, nextId, LogoPath(LogoFileNameAsWritten(nowMs, LogoOf(entries).value.name))) &&
      p.response == JsonOk(p.created.value) && p.created.value.id == nextId
    ensures HasRequired(entries) && p.created.None? ==> p.response == Error(500, "Failed to create financing partner")
  {
    if !HasRequired(entries) then Outcome(Error(400, "Missing required fields"), None, None)
    else if LogoOf(entries).None? || !writeOk then Outcome(Error(500, "Failed to create financing partner"), None, None)
    else
      var file := LogoOf(entries).value;
      var name := LogoFileNameAsWritten(nowMs, file.name);
      var row := NewRow(entries, nextId, LogoPath(name));
      if row.Some? && createOk then Outcome(JsonOk(row.value), Some((Join(uploadDir, name), file.bytes)), row)
      else Outcome(Error(500, "Failed to create financing partner"), Some((Join(uploadDir, name), file.bytes)), None)
  }

  /** The `financingPartner` table with its auto-incremented id, and the files written so
      far, by path. `uploadDir` is the absolute, normalised path of `public/uploads`. */
  class PartnerStore {
    var rows: seq<PartnerRecord>
    var nextId: nat
    var files: map<seq<string>, seq<Base64.byte>>
    const uploadDir: seq<string>

    ghost predicate Valid()
      reads this
    {
      IdsBelow(rows, nextId)
    }

    constructor (uploadDir: seq<string>)
      ensures Valid() && rows == [] && nextId == 1 && files == map[] && this.uploadDir == uploadDir
    {
      rows := [];
      nextId := 1;
      files := map[];
      this.uploadDir := uploadDir;
    }

    /** `writeFile(path, bytes)`: the file at `path` now holds `bytes`. */
    method WriteUpload(path: seq<string>, bytes: seq<Base64.byte>)
      modifies this
      ensures files == old(files)[path := bytes]
      ensures rows == old(rows) && nextId == old(nextId)
    {
      files := files[path := bytes];
    }

    /** POST at time `nowMs`: the reply, the file written and the row inserted are those
        PostOutcome plans. */
    method Post(entries: seq<Entry>, nowMs: nat, writeOk: bool, createOk: bool) returns (r: Response<PartnerRecord>)
      requires Valid()
      modifies this
      ensures Valid()
      ensures var p := PostOutcome(uploadDir, entries, nowMs, writeOk, createOk, old(nextId));
        r == p.response &&
        files == (if p.written.Some? then old(files)[p.written.value.0 := p.written.value.1] else old(files)) &&
        rows == old(rows) + (if p.created.Some? then [p.created.value] else []) &&
        nextId == old(nextId) + (if p.created.Some? then 1 else 0)
    {
      if !HasRequired(entries) {
        return Error(400, "Missing required fields");
      }
      var logo := LogoOf(entries);
      if logo.None? || !writeOk {
        return Error(500, "Failed to create financing partner");
      }
      var fileName := LogoFileNameAsWritten(nowMs, logo.value.name);
      var logoPath := LogoPath(fileName);
      WriteUpload(Join(uploadDir, fileName), logo.value.bytes);
      var row := NewRow(entries, nextId, logoPath);
      if row.None? || !createOk {
        return Error(500, "Failed to create financing partner");
      }
      AppendKeepsIdsBelow(rows, nextId, row.value);
      rows := rows + [row.value];
      nextId := nextId + 1;
      r := JsonOk(row.value);
    }
  }

  /** The logo path a created partner carries is `/uploads/` followed by the name POST
      wrote the file under. For an uploaded name without a slash that path is the written
      file, directly inside the uploads directory; the corrected name `LogoFileName` gives
      the same name there, and keeps this for every uploaded name. */
  lemma CreatedLogoIsStored(uploadDir: seq<string>, entries: seq<Entry>, nowMs: nat, writeOk: bool, createOk: bool,
                            nextId: nat)
    requires PostOutcome(uploadDir, entries, nowMs, writeOk, createOk, nextId).created.Some?
    ensures var p := PostOutcome(uploadDir, entries, nowMs, writeOk, createOk, nextId);
      var logo := p.created.value.logo;
      |logo| >= 9 && logo[..9] == "/uploads/" &&
      p.written.value == (Join(uploadDir, logo[9..]), LogoOf(entries).value.bytes) &&
      ('/' !in LogoOf(entries).value.name ==>
         logo[9..] == LogoFileName(nowMs, LogoOf(entries).value.name) &&
         p.written.value.0 == uploadDir + [logo[9..]] && Inside(uploadDir, p.written.value.0))
  {
    var file := LogoOf(entries).value;
    var name := LogoFileNameAsWritten(nowMs, file.name);
    var p := PostOutcome(uploadDir, entries, nowMs, writeOk, createOk, nextId);
    assert p.created.value.logo == "/uploads/" + name;
    assert p.created.value.logo[9..] == name;
    if '/' !in file.name {
      JoinPlainName(uploadDir, LogoFileName(nowMs, file.name));
    }
  }

  /** AS WRITTEN, a POST whose logo file is named "../../../x" writes the file as `x` in the
      parent of the uploads directory. */
  lemma PostWritesOutsideUploadsAsWritten(uploadDir: seq<string>, entries: seq<Entry>, nowMs: nat, createOk: bool,
                                          nextId: nat)
    requires |uploadDir| >= 1
    requires LogoOf(entries).Some? && LogoOf(entries).value.name == "../../../x"
    ensures var p := PostOutcome(uploadDir, entries, nowMs, true, createOk, nextId);
      p.written.Some? && p.written.value.0 == uploadDir[..|uploadDir| - 1] + ["x"] &&
      !Inside(uploadDir, p.written.value.0)
  {
    UploadEscapesAsWritten(uploadDir, nowMs);
  }
}
