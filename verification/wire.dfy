/** The requests the client puts on the wire. `Call` lists the eleven API
    operations with their typed arguments; `Encode` is the one place that turns
    a call into its method, path, body and file fields. `Decode` is an
    independent reading of a request back into the call it came from (the
    routing a server performs); the lemmas relate the two. */
module Wire {
  import opened Results
  import opened Models

  /** The transport operations: `get`, `post` (JSON body), `post_form`
      (multipart form), `patch` and `delete`. */
  datatype Method = Get | Post | PostForm | Patch | Delete

  /** One value of a request body. Enumeration members travel as themselves. */
  datatype BodyValue =
    | Text(text: string)
    | Number(n: int)
    | Flag(flag: bool)
    | TypeTag(backupType: BackupType)
    | CriteriaTag(criteria: RecycleCriteria)
    | ActionTag(action: RecycleAction)

  type Body = map<string, BodyValue>

  /** A file field of a multipart upload: the file name and the stream. */
  datatype FilePart = FilePart(filename: string, stream: FileStream)

  /** One transport request. Requests that carry no body or no files have the
      empty map there. */
  datatype Request = Request(verb: Method, path: string, body: Body, files: map<string, FilePart>)

  /** An API operation together with its typed arguments. */
  datatype Call =
    | ListTargets
    | NewTarget(backupType: BackupType, settings: TargetSettings)
    | UploadBackup(targetId: string, file: FileStream, filename: string, manual: bool)
    | GetTarget(id: string)
    | EditTarget(id: string, settings: TargetSettings)
    | DeleteTarget(id: string, deleteFiles: bool)
    | DeleteTargetBackups(id: string, deleteFiles: bool)
    | DeleteBackup(id: string, deleteFiles: bool)
    | RecycleBackup(id: string, isRecycled: bool)
    | ListRecycledBackups
    | ClearRecycleBin(deleteFiles: bool)

  /** The keys of the settings body shared by target creation and editing. */
  const SettingsKeys: set<string> :=
    {"name", "recycle_criteria", "recycle_value", "recycle_action", "location", "name_template", "deduplicate"}

  /** The settings of a target as body fields. */
  function SettingsBody(s: TargetSettings): (body: Body)
    ensures body.Keys == SettingsKeys
  {
    map[
      "name" := Text(s.name),
      "recycle_criteria" := CriteriaTag(s.recycleCriteria),
      "recycle_value" := Number(s.recycleValue),
      "recycle_action" := ActionTag(s.recycleAction),
      "location" := Text(s.location),
      "name_template" := Text(s.nameTemplate),
      "deduplicate" := Flag(s.deduplicate)]
  }

  /** A body holding the single boolean `key`. */
  function FlagBody(key: string, b: bool): Body {
    map[key := Flag(b)]
  }

  /** The request each operation issues. */
  function Encode(c: Call): Request {
    match c
    case ListTargets => Request(Get, "target", map[], map[])
    case NewTarget(backupType, settings) =>
      Request(Post, "target", SettingsBody(settings)["backup_type" := TypeTag(backupType)], map[])
    case UploadBackup(targetId, file, filename, manual) =>
      Request(PostForm, "target/" + targetId + "/upload",
              map["manual" := Number(if manual then 1 else 0)],
              map["backup_file" := FilePart(filename, file)])
    case GetTarget(id) => Request(Get, "target/" + id, map[], map[])
    case EditTarget(id, settings) => Request(Patch, "target/" + id, SettingsBody(settings), map[])
    case DeleteTarget(id, deleteFiles) =>
      Request(Delete, "target/" + id, FlagBody("delete_files", deleteFiles), map[])
    case DeleteTargetBackups(id, deleteFiles) =>
      Request(Delete, "target/" + id + "/all", FlagBody("delete_files", deleteFiles), map[])
    case DeleteBackup(id, deleteFiles) =>
      Request(Delete, "backup/" + id, FlagBody("delete_files", deleteFiles), map[])
    case RecycleBackup(id, isRecycled) =>
      Request(Patch, "backup/" + id, FlagBody("is_recycled", isRecycled), map[])
    case ListRecycledBackups => Request(Get, "recycle_bin", map[], map[])
    case ClearRecycleBin(deleteFiles) =>
      Request(Delete, "recycle_bin", FlagBody("delete_files", deleteFiles), map[])
  }

  /** An identifier that fills exactly one path segment. */
  predicate Plain(id: string) {
    '/' !in id
  }

  /** Every identifier of the call is `Plain`. */
  predicate PlainIds(c: Call) {
    match c
    case UploadBackup(targetId, _, _, _) => Plain(targetId)
    case GetTarget(id) => Plain(id)
    case EditTarget(id, _) => Plain(id)
    case DeleteTarget(id, _) => Plain(id)
    case DeleteTargetBackups(id, _) => Plain(id)
    case DeleteBackup(id, _) => Plain(id)
    case RecycleBackup(id, _) => Plain(id)
    case _ => true
  }

  /** The single path segment between `prefix` and `suffix`, if `path` is
      `prefix`, one segment, `suffix`. */
  function Between(path: string, prefix: string, suffix: string): (r: Option<string>)
    ensures r.Some? ==> path == prefix + r.value + suffix && Plain(r.value)
  {
    if |path| < |prefix| + |suffix| then None
    else if path[..|prefix|] != prefix || path[|path| - |suffix|..] != suffix then None
    else
      var id := path[|prefix|..|path| - |suffix|];
      assert path == path[..|prefix|] + id + path[|path| - |suffix|..];
      if Plain(id) then Some(id) else None
  }

  /** The settings read back from a body with exactly the settings keys. */
  function DecodeSettings(body: Body): Option<TargetSettings> {
    if body.Keys == SettingsKeys
       && body["name"].Text? && body["recycle_criteria"].CriteriaTag?
       && body["recycle_value"].Number? && body["recycle_action"].ActionTag?
       && body["location"].Text? && body["name_template"].Text? && body["deduplicate"].Flag?
    then
      Some(TargetSettings(body["name"].text, body["recycle_criteria"].criteria,
                          body["recycle_value"].n, body["recycle_action"].action,
                          body["location"].text, body["name_template"].text,
                          body["deduplicate"].flag))
    else None
  }

  /** The boolean of a body holding only `key`. */
  function DecodeFlag(body: Body, key: string): Option<bool> {
    if body.Keys == {key} && body[key].Flag? then Some(body[key].flag) else None
  }

  /** The call a request stands for, read the way a server routes it. */
  function Decode(req: Request): Option<Call> {
    match req.verb
    case Get =>
      if req.body != map[] || req.files != map[] then None
      else if req.path == "target" then Some(ListTargets)
      else if req.path == "recycle_bin" then Some(ListRecycledBackups)
      else
        var id :- Between(req.path, "target/", "");
        Some(GetTarget(id))
    case Post =>
      if req.path != "target" || req.files != map[]
         || "backup_type" !in req.body || !req.body["backup_type"].TypeTag?
      then None
      else
        var settings :- DecodeSettings(req.body - {"backup_type"});
        Some(NewTarget(req.body["backup_type"].backupType, settings))
    case PostForm =>
      var targetId :- Between(req.path, "target/", "/upload");
      if req.body.Keys == {"manual"} && req.body["manual"].Number? && req.body["manual"].n in {0, 1}
         && req.files.Keys == {"backup_file"}
      then
        var part := req.files["backup_file"];
        Some(UploadBackup(targetId, part.stream, part.filename, req.body["manual"].n == 1))
      else None
    case Patch =>
      if req.files != map[] then None
      else if Between(req.path, "target/", "").Some? then
        var settings :- DecodeSettings(req.body);
        Some(EditTarget(Between(req.path, "target/", "").value, settings))
      else
        var id :- Between(req.path, "backup/", "");
        var isRecycled :- DecodeFlag(req.body, "is_recycled");
        Some(RecycleBackup(id, isRecycled))
    case Delete =>
      if req.files != map[] then None
      else
        var deleteFiles :- DecodeFlag(req.body, "delete_files");
        if req.path == "recycle_bin" then Some(ClearRecycleBin(deleteFiles))
        else if Between(req.path, "target/", "/all").Some? then
          Some(DeleteTargetBackups(Between(req.path, "target/", "/all").value, deleteFiles))
        else if Between(req.path, "target/", "").Some? then
          Some(DeleteTarget(Between(req.path, "target/", "").value, deleteFiles))
        else
          var id :- Between(req.path, "backup/", "");
          Some(DeleteBackup(id, deleteFiles))
  }

  /** `Between` finds every plain segment placed between its prefix and suffix. */
  lemma BetweenFinds(prefix: string, id: string, suffix: string)
    requires Plain(id)
    ensures Between(prefix + id + suffix, prefix, suffix) == Some(id)
  {
  }

  /** A path ending in a plain segment never reads as one with a further
      suffix that contains a slash. */
  lemma BetweenMisses(prefix: string, id: string, suffix: string)
    requires Plain(id) && '/' in suffix
    ensures Between(prefix + id, prefix, suffix) == None
  {
  }

  /** Reading the settings body back yields the settings. */
  lemma DecodeSettingsBody(s: TargetSettings)
    ensures DecodeSettings(SettingsBody(s)) == Some(s)
  {
  }

  /** Every call with plain identifiers is recovered from the request it
      issues: no two such calls share a request, and each request carries all
      of its call's arguments. */
  lemma DecodeEncode(c: Call)
    requires PlainIds(c)
    ensures Decode(Encode(c)) == Some(c)
  {
    match c
    case ListTargets =>
    case NewTarget(backupType, settings) => DecodeNewTarget(backupType, settings);
    case UploadBackup(targetId, file, filename, manual) =>
      BetweenFinds("target/", targetId, "/upload");
    case GetTarget(id) => DecodeGetTarget(id);
    case EditTarget(id, settings) => DecodeEditTarget(id, settings);
    case DeleteTarget(id, deleteFiles) => DecodeDeleteTarget(id, deleteFiles);
    case DeleteTargetBackups(id, deleteFiles) =>
      BetweenFinds("target/", id, "/all");
    case DeleteBackup(id, deleteFiles) => DecodeDeleteBackup(id, deleteFiles);
    case RecycleBackup(id, isRecycled) => DecodeRecycleBackup(id, isRecycled);
    case ListRecycledBackups =>
    case ClearRecycleBin(deleteFiles) =>
  }

  // The cases of DecodeEncode whose path or body takes more than unfolding.

  lemma DecodeNewTarget(backupType: BackupType, settings: TargetSettings)
    ensures Decode(Encode(NewTarget(backupType, settings))) == Some(NewTarget(backupType, settings))
  {
  }

  lemma DecodeGetTarget(id: string)
    requires Plain(id)
    ensures Decode(Encode(GetTarget(id))) == Some(GetTarget(id))
  {
    assert ("target/" + id)[0] == 't';
    assert |"target/" + id| != |"target"|;
    BetweenFinds("target/", id, "");
    assert "target/" + id + "" == "target/" + id;
  }

  lemma DecodeEditTarget(id: string, settings: TargetSettings)
    requires Plain(id)
    ensures Decode(Encode(EditTarget(id, settings))) == Some(EditTarget(id, settings))
  {
    BetweenFinds("target/", id, "");
    assert "target/" + id + "" == "target/" + id;
    DecodeSettingsBody(settings);
  }

  lemma DecodeDeleteTarget(id: string, deleteFiles: bool)
    requires Plain(id)
    ensures Decode(Encode(DeleteTarget(id, deleteFiles))) == Some(DeleteTarget(id, deleteFiles))
  {
    assert ("target/" + id)[0] == 't';
    BetweenMisses("target/", id, "/all");
    BetweenFinds("target/", id, "");
    assert "target/" + id + "" == "target/" + id;
  }

  lemma DecodeDeleteBackup(id: string, deleteFiles: bool)
    requires Plain(id)
    ensures Decode(Encode(DeleteBackup(id, deleteFiles))) == Some(DeleteBackup(id, deleteFiles))
  {
    assert ("backup/" + id)[0] == 'b';
    assert ("backup/" + id)[..7] == "backup/";
    BetweenFinds("backup/", id, "");
    assert "backup/" + id + "" == "backup/" + id;
  }

  lemma DecodeRecycleBackup(id: string, isRecycled: bool)
    requires Plain(id)
    ensures Decode(Encode(RecycleBackup(id, isRecycled))) == Some(RecycleBackup(id, isRecycled))
  {
    assert ("backup/" + id)[..7] == "backup/";
    BetweenFinds("backup/", id, "");
    assert "backup/" + id + "" == "backup/" + id;
  }

  /** Distinct calls with plain identifiers issue distinct requests. */
  lemma EncodeInjective(a: Call, b: Call)
    requires PlainIds(a) && PlainIds(b)
    requires Encode(a) == Encode(b)
    ensures a == b
  {
    DecodeEncode(a);
    DecodeEncode(b);
  }

  /** Identifiers are spliced into paths without escaping, so one holding a
      slash can make two different calls issue the same request. */
  lemma UnescapedIdsCollide(deleteFiles: bool)
    ensures DeleteTarget("x/all", deleteFiles) != DeleteTargetBackups("x", deleteFiles)
    ensures Encode(DeleteTarget("x/all", deleteFiles)) == Encode(DeleteTargetBackups("x", deleteFiles))
  {
  }

  /** Editing sends exactly the fields creation sends, less `backup_type`. */
  lemma EditSendsCreationFieldsButType(id: string, backupType: BackupType, s: TargetSettings)
    ensures "backup_type" !in Encode(EditTarget(id, s)).body
    ensures Encode(EditTarget(id, s)).body == Encode(NewTarget(backupType, s)).body - {"backup_type"}
  {
  }
}
