/** The `API` class: each operation issues exactly one request through the
    connection and turns the response into its result. The connection is the
    transport, seen only as a function from request to response; each reply
    records the requests that were sent. */
module Api {
  import opened Results
  import opened Json
  import opened Envelope
  import opened Models
  import opened Projection
  import opened Wire

  // Each operation here shares its name with the `Call` constructor that
  // describes it on the wire; inside this module the bare name is the
  // operation and `Call.<Name>` is the wire call.

  /** The transport: one response for each request. */
  type Connection = Request -> Response

  /** What an operation did: the requests it sent, in order, and its outcome. */
  datatype Reply<T> = Reply(sent: seq<Request>, result: Result<T, ApiError>)

  /** Sends the call's request once and reads the response with `read`. */
  function Exchange<T>(conn: Connection, c: Call, read: Response -> Result<T, ApiError>): Reply<T> {
    var request := Encode(c);
    Reply([request], read(conn(request)))
  }

  /** The outcome of an operation that returns nothing: success exactly when
      the response is accepted. */
  function Acknowledge(response: Response): (r: Result<(), ApiError>)
    ensures r.Success? <==> Accepted(response.payload)
    ensures r.Failure? ==> r.error == ServerError(response.payload, response.status)
  {
    var _ :- CheckSuccess(response);
    Success(())
  }

  /** `list_targets`: GET `target`, then every element of `targets` through
      `BackupTarget.from_dict`, in order. The success marker is not consulted. */
  function ListTargets<T>(conn: Connection, targetFromDict: Json -> T): (r: Reply<seq<T>>)
    ensures r.sent == [Request(Get, "target", map[], map[])]
    ensures var payload := conn(r.sent[0]).payload;
            && (r.result.Success? <==> "targets" in payload && payload["targets"].JList?)
            && ("targets" !in payload ==> r.result == Failure(MissingKey("targets")))
            && ("targets" in payload && !payload["targets"].JList? ==>
                  r.result == Failure(NotAList("targets")))
            && (r.result.Success? ==>
                  && |r.result.value| == |payload["targets"].items|
                  && forall i :: 0 <= i < |r.result.value| ==>
                       r.result.value[i] == targetFromDict(payload["targets"].items[i]))
  {
    Exchange(conn, Call.ListTargets,
             (response: Response) => Items(response.payload, "targets", targetFromDict))
  }

  /** `new_target`: POST `target` with exactly the eight creation fields, then
      the `id` of the response, whatever its success marker says. */
  function NewTarget(conn: Connection, name: string, backupType: BackupType,
                     recycleCriteria: RecycleCriteria, recycleValue: int,
                     recycleAction: RecycleAction, location: string,
                     nameTemplate: string, deduplicate: bool): (r: Reply<Json>)
    ensures |r.sent| == 1
    ensures r.sent[0].verb == Post && r.sent[0].path == "target" && r.sent[0].files == map[]
    ensures r.sent[0].body.Keys ==
              {"name", "backup_type", "recycle_criteria", "recycle_value", "recycle_action",
               "location", "name_template", "deduplicate"}
    ensures Decode(r.sent[0]) ==
              Some(Call.NewTarget(backupType, TargetSettings(name, recycleCriteria, recycleValue,
                                                             recycleAction, location, nameTemplate,
                                                             deduplicate)))
    ensures var payload := conn(r.sent[0]).payload;
            && (r.result.Success? <==> "id" in payload)
            && (r.result.Success? ==> r.result.value == payload["id"])
            && (r.result.Failure? ==> r.result.error == MissingKey("id"))
  {
    var settings := TargetSettings(name, recycleCriteria, recycleValue, recycleAction,
                                   location, nameTemplate, deduplicate);
    var call := Call.NewTarget(backupType, settings);
    DecodeEncode(call);
    Exchange(conn, call, (response: Response) => Field(response.payload, "id"))
  }

  /** `upload_backup`: a multipart POST to `target/<target_id>/upload` whose
      form is exactly `manual` as 1 or 0 and whose one file field is
      `backup_file`; the `id` of the response once it is accepted. */
  function UploadBackup(conn: Connection, targetId: string, file: FileStream,
                        filename: string, manual: bool): (r: Reply<Json>)
    ensures r.sent == [Request(PostForm, "target/" + targetId + "/upload",
                               map["manual" := Number(if manual then 1 else 0)],
                               map["backup_file" := FilePart(filename, file)])]
    ensures var response := conn(r.sent[0]);
            && (r.result.Success? <==> Accepted(response.payload) && "id" in response.payload)
            && (r.result.Success? ==> r.result.value == response.payload["id"])
            && (!Accepted(response.payload) ==>
                  r.result == Failure(ServerError(response.payload, response.status)))
            && (Accepted(response.payload) && "id" !in response.payload ==>
                  r.result == Failure(MissingKey("id")))
  {
    Exchange(conn, Call.UploadBackup(targetId, file, filename, manual),
             (response: Response) => (var payload :- CheckSuccess(response); Field(payload, "id")))
  }

  /** The result `get_target` makes of its response: validated first, then
      `target` converted before `backups` is looked at. */
  function TargetDetail<T, B>(response: Response, targetFromDict: Json -> T,
                              backupFromDict: Json -> B): (r: Result<(T, seq<B>), ApiError>)
    ensures var payload := response.payload;
            && (r.Success? <==>
                  Accepted(payload) && "target" in payload && "backups" in payload && payload["backups"].JList?)
            && (!Accepted(payload) ==> r == Failure(ServerError(payload, response.status)))
            && (Accepted(payload) && "target" !in payload ==> r == Failure(MissingKey("target")))
            && (Accepted(payload) && "target" in payload && "backups" !in payload ==>
                  r == Failure(MissingKey("backups")))
            && (Accepted(payload) && "target" in payload && "backups" in payload && !payload["backups"].JList? ==>
                  r == Failure(NotAList("backups")))
            && (r.Success? ==>
                  && r.value.0 == targetFromDict(payload["target"])
                  && |r.value.1| == |payload["backups"].items|
                  && forall i :: 0 <= i < |r.value.1| ==>
                       r.value.1[i] == backupFromDict(payload["backups"].items[i]))
  {
    var payload :- CheckSuccess(response);
    var target :- Field(payload, "target");
    var backups :- Items(payload, "backups", backupFromDict);
    Success((targetFromDict(target), backups))
  }

  /** `get_target`: GET `target/<id>`; once accepted, the target through
      `BackupTarget.from_dict` and every element of `backups` through
      `Backup.from_dict`, in order. A missing `target` is reported before
      anything about `backups`. */
  function GetTarget<T, B>(conn: Connection, id: string, targetFromDict: Json -> T,
                           backupFromDict: Json -> B): (r: Reply<(T, seq<B>)>)
    ensures r.sent == [Request(Get, "target/" + id, map[], map[])]
    ensures var response := conn(r.sent[0]);
            var payload := response.payload;
            && (r.result.Success? <==>
                  Accepted(payload) && "target" in payload && "backups" in payload && payload["backups"].JList?)
            && (!Accepted(payload) ==> r.result == Failure(ServerError(payload, response.status)))
            && (Accepted(payload) && "target" !in payload ==> r.result == Failure(MissingKey("target")))
            && (Accepted(payload) && "target" in payload && "backups" !in payload ==>
                  r.result == Failure(MissingKey("backups")))
            && (Accepted(payload) && "target" in payload && "backups" in payload && !payload["backups"].JList? ==>
                  r.result == Failure(NotAList("backups")))
            && (r.result.Success? ==>
                  && r.result.value.0 == targetFromDict(payload["target"])
                  && |r.result.value.1| == |payload["backups"].items|
                  && forall i :: 0 <= i < |r.result.value.1| ==>
                       r.result.value.1[i] == backupFromDict(payload["backups"].items[i]))
  {
    Exchange(conn, Call.GetTarget(id),
             (response: Response) => TargetDetail(response, targetFromDict, backupFromDict))
  }

  /** `edit_target`: PATCH `target/<id>` with exactly the seven mutable
      fields (never `backup_type`); succeeds exactly when accepted. */
  function EditTarget(conn: Connection, id: string, name: string,
                      recycleCriteria: RecycleCriteria, recycleValue: int,
                      recycleAction: RecycleAction, location: string,
                      nameTemplate: string, deduplicate: bool): (r: Reply<()>)
    ensures |r.sent| == 1
    ensures r.sent[0].verb == Patch && r.sent[0].path == "target/" + id && r.sent[0].files == map[]
    ensures r.sent[0].body.Keys ==
              {"name", "recycle_criteria", "recycle_value", "recycle_action",
               "location", "name_template", "deduplicate"}
    ensures DecodeSettings(r.sent[0].body) ==
              Some(TargetSettings(name, recycleCriteria, recycleValue, recycleAction,
                                  location, nameTemplate, deduplicate))
    ensures Plain(id) ==>
              Decode(r.sent[0]) ==
                Some(Call.EditTarget(id, TargetSettings(name, recycleCriteria, recycleValue,
                                                        recycleAction, location, nameTemplate,
                                                        deduplicate)))
    ensures var response := conn(r.sent[0]);
            && (r.result.Success? <==> Accepted(response.payload))
            && (r.result.Failure? ==> r.result.error == ServerError(response.payload, response.status))
  {
    var settings := TargetSettings(name, recycleCriteria, recycleValue, recycleAction,
                                   location, nameTemplate, deduplicate);
    var call := Call.EditTarget(id, settings);
    DecodeSettingsBody(settings);
    assert Plain(id) ==> Decode(Encode(call)) == Some(call) by {
      if Plain(id) {
        DecodeEncode(call);
      }
    }
    Exchange(conn, call, Acknowledge)
  }

  /** `delete_target`: DELETE `target/<id>` with body exactly
      `delete_files`; succeeds exactly when accepted. */
  function DeleteTarget(conn: Connection, id: string, deleteFiles: bool): (r: Reply<()>)
    ensures r.sent == [Request(Delete, "target/" + id, map["delete_files" := Flag(deleteFiles)], map[])]
    ensures var response := conn(r.sent[0]);
            && (r.result.Success? <==> Accepted(response.payload))
            && (r.result.Failure? ==> r.result.error == ServerError(response.payload, response.status))
  {
    Exchange(conn, Call.DeleteTarget(id, deleteFiles), Acknowledge)
  }

  /** `delete_target_backups`: DELETE `target/<id>/all` with body exactly
      `delete_files`; succeeds exactly when accepted. */
  function DeleteTargetBackups(conn: Connection, id: string, deleteFiles: bool): (r: Reply<()>)
    ensures r.sent == [Request(Delete, "target/" + id + "/all", map["delete_files" := Flag(deleteFiles)], map[])]
    ensures var response := conn(r.sent[0]);
            && (r.result.Success? <==> Accepted(response.payload))
            && (r.result.Failure? ==> r.result.error == ServerError(response.payload, response.status))
  {
    Exchange(conn, Call.DeleteTargetBackups(id, deleteFiles), Acknowledge)
  }

  /** `delete_backup`: DELETE `backup/<id>` with body exactly `delete_files`;
      succeeds exactly when accepted. */
  function DeleteBackup(conn: Connection, id: string, deleteFiles: bool): (r: Reply<()>)
    ensures r.sent == [Request(Delete, "backup/" + id, map["delete_files" := Flag(deleteFiles)], map[])]
    ensures var response := conn(r.sent[0]);
            && (r.result.Success? <==> Accepted(response.payload))
            && (r.result.Failure? ==> r.result.error == ServerError(response.payload, response.status))
  {
    Exchange(conn, Call.DeleteBackup(id, deleteFiles), Acknowledge)
  }

  /** `recycle_backup`: PATCH `backup/<id>` with body exactly `is_recycled`;
      succeeds exactly when accepted. */
  function RecycleBackup(conn: Connection, id: string, isRecycled: bool): (r: Reply<()>)
    ensures r.sent == [Request(Patch, "backup/" + id, map["is_recycled" := Flag(isRecycled)], map[])]
    ensures var response := conn(r.sent[0]);
            && (r.result.Success? <==> Accepted(response.payload))
            && (r.result.Failure? ==> r.result.error == ServerError(response.payload, response.status))
  {
    Exchange(conn, Call.RecycleBackup(id, isRecycled), Acknowledge)
  }

  /** `list_recycled_backups`: GET `recycle_bin`; once accepted, every element
      of `backups` through `Backup.from_dict`, in order. */
  function ListRecycledBackups<B>(conn: Connection, backupFromDict: Json -> B): (r: Reply<seq<B>>)
    ensures r.sent == [Request(Get, "recycle_bin", map[], map[])]
    ensures var response := conn(r.sent[0]);
            var payload := response.payload;
            && (r.result.Success? <==> Accepted(payload) && "backups" in payload && payload["backups"].JList?)
            && (!Accepted(payload) ==> r.result == Failure(ServerError(payload, response.status)))
            && (Accepted(payload) && "backups" !in payload ==> r.result == Failure(MissingKey("backups")))
            && (Accepted(payload) && "backups" in payload && !payload["backups"].JList? ==>
                  r.result == Failure(NotAList("backups")))
            && (r.result.Success? ==>
                  && |r.result.value| == |payload["backups"].items|
                  && forall i :: 0 <= i < |r.result.value| ==>
                       r.result.value[i] == backupFromDict(payload["backups"].items[i]))
  {
    Exchange(conn, Call.ListRecycledBackups,
             (response: Response) => (
               var payload :- CheckSuccess(response);
               Items(payload, "backups", backupFromDict)))
  }

  /** `clear_recycle_bin`: DELETE `recycle_bin` with body exactly
      `delete_files`; succeeds exactly when accepted. */
  function ClearRecycleBin(conn: Connection, deleteFiles: bool): (r: Reply<()>)
    ensures r.sent == [Request(Delete, "recycle_bin", map["delete_files" := Flag(deleteFiles)], map[])]
    ensures var response := conn(r.sent[0]);
            && (r.result.Success? <==> Accepted(response.payload))
            && (r.result.Failure? ==> r.result.error == ServerError(response.payload, response.status))
  {
    Exchange(conn, Call.ClearRecycleBin(deleteFiles), Acknowledge)
  }

  /** Two payloads that differ at most in their success marker. */
  predicate SameButMarker(a: Payload, b: Payload) {
    a - {SuccessKey} == b - {SuccessKey}
  }

  /** `new_target` reads its `id` without validating: two transports whose
      answers differ only in the success marker and the status give the same
      result. */
  lemma NewTargetIgnoresSuccessMarker(conn1: Connection, conn2: Connection, name: string,
                                      backupType: BackupType, recycleCriteria: RecycleCriteria,
                                      recycleValue: int, recycleAction: RecycleAction,
                                      location: string, nameTemplate: string, deduplicate: bool)
    requires var request := Encode(Call.NewTarget(backupType, TargetSettings(name, recycleCriteria,
                                   recycleValue, recycleAction, location, nameTemplate, deduplicate)));
             SameButMarker(conn1(request).payload, conn2(request).payload)
    ensures NewTarget(conn1, name, backupType, recycleCriteria, recycleValue, recycleAction,
                      location, nameTemplate, deduplicate).result
            == NewTarget(conn2, name, backupType, recycleCriteria, recycleValue, recycleAction,
                         location, nameTemplate, deduplicate).result
  {
    var request := Encode(Call.NewTarget(backupType, TargetSettings(name, recycleCriteria,
                          recycleValue, recycleAction, location, nameTemplate, deduplicate)));
    SameOutsideMarker(conn1(request).payload, conn2(request).payload, "id");
  }

  /** `list_targets` reads `targets` without validating: two transports whose
      answers differ only in the success marker and the status give the same
      result. */
  lemma ListTargetsIgnoresSuccessMarker<T>(conn1: Connection, conn2: Connection, targetFromDict: Json -> T)
    requires SameButMarker(conn1(Encode(Call.ListTargets)).payload, conn2(Encode(Call.ListTargets)).payload)
    ensures ListTargets(conn1, targetFromDict).result == ListTargets(conn2, targetFromDict).result
  {
    SameOutsideMarker(conn1(Encode(Call.ListTargets)).payload, conn2(Encode(Call.ListTargets)).payload, "targets");
  }

  /** Payloads equal outside the marker agree on every other key. */
  lemma SameOutsideMarker(a: Payload, b: Payload, key: string)
    requires SameButMarker(a, b) && key != SuccessKey
    ensures key in a <==> key in b
    ensures key in a ==> a[key] == b[key]
  {
    assert key in a <==> key in a - {SuccessKey};
    assert key in b <==> key in b - {SuccessKey};
    if key in a {
      assert a[key] == (a - {SuccessKey})[key];
      assert b[key] == (b - {SuccessKey})[key];
    }
  }

  /** In contrast, an upload whose answer lacks the success marker fails with
      the server's payload even when that payload carries an `id`. */
  lemma UploadBackupNeedsSuccessMarker(conn: Connection, targetId: string, file: FileStream,
                                       filename: string, manual: bool, id: Json, status: int)
    requires conn(Encode(Call.UploadBackup(targetId, file, filename, manual))) == Response(map["id" := id], status)
    ensures UploadBackup(conn, targetId, file, filename, manual).result
            == Failure(ServerError(map["id" := id], status))
  {
  }
}
