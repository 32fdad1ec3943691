# Backupchan client API, modelled in Dafny

This project models the client side of the Backupchan backup service, as
implemented in `backupchan/api.py`. There are two parts.

- **The response-envelope validator `check_success`.** Every transport call
  returns a payload and an HTTP status. The validator passes the payload
  through unchanged when its `success` entry is present and truthy in
  Python's sense. Otherwise it raises `BackupchanAPIError`, which the model
  keeps as `ServerError(payload, status)`.
- **The eleven `API` operations.** Each one serialises its typed arguments
  into exactly one transport request: a method, a path, a body and file
  fields. It then reads the response, either through `check_success` or, for
  `list_targets` and `new_target`, directly.

The transport (`Connection`) is a function from request to response. Each
operation returns a `Reply`, which records the requests it sent together with
its outcome, so "exactly one request, with this path and body" is part of
every contract. `BackupTarget.from_dict` and `Backup.from_dict` are passed in
as uninterpreted functions.

Modules:

- `Results` (results.dfy): `Option` and `Result`.
- `Json` (json.dfy): decoded JSON values and Python truthiness.
- `Envelope` (envelope.dfy): the response, the error kinds and `CheckSuccess`.
- `Models` (models.dfy): opaque enumeration members, the file stream and the
  target settings.
- `Wire` (wire.dfy): `Call` (one constructor per operation) and `Encode`, the
  single place where requests are built. It also holds `Decode`, an independent
  reading of a request back into its call, which is the routing a server
  performs.
- `Projection` (projection.dfy): subscripting and list comprehensions over
  payloads.
- `Api` (api.dfy): the operations.

The round trip `Decode(Encode(c)) == Some(c)` holds for every call whose
identifiers contain no `/`. Identifiers are spliced into paths without
escaping. So `delete_target("x/all", d)` and `delete_target_backups("x", d)`
send the same request (`Wire.UnescapedIdsCollide`). Identifiers are assigned
by the server, so this is recorded as a limit of the round trip, not as a
defect.

The service's wider interface also describes other things: folder uploads,
paging of `list_targets` (`target?page=N`), log and stats retrieval, and a
rule that every operation goes through the validator. `api.py` does differ
from that description. It requests plain `target`, has none of the extra
calls, and `list_targets` and `new_target` skip `check_success`. The model
follows `api.py`.

## Model

| member | source | states |
|---|---|---|
| Json.FalsyValues | backupchan/api.py:10 | the values `not` treats as false are exactly None, False, 0, 0.0, the empty string, the empty list and the empty dict |
| Envelope.CheckSuccess | backupchan/api.py:8-12 | succeeds exactly when `success` is present and truthy, and then returns the payload unchanged; otherwise fails with an error carrying the whole payload and the status |
| Envelope.CheckSuccessIgnoresStatus | backupchan/api.py:9-11 | whether a response passes does not depend on its status; a failure reports the status it was given |
| Envelope.CheckSuccessIdempotent | backupchan/api.py:8-12 | a payload that passed validation passes again, with any status |
| Envelope.CheckSuccessIsTruthiness | backupchan/api.py:10 | the marker is judged by truthiness: the string "false" passes, while 0 and a missing marker fail |
| Wire.SettingsBody | backupchan/api.py:64-72 | the settings body has exactly the seven keys name, recycle_criteria, recycle_value, recycle_action, location, name_template, deduplicate |
| Wire.DecodeSettingsBody | backupchan/api.py:64-72 | every settings field can be read back from the body |
| Wire.DecodeEncode | backupchan/api.py:20-114 | every call with slash-free identifiers is recovered from the request it sends, so each request carries all of its arguments and identifies its operation |
| Wire.EncodeInjective | backupchan/api.py:20-114 | two different calls with slash-free identifiers never send the same request |
| Wire.UnescapedIdsCollide | backupchan/api.py:80-87 | an identifier containing a slash makes delete_target and delete_target_backups send identical requests |
| Wire.EditSendsCreationFieldsButType | backupchan/api.py:29-72 | edit_target sends exactly the fields new_target sends, minus backup_type, which it never sends |
| Projection.Field | backupchan/api.py:40 | subscripting yields the stored value when the key is present, and a KeyError for that key otherwise |
| Projection.MapEach | backupchan/api.py:107 | a list comprehension keeps length and order: element i of the result is from_dict of element i of the input |
| Projection.Items | backupchan/api.py:22-23 | a comprehension over `payload[key]` fails on a missing key or a non-list value; otherwise it converts every element, in order |
| Api.Acknowledge | backupchan/api.py:73-74 | an operation without a result succeeds exactly when check_success passes, and otherwise fails with that error |
| Api.ListTargets | backupchan/api.py:20-23 | sends exactly one GET to `target` with no body; the result is the targets list through from_dict, same length and order; a missing `targets` fails with KeyError and a non-list one with NotAList; the success marker is never consulted |
| Api.NewTarget | backupchan/api.py:25-40 | sends exactly one POST to `target` whose body has exactly the eight creation keys (no alias) and decodes to the given arguments; returns the response `id` whatever the success marker says, and a KeyError only when `id` is absent |
| Api.UploadBackup | backupchan/api.py:42-56 | sends exactly one multipart POST to `target/<id>/upload` whose form is exactly manual = 1 or 0 and whose only file field is backup_file with the filename; returns `id` only when the response is accepted, and fails with the server error before looking at `id` |
| Api.TargetDetail | backupchan/api.py:60-61 | validates first, then converts `target` and every element of `backups` in order; a missing `target` is reported before `backups`, a missing `backups` is a KeyError and a non-list one NotAList |
| Api.GetTarget | backupchan/api.py:58-61 | sends exactly one GET to `target/<id>`; the result is the accepted target and its backups, same length and order; otherwise the validator's error, a KeyError for a missing `target` or `backups`, or NotAList |
| Api.EditTarget | backupchan/api.py:63-74 | sends exactly one PATCH to `target/<id>` whose body has exactly seven keys (never backup_type) holding the given settings, for every id; for slash-free ids the request decodes to the call; succeeds exactly when accepted |
| Api.DeleteTarget | backupchan/api.py:76-81 | sends exactly one DELETE to `target/<id>` with body exactly {delete_files}; succeeds exactly when accepted, otherwise fails with the payload and status |
| Api.DeleteTargetBackups | backupchan/api.py:83-88 | sends exactly one DELETE to `target/<id>/all` with body exactly {delete_files}; succeeds exactly when accepted |
| Api.DeleteBackup | backupchan/api.py:90-95 | sends exactly one DELETE to `backup/<id>` with body exactly {delete_files}; succeeds exactly when accepted |
| Api.RecycleBackup | backupchan/api.py:97-102 | sends exactly one PATCH to `backup/<id>` with body exactly {is_recycled}; succeeds exactly when accepted |
| Api.ListRecycledBackups | backupchan/api.py:104-107 | sends exactly one GET to `recycle_bin`; validates first, then converts every element of `backups`, same length and order; a missing `backups` is a KeyError and a non-list one NotAList |
| Api.ClearRecycleBin | backupchan/api.py:109-114 | sends exactly one DELETE to `recycle_bin` with body exactly {delete_files}; succeeds exactly when accepted |
| Api.NewTargetIgnoresSuccessMarker | backupchan/api.py:39-40 | two responses that differ only in the success marker and the status give new_target the same result |
| Api.ListTargetsIgnoresSuccessMarker | backupchan/api.py:21-23 | two responses that differ only in the success marker and the status give list_targets the same result |
| Api.UploadBackupNeedsSuccessMarker | backupchan/api.py:54-56 | an upload answered with an `id` but no success marker fails with the server error |

## Left out

- The transport itself is not modelled: HTTP, host, port, API-key authentication (`API.__init__`, lines 15-16), multipart encoding and JSON decoding. It is foreign I/O, so it appears only as the function `Connection` from request to response.
- `BackupTarget.from_dict` and `Backup.from_dict` are uninterpreted, total function parameters. `backupchan/models.py` is not part of this model, so any exception they raise is not modelled either.
- The members of `BackupType`, `BackupRecycleCriteria` and `BackupRecycleAction` are opaque tokens, and the body carries them as they are. How the transport serialises them is not modelled.
- The file object given to `upload_backup` is an opaque handle. Nothing reads it.
- The text of the `BackupchanAPIError` message is not modelled. The error carries the payload and status structurally instead.
- A payload that is not a JSON object is not modelled: Python's `data.get` would raise on it, but the model's payload is always a map. JSON numbers with a fraction are exact reals, so NaN and infinities are not modelled.
- Projection.Items: Python also iterates a string (its characters) or a dict (its keys) found under the key. The model reports `NotAList` for any non-list value instead. A dict has no order in the model, so its iteration order cannot be represented.
- Api.ListTargets: inherits the `NotAList` simplification of `Projection.Items` for a non-list `targets`.
- Api.TargetDetail: inherits the `NotAList` simplification of `Projection.Items` for a non-list `backups`.
- Api.GetTarget: inherits the `NotAList` simplification of `Projection.Items` for a non-list `backups`.
- Api.ListRecycledBackups: inherits the `NotAList` simplification of `Projection.Items` for a non-list `backups`.
- The returned `id` is passed back as the JSON value found. The `str` annotation in the source is not enforced there, so the model does not enforce it either.
- Folder upload, paging, log and stats retrieval are not modelled. They do not exist in `api.py`.
- The server's behaviour is not modelled. That includes round trips through the server, such as creating a target and then reading it back.
