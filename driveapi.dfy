/** The remote side of the Google Drive v3 REST API that services/driveService.ts
    talks to: an in-memory store of file records behind typed endpoints.
    HTTP, `encodeURIComponent`, `FormData` and partial-response field masks are
    not modelled; a request is a structured value, and every request the
    client makes is appended to `log`. */
module DriveApi {
  import opened Common

  const FolderMimeType := "application/vnd.google-apps.folder"
  const JsonMimeType := "application/json"

  /** One clause of a `files.list` search query (`q`). */
  datatype Term =
    | NameIs(name: string)
    | MimeTypeIs(mimeType: string)
    | NotTrashed
    | InParents(folderId: string)

  /** The query-language text of one clause. */
  function RenderTerm(t: Term): string {
    match t
    case NameIs(n) => "name='" + n + "'"
    case MimeTypeIs(m) => "mimeType='" + m + "'"
    case NotTrashed => "trashed=false"
    case InParents(id) => "'" + id + "' in parents"
  }

  /** Clauses joined by ` and `. */
  function Render(q: seq<Term>): string {
    if |q| == 0 then ""
    else if |q| == 1 then RenderTerm(q[0])
    else RenderTerm(q[0]) + " and " + Render(q[1..])
  }

  /** A stored file: its metadata and its media (the uploaded text). */
  datatype FileRecord = FileRecord(
    name: string, mimeType: string, parents: seq<string>, trashed: bool,
    content: string, createdTime: string, modifiedTime: string)

  predicate Satisfies(f: FileRecord, t: Term) {
    match t
    case NameIs(n) => f.name == n
    case MimeTypeIs(m) => f.mimeType == m
    case NotTrashed => !f.trashed
    case InParents(id) => id in f.parents
  }

  /** The meaning of a query: every clause holds. */
  predicate Matches(f: FileRecord, q: seq<Term>) {
    |q| == 0 || (Satisfies(f, q[0]) && Matches(f, q[1..]))
  }

  /** The metadata part of a create request. `parents` absent and
      `parents: []` are different requests. */
  datatype Metadata = Metadata(name: string, mimeType: string, parents: Option<seq<string>>)

  /** `DriveFile`: the `files(id,name,mimeType,createdTime,modifiedTime)` projection. */
  datatype DriveFile = DriveFile(id: string, name: string, mimeType: string, createdTime: string, modifiedTime: string)

  /** A `files.list` response body; Drive leaves `files` out of a partial
      response when nothing matched. */
  datatype FileList = FileList(files: Option<seq<DriveFile>>)

  /** A `files.create` response body with `fields=id,name,webViewLink`. */
  datatype FileResource = FileResource(id: string, name: string, webViewLink: Option<string>)

  datatype Request =
    | Create(metadata: Metadata, media: Option<string>)
    | List(q: seq<Term>)
    | GetMedia(fileId: string)
    | Delete(fileId: string)

  /** A request with its `Authorization` header. */
  datatype Call = Call(authorization: string, request: Request)

  /** `response.ok` and the body, or the status text. (The error body is
      never shown: the one client that reads it replaces the message.) */
  datatype Response<T> = Success(body: T) | Failure(statusText: string)

  const Unauthorized := "Unauthorized"
  const ServiceUnavailable := "Service Unavailable"
  const NotFound := "Not Found"

  function Project(id: string, f: FileRecord): DriveFile {
    DriveFile(id, f.name, f.mimeType, f.createdTime, f.modifiedTime)
  }

  function Ids(listed: seq<DriveFile>): set<string> {
    set i | 0 <= i < |listed| :: listed[i].id
  }

  lemma IdsAppend(listed: seq<DriveFile>, f: DriveFile)
    ensures Ids(listed + [f]) == Ids(listed) + {f.id}
  {
    var extended := listed + [f];
    assert extended[|listed|] == f;
    forall id | id in Ids(listed)
      ensures id in Ids(extended)
    {
      var i :| 0 <= i < |listed| && listed[i].id == id;
      assert extended[i] == listed[i];
    }
  }

  /** Every entry of a listing is the projection of the stored record it names. */
  predicate Faithful(listed: seq<DriveFile>, files: map<string, FileRecord>) {
    forall i :: 0 <= i < |listed| ==> listed[i].id in files && listed[i] == Project(listed[i].id, files[listed[i].id])
  }

  /** Identifiers of the stored files the query matches. */
  ghost function Hits(files: map<string, FileRecord>, q: seq<Term>): set<string> {
    set id | id in files && Matches(files[id], q)
  }

  /** A fresh identifier: longer than any identifier handed out before. */
  function IdOf(serial: nat): (id: string)
    ensures |id| == serial + 1
  {
    seq(serial + 1, _ => 'f')
  }

  /** The Drive service. `credentials` are the `Authorization` header values
      it accepts, `outages`
      the positions in the call sequence at which it answers 503, and
      `clock(k)` the time at which the k-th call is served. */
  class Server {
    var files: map<string, FileRecord>
    var serial: nat
    var log: seq<Call>
    const credentials: set<string>
    const outages: set<nat>
    const clock: nat -> string

    /** Identifiers are never empty, so a returned id is always truthy. */
    ghost predicate Valid()
      reads this
    {
      forall id :: id in files ==> 0 < |id| <= serial
    }

    constructor (credentials: set<string>, outages: set<nat>, clock: nat -> string)
      ensures Valid() && files == map[] && log == []
      ensures this.credentials == credentials && this.outages == outages && this.clock == clock
    {
      files := map[];
      serial := 0;
      log := [];
      this.credentials := credentials;
      this.outages := outages;
      this.clock := clock;
    }

    /** Why the `k`-th call would be refused, if it would. */
    function Rejection(k: nat, authorization: string): Option<string> {
      if k in outages then Some(ServiceUnavailable)
      else if authorization !in credentials then Some(Unauthorized)
      else None
    }

    /** The record a create request stores when served as call `k`. */
    function Created(metadata: Metadata, media: Option<string>, k: nat): FileRecord {
      FileRecord(metadata.name, metadata.mimeType, metadata.parents.GetOr([]), false, media.GetOr(""), clock(k), clock(k))
    }

    /** `POST /files` (metadata only) and `POST /upload/files?uploadType=multipart`. */
    method FilesCreate(authorization: string, metadata: Metadata, media: Option<string>) returns (r: Response<FileResource>)
      requires Valid()
      modifies this
      ensures Valid()
      ensures log == old(log) + [Call(authorization, Create(metadata, media))]
      ensures Rejection(|old(log)|, authorization).Some? ==>
        && r == Failure(Rejection(|old(log)|, authorization).value)
        && files == old(files)
      ensures Rejection(|old(log)|, authorization).None? ==>
        && r.Success? && r.body.id != "" && r.body.id !in old(files)
        && r.body.name == metadata.name
        && files == old(files)[r.body.id := Created(metadata, media, |old(log)|)]
    {
      var rejection := Rejection(|log|, authorization);
      var k := |log|;
      log := log + [Call(authorization, Create(metadata, media))];
      if rejection.Some? {
        return Failure(rejection.value);
      }
      var id := IdOf(serial);
      serial := serial + 1;
      files := files[id := Created(metadata, media, k)];
      r := Success(FileResource(id, metadata.name, Some("https://drive.google.com/file/d/" + id + "/view")));
    }

    /** `GET /files?q=…`: every stored file the query matches, once each. */
    method FilesList(authorization: string, q: seq<Term>) returns (r: Response<FileList>)
      requires Valid()
      modifies this
      ensures Valid() && files == old(files)
      ensures log == old(log) + [Call(authorization, List(q))]
      ensures Rejection(|old(log)|, authorization).Some? ==>
        r == Failure(Rejection(|old(log)|, authorization).value)
      ensures Rejection(|old(log)|, authorization).None? ==>
        && r.Success?
        && (r.body.files.None? <==> Hits(files, q) == {})
        && Ids(r.body.files.GetOr([])) == Hits(files, q)
        && Faithful(r.body.files.GetOr([]), files)
    {
      var rejection := Rejection(|log|, authorization);
      log := log + [Call(authorization, List(q))];
      if rejection.Some? {
        return Failure(rejection.value);
      }
      var remaining := files.Keys;
      var listed: seq<DriveFile> := [];
      while remaining != {}
        invariant files == old(files) && serial == old(serial)
        invariant log == old(log) + [Call(authorization, List(q))]
        invariant remaining <= files.Keys
        invariant Faithful(listed, files)
        invariant Ids(listed) == Hits(files, q) - remaining
        decreases remaining
      {
        var id :| id in remaining;
        if Matches(files[id], q) {
          IdsAppend(listed, Project(id, files[id]));
          listed := listed + [Project(id, files[id])];
        }
        remaining := remaining - {id};
      }
      assert Ids(listed) == Hits(files, q);
      if |listed| > 0 {
        assert listed[0].id in Ids(listed);
        r := Success(FileList(Some(listed)));
      } else {
        assert listed == [];
        r := Success(FileList(None));
      }
    }

    /** `GET /files/{id}?alt=media`. */
    method FilesGetMedia(authorization: string, fileId: string) returns (r: Response<string>)
      modifies this
      ensures files == old(files) && serial == old(serial)
      ensures log == old(log) + [Call(authorization, GetMedia(fileId))]
      ensures Rejection(|old(log)|, authorization).Some? ==>
        r == Failure(Rejection(|old(log)|, authorization).value)
      ensures Rejection(|old(log)|, authorization).None? && fileId !in files ==> r == Failure(NotFound)
      ensures Rejection(|old(log)|, authorization).None? && fileId in files ==> r == Success(files[fileId].content)
    {
      var rejection := Rejection(|log|, authorization);
      log := log + [Call(authorization, GetMedia(fileId))];
      if rejection.Some? {
        return Failure(rejection.value);
      }
      if fileId !in files {
        return Failure(NotFound);
      }
      r := Success(files[fileId].content);
    }

    /** `DELETE /files/{id}`. */
    method FilesDelete(authorization: string, fileId: string) returns (r: Response<()>)
      requires Valid()
      modifies this
      ensures Valid() && serial == old(serial)
      ensures log == old(log) + [Call(authorization, Delete(fileId))]
      ensures Rejection(|old(log)|, authorization).Some? ==>
        r == Failure(Rejection(|old(log)|, authorization).value) && files == old(files)
      ensures Rejection(|old(log)|, authorization).None? && fileId !in old(files) ==>
        r == Failure(NotFound) && files == old(files)
      ensures Rejection(|old(log)|, authorization).None? && fileId in old(files) ==>
        r == Success(()) && files == old(files) - {fileId}
    {
      var rejection := Rejection(|log|, authorization);
      log := log + [Call(authorization, Delete(fileId))];
      if rejection.Some? {
        return Failure(rejection.value);
      }
      if fileId !in files {
        return Failure(NotFound);
      }
      files := files - {fileId};
      r := Success(());
    }
  }
}
