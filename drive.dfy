/** services/driveService.ts: the client of the Drive store. The query and
    metadata builders are pure; every other operation sends requests to a
    `DriveApi.Server` and turns a non-ok response into a thrown message. */
module Drive {
  import opened Common
  import opened DriveApi
  import Auth
  import Encryption

  const CreateFolderFailed := "Failed to create folder: "
  const SearchFoldersFailed := "Failed to search folders: "
  const UploadFailed := "Failed to upload to Google Drive"
  const ListFilesFailed := "Failed to list files: "
  const DownloadFailed := "Failed to download file: "
  const DeleteFailed := "Failed to delete file: "
  const NotAuthenticated := "User not authenticated. Please sign in with Google."

  /** `DriveUploadResult`. */
  datatype DriveUploadResult = DriveUploadResult(fileId: string, name: string, webViewLink: Option<string>)

  /** The `Authorization` header every call sends. */
  function Bearer(accessToken: string): string {
    "Bearer " + accessToken
  }

  /** The search of `findOrCreateFolder`. */
  function FolderSearchQuery(folderName: string): seq<Term> {
    [NameIs(folderName), MimeTypeIs(FolderMimeType), NotTrashed]
  }

  /** The folder search matches exactly the non-trashed folders with that name. */
  lemma FolderQueryMeaning(folderName: string)
    ensures forall f :: Matches(f, FolderSearchQuery(folderName)) <==> f.name == folderName && f.mimeType == FolderMimeType && !f.trashed
  {
    var q := FolderSearchQuery(folderName);
    assert q[1..] == [MimeTypeIs(FolderMimeType), NotTrashed];
    assert q[1..][1..] == [NotTrashed];
    assert q[1..][1..][1..] == [];
    forall f
      ensures Matches(f, q) <==> f.name == folderName && f.mimeType == FolderMimeType && !f.trashed
    {
      assert Matches(f, q[1..][1..]) <==> !f.trashed;
    }
  }

  /** The text Drive receives: `name='…' and mimeType='application/vnd.google-apps.folder' and trashed=false`. */
  lemma FolderQueryText(folderName: string)
    ensures Render(FolderSearchQuery(folderName)) == ("name='" + folderName + "'") + " and " + (("mimeType='" + FolderMimeType + "'") + " and " + "trashed=false")
  {
    var q := FolderSearchQuery(folderName);
    assert q[1..] == [MimeTypeIs(FolderMimeType), NotTrashed];
    assert q[1..][1..] == [NotTrashed];
    assert Render(q[1..]) == RenderTerm(q[1]) + " and " + RenderTerm(q[1..][1..][0]);
  }

  /** The query of `listFiles`: the non-trashed children of the folder when a
      (truthy) folder id is given, every non-trashed file otherwise. */
  function ListQuery(folderId: Option<string>): seq<Term> {
    if Truthy(folderId) then [InParents(folderId.value), NotTrashed] else [NotTrashed]
  }

  /** The list query matches the non-trashed files, inside the folder when
      one is given. */
  lemma ListQueryMeaning(folderId: Option<string>)
    ensures forall f :: Matches(f, ListQuery(folderId)) <==> !f.trashed && (Truthy(folderId) ==> folderId.value in f.parents)
  {
    var q := ListQuery(folderId);
    if Truthy(folderId) {
      assert q[1..] == [NotTrashed] && q[1..][1..] == [];
      assert forall f :: Matches(f, q[1..]) <==> !f.trashed;
    } else {
      assert q[1..] == [];
    }
  }

  /** The text Drive receives: `'<id>' in parents and trashed=false`, or
      `trashed=false` alone. */
  lemma ListQueryText(folderId: Option<string>)
    ensures Render(ListQuery(folderId)) == if Truthy(folderId) then "'" + folderId.value + "' in parents" + " and " + "trashed=false" else "trashed=false"
  {
    var q := ListQuery(folderId);
    if Truthy(folderId) {
      assert q[1..] == [NotTrashed];
    }
  }

  /** The metadata of `uploadEncryptedFile`: always the JSON mime type, and
      `parents: [folderId]` only when a truthy folder id is given. */
  function UploadMetadata(fileName: string, folderId: Option<string>): (m: Metadata)
    ensures m.name == fileName && m.mimeType == JsonMimeType
    ensures m.parents.Some? <==> Truthy(folderId)
    ensures m.parents.Some? ==> m.parents.value == [folderId.value]
  {
    Metadata(fileName, JsonMimeType, if Truthy(folderId) then Some([folderId.value]) else None)
  }

  /** `getAuthenticatedToken()`: the session's Drive token, or the
      "not authenticated" error when there is none. */
  function GetAuthenticatedToken(session: Auth.Session): (r: Outcome<string>)
    reads session
    ensures r.Err? <==> session.currentUser.None? || !Truthy(session.cachedAccessToken)
    ensures r.Err? ==> r.error == NotAuthenticated
    ensures r.Ok? ==> r.value != "" && Some(r.value) == session.cachedAccessToken
  {
    var token := session.GetDriveAccessToken();
    if !Truthy(token) then Err(NotAuthenticated) else Ok(token.value)
  }

  /** `createFolder(folderName, accessToken)`. */
  method CreateFolder(server: Server, folderName: string, accessToken: string) returns (r: Outcome<string>)
    requires server.Valid()
    modifies server
    ensures server.Valid()
    ensures server.log == old(server.log) + [Call(Bearer(accessToken), Create(FolderMetadata(folderName), None))]
    ensures server.Rejection(|old(server.log)|, Bearer(accessToken)).Some? ==>
      && r == Err(CreateFolderFailed + server.Rejection(|old(server.log)|, Bearer(accessToken)).value)
      && server.files == old(server.files)
    ensures server.Rejection(|old(server.log)|, Bearer(accessToken)).None? ==>
      && r.Ok? && r.value != "" && r.value !in old(server.files)
      && server.files == old(server.files)[r.value := server.Created(FolderMetadata(folderName), None, |old(server.log)|)]
  {
    var response := server.FilesCreate(Bearer(accessToken), FolderMetadata(folderName), None);
    if response.Failure? {
      return Err(CreateFolderFailed + response.statusText);
    }
    r := Ok(response.body.id);
  }

  /** The metadata of the folder `createFolder` makes. */
  function FolderMetadata(folderName: string): Metadata {
    Metadata(folderName, FolderMimeType, None)
  }

  /** A stored, non-trashed folder with that name. */
  ghost predicate IsFolder(files: map<string, FileRecord>, id: string, folderName: string) {
    id != "" && id in files && files[id].name == folderName && files[id].mimeType == FolderMimeType && !files[id].trashed
  }

  /** The messages `findOrCreateFolder` throws: a refused search or a refused create. */
  predicate FolderError(e: string) {
    StartsWith(e, SearchFoldersFailed) || StartsWith(e, CreateFolderFailed)
  }

  /** `findOrCreateFolder(folderName, accessToken)`: the first folder of the
      search response `listed` when there is one, with no create request;
      otherwise the id of a folder created for the purpose. `k` is the
      position of the search in the call sequence. */
  method FindOrCreateFolder(server: Server, folderName: string, accessToken: string)
    returns (r: Outcome<string>, ghost listed: seq<DriveFile>)
    requires server.Valid()
    modifies server
    ensures server.Valid()
    ensures server.Rejection(|old(server.log)|, Bearer(accessToken)).None? ==>
      && Ids(listed) == Hits(old(server.files), FolderSearchQuery(folderName))
      && Faithful(listed, old(server.files))
      && (|listed| > 0 ==> r == Ok(listed[0].id))
    ensures r.Err? ==> FolderError(r.error)
    ensures var k := |old(server.log)|;
      var creates := server.Rejection(k, Bearer(accessToken)).None? && Hits(old(server.files), FolderSearchQuery(folderName)) == {};
      && server.log == old(server.log) + [Call(Bearer(accessToken), List(FolderSearchQuery(folderName)))]
                       + (if creates then [Call(Bearer(accessToken), Create(FolderMetadata(folderName), None))] else [])
      && (server.Rejection(k, Bearer(accessToken)).Some? ==>
            r == Err(SearchFoldersFailed + server.Rejection(k, Bearer(accessToken)).value) && server.files == old(server.files))
      && (server.Rejection(k, Bearer(accessToken)).None? && !creates ==>
            r.Ok? && r.value in Hits(old(server.files), FolderSearchQuery(folderName)) && server.files == old(server.files))
      && (creates && server.Rejection(k + 1, Bearer(accessToken)).Some? ==>
            r == Err(CreateFolderFailed + server.Rejection(k + 1, Bearer(accessToken)).value) && server.files == old(server.files))
      && (creates && server.Rejection(k + 1, Bearer(accessToken)).None? ==>
            r.Ok? && r.value !in old(server.files)
            && server.files == old(server.files)[r.value := server.Created(FolderMetadata(folderName), None, k + 1)])
    ensures r.Ok? ==> IsFolder(server.files, r.value, folderName)
  {
    listed := [];
    var query := FolderSearchQuery(folderName);
    FolderQueryMeaning(folderName);
    ghost var hits := Hits(server.files, query);
    var response := server.FilesList(Bearer(accessToken), query);
    if response.Failure? {
      r := Err(SearchFoldersFailed + response.statusText);
      assert r.error[..|SearchFoldersFailed|] == SearchFoldersFailed;
      return;
    }
    var data := response.body;
    listed := data.files.GetOr([]);
    if data.files.Some? && |data.files.value| > 0 {
      var id := data.files.value[0].id;
      assert id in Ids(data.files.value);
      assert id in hits && Matches(server.files[id], query);
      return Ok(id), listed;
    }
    assert hits == {};
    r := CreateFolder(server, folderName, accessToken);
    if r.Err? {
      assert r.error[..|CreateFolderFailed|] == CreateFolderFailed;
    }
  }

  /** `uploadEncryptedFile(fileName, encryptedData, accessToken, folderId)`:
      one multipart create whose media is the JSON text of the envelope.
      Whatever goes wrong, the caller sees only 'Failed to upload to Google Drive'. */
  method UploadEncryptedFile(server: Server, json: Encryption.EnvelopeJson, fileName: string, envelope: Encryption.EncryptedData,
                             accessToken: string, folderId: Option<string>) returns (r: Outcome<DriveUploadResult>)
    requires server.Valid()
    modifies server
    ensures server.Valid()
    ensures r.Err? ==> r.error == UploadFailed && server.files == old(server.files)
    ensures json.stringify(envelope).Err? ==> r.Err? && server.log == old(server.log)
    ensures json.stringify(envelope).Ok? ==>
      var metadata := UploadMetadata(fileName, folderId);
      var content := json.stringify(envelope).value;
      && server.log == old(server.log) + [Call(Bearer(accessToken), Create(metadata, Some(content)))]
      && (r.Err? <==> server.Rejection(|old(server.log)|, Bearer(accessToken)).Some?)
      && (r.Ok? ==>
        && r.value.fileId != "" && r.value.fileId !in old(server.files) && r.value.name == fileName
        && server.files == old(server.files)[r.value.fileId := server.Created(metadata, Some(content), |old(server.log)|)])
  {
    var fileContent := json.stringify(envelope);
    if fileContent.Err? {
      return Err(UploadFailed);
    }
    var metadata := UploadMetadata(fileName, folderId);
    var response := server.FilesCreate(Bearer(accessToken), metadata, Some(fileContent.value));
    if response.Failure? {
      // The inner 'Drive upload failed: …' error is replaced by the outer catch.
      return Err(UploadFailed);
    }
    var result := response.body;
    r := Ok(DriveUploadResult(result.id, result.name, result.webViewLink));
  }

  /** `listFiles(accessToken, folderId)`: the files the list query matches,
      each once; an absent `files` field reads as no files. */
  method ListFiles(server: Server, accessToken: string, folderId: Option<string>) returns (r: Outcome<seq<DriveFile>>)
    requires server.Valid()
    modifies server
    ensures server.Valid() && server.files == old(server.files)
    ensures server.log == old(server.log) + [Call(Bearer(accessToken), List(ListQuery(folderId)))]
    ensures server.Rejection(|old(server.log)|, Bearer(accessToken)).Some? ==>
      r == Err(ListFilesFailed + server.Rejection(|old(server.log)|, Bearer(accessToken)).value)
    ensures server.Rejection(|old(server.log)|, Bearer(accessToken)).None? ==>
      && r.Ok?
      && Ids(r.value) == Hits(server.files, ListQuery(folderId))
      && Faithful(r.value, server.files)
  {
    var response := server.FilesList(Bearer(accessToken), ListQuery(folderId));
    if response.Failure? {
      return Err(ListFilesFailed + response.statusText);
    }
    r := Ok(response.body.files.GetOr([]));
  }

  /** `downloadFile(fileId, accessToken)`: the parsed JSON of the file's media. */
  method DownloadFile(server: Server, json: Encryption.EnvelopeJson, fileId: string, accessToken: string) returns (r: Outcome<Encryption.EncryptedData>)
    modifies server
    ensures server.files == old(server.files) && server.serial == old(server.serial)
    ensures server.log == old(server.log) + [Call(Bearer(accessToken), GetMedia(fileId))]
    ensures server.Rejection(|old(server.log)|, Bearer(accessToken)).Some? ==>
      r == Err(DownloadFailed + server.Rejection(|old(server.log)|, Bearer(accessToken)).value)
    ensures server.Rejection(|old(server.log)|, Bearer(accessToken)).None? && fileId !in server.files ==>
      r == Err(DownloadFailed + NotFound)
    ensures server.Rejection(|old(server.log)|, Bearer(accessToken)).None? && fileId in server.files ==>
      r == json.parse(server.files[fileId].content)
  {
    var response := server.FilesGetMedia(Bearer(accessToken), fileId);
    if response.Failure? {
      return Err(DownloadFailed + response.statusText);
    }
    r := json.parse(response.body);
  }

  /** `deleteFile(fileId, accessToken)`. */
  method DeleteFile(server: Server, fileId: string, accessToken: string) returns (r: Outcome<()>)
    requires server.Valid()
    modifies server
    ensures server.Valid()
    ensures server.log == old(server.log) + [Call(Bearer(accessToken), Delete(fileId))]
    ensures r.Ok? <==> server.Rejection(|old(server.log)|, Bearer(accessToken)).None? && fileId in old(server.files)
    ensures r.Ok? ==> server.files == old(server.files) - {fileId}
    ensures r.Err? ==> server.files == old(server.files) && StartsWith(r.error, DeleteFailed)
  {
    var response := server.FilesDelete(Bearer(accessToken), fileId);
    if response.Failure? {
      return Err(DeleteFailed + response.statusText);
    }
    r := Ok(());
  }
}
