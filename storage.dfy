/** services/storageService.ts: save an art result encrypted into the user's
    Lake9 folder on Drive, load it back, and list the folder. */
module Storage {
  import opened Common
  import opened Platform
  import opened DriveApi
  import Auth
  import Drive
  import Encryption
  import opened Types

  const Lake9FolderName := "Lake9_Encrypted_Art"
  const FileNamePrefix := "lake9_art_"
  const FileNameSuffix := ".encrypted.json"

  /** `SaveResult`: where the file went and the password it was sealed with. */
  datatype SaveResult = SaveResult(driveResult: Drive.DriveUploadResult, encryptionKey: string)

  /** `toISOString().replace(/[:.]/g, '-')`: every ':' and '.' becomes '-'. */
  function Dashed(s: string): (t: string)
    ensures |t| == |s|
    ensures forall i :: 0 <= i < |s| ==> t[i] == (if s[i] == ':' || s[i] == '.' then '-' else s[i])
    ensures ':' !in t && '.' !in t
  {
    if s == [] then []
    else [if s[0] == ':' || s[0] == '.' then '-' else s[0]] + Dashed(s[1..])
  }

  /** The name of a saved file, from the ISO timestamp of the save. */
  function FileName(iso: string): string {
    FileNamePrefix + Dashed(iso) + FileNameSuffix
  }

  /** A file name is 'lake9_art_', the timestamp with every ':' and '.'
      turned into '-', and '.encrypted.json'. */
  lemma FileNameShape(iso: string)
    ensures var name := FileName(iso);
      && StartsWith(name, FileNamePrefix) && EndsWith(name, FileNameSuffix)
      && |name| == |FileNamePrefix| + |iso| + |FileNameSuffix|
      && (forall i :: 0 <= i < |iso| ==>
            name[|FileNamePrefix| + i] == if iso[i] == ':' || iso[i] == '.' then '-' else iso[i])
      && forall i :: |FileNamePrefix| <= i < |name| - |FileNameSuffix| ==> name[i] != ':' && name[i] != '.'
  {
    var name := FileName(iso);
    var d := Dashed(iso);
    assert name[..|FileNamePrefix|] == FileNamePrefix;
    assert name[|name| - |FileNameSuffix|..] == FileNameSuffix;
    forall i | 0 <= i < |iso|
      ensures name[|FileNamePrefix| + i] == d[i]
    {
    }
    forall i | |FileNamePrefix| <= i < |name| - |FileNameSuffix|
      ensures name[i] != ':' && name[i] != '.'
    {
      assert name[i] == d[i - |FileNamePrefix|];
    }
  }

  /** `encryptionPassword || generateSecurePassword()`: the caller's password
      unless it is absent or empty. */
  predicate UsesCallerPassword(encryptionPassword: Option<string>) {
    Truthy(encryptionPassword)
  }

  /** A stored, non-trashed folder named 'Lake9_Encrypted_Art'. */
  ghost predicate IsLake9Folder(files: map<string, FileRecord>, id: string) {
    id != "" && id in files && files[id].name == Lake9FolderName
    && files[id].mimeType == FolderMimeType && !files[id].trashed
  }

  /** What loading file `fileId` with `password` yields once the download is
      served: the parsed envelope, decrypted. */
  ghost function Loaded(files: map<string, FileRecord>, json: Encryption.EnvelopeJson, rt: Runtime<AIProcessingResult>,
                        fileId: string, password: string): Outcome<AIProcessingResult>
  {
    if fileId !in files then Err(Drive.DownloadFailed + NotFound)
    else match json.parse(files[fileId].content)
      case Err(e) => Err(e)
      case Ok(envelope) => Encryption.Decrypt(rt, envelope, password)
  }

  /** The password a save seals with: the caller's, or one generated from
      the next 32 random bytes. */
  function ChosenPassword(encryptionPassword: Option<string>, random: seq<byte>): (password: string)
    ensures UsesCallerPassword(encryptionPassword) ==> password == encryptionPassword.value
    ensures !UsesCallerPassword(encryptionPassword) ==> |password| == |random| && forall i :: 0 <= i < |password| ==> password[i] in Encryption.Charset
  {
    if UsesCallerPassword(encryptionPassword) then encryptionPassword.value else Encryption.PasswordOf(random)
  }

  /** Where the salt is drawn from: after the 32 password bytes when the
      password is generated, at `drawn` otherwise. */
  function SaltStart(encryptionPassword: Option<string>, drawn: nat): nat {
    drawn + if UsesCallerPassword(encryptionPassword) then 0 else Encryption.DefaultPasswordLength
  }

  /** The password of a save that starts with the random stream at `drawn`. */
  function SavePassword(rng: RandomSource, encryptionPassword: Option<string>, drawn: nat): string {
    ChosenPassword(encryptionPassword, rng.Bytes(drawn, Encryption.DefaultPasswordLength))
  }

  /** The envelope of a save that starts with the random stream at `drawn`:
      the art result sealed with the save's password, salt and IV. */
  function SaveEnvelope(rng: RandomSource, rt: Runtime<AIProcessingResult>, artResult: AIProcessingResult,
                        encryptionPassword: Option<string>, drawn: nat): Outcome<Encryption.EncryptedData> {
    Encryption.Encrypt(rt, artResult, SavePassword(rng, encryptionPassword, drawn),
                       SaveSalt(rng, encryptionPassword, drawn), SaveIv(rng, encryptionPassword, drawn))
  }

  /** The 16 salt bytes of a save that starts with the random stream at `drawn`. */
  function SaveSalt(rng: RandomSource, encryptionPassword: Option<string>, drawn: nat): seq<byte> {
    rng.Bytes(SaltStart(encryptionPassword, drawn), Encryption.SaltLength)
  }

  /** The 12 IV bytes, drawn right after the salt. */
  function SaveIv(rng: RandomSource, encryptionPassword: Option<string>, drawn: nat): seq<byte> {
    rng.Bytes(SaltStart(encryptionPassword, drawn) + Encryption.SaltLength, Encryption.IvLength)
  }

  /** The local half of a save: choose the password, then encrypt. */
  method SealArt(rng: RandomSource, rt: Runtime<AIProcessingResult>, artResult: AIProcessingResult,
                 encryptionPassword: Option<string>)
    returns (password: string, sealed: Outcome<Encryption.EncryptedData>)
    modifies rng
    ensures password == SavePassword(rng, encryptionPassword, old(rng.drawn))
    ensures sealed == SaveEnvelope(rng, rt, artResult, encryptionPassword, old(rng.drawn))
    ensures sealed.Ok? ==> rng.drawn == SaltStart(encryptionPassword, old(rng.drawn)) + Encryption.SaltLength + Encryption.IvLength
  {
    password := PickPassword(rng, encryptionPassword);
    sealed := Encryption.EncryptData(rng, rt, artResult, password);
  }

  /** `encryptionPassword || generateSecurePassword()`: a generated password
      draws 32 bytes, the caller's draws none. */
  method PickPassword(rng: RandomSource, encryptionPassword: Option<string>) returns (password: string)
    modifies rng
    ensures password == SavePassword(rng, encryptionPassword, old(rng.drawn))
    ensures rng.drawn == SaltStart(encryptionPassword, old(rng.drawn))
  {
    if Truthy(encryptionPassword) {
      password := encryptionPassword.value;
    } else {
      password := Encryption.GenerateSecurePassword(rng);
    }
  }

  /** `saveArtToPrivateDrive(artResult, encryptionPassword)` at time `now`. */
  method SaveArtToPrivateDrive(session: Auth.Session, server: Server, rng: RandomSource,
                               rt: Runtime<AIProcessingResult>, json: Encryption.EnvelopeJson,
                               artResult: AIProcessingResult, encryptionPassword: Option<string>, now: string)
    returns (r: Outcome<SaveResult>, ghost folderId: string)
    requires server.Valid()
    modifies server, rng
    ensures server.Valid()
    // The token comes first: without one, nothing is drawn, encrypted or sent.
    ensures old(Drive.GetAuthenticatedToken(session)).Err? ==>
      && r == Err(Drive.NotAuthenticated)
      && rng.drawn == old(rng.drawn) && server.log == old(server.log) && server.files == old(server.files)
    ensures old(Drive.GetAuthenticatedToken(session)).Ok? ==>
      SaveEffect(rng, rt, json, artResult, encryptionPassword, now, old(Drive.GetAuthenticatedToken(session)).value,
                 old(server.files), old(server.log), old(rng.drawn), server.files, server.log, rng.drawn, r, folderId)
  {
    folderId := "";
    var accessToken := Drive.GetAuthenticatedToken(session);
    if accessToken.Err? {
      return Err(accessToken.error), folderId;
    }
    r, folderId := SealAndStore(server, rng, rt, json, artResult, encryptionPassword, now, accessToken.value);
  }

  /** What a save with access token `token` does, from the files, log and
      random position before it (`files0`, `log0`, `drawn0`) to those after
      it: encryption precedes every request, so a failed encryption sends
      nothing; a success returns the password the envelope was sealed with,
      stores the envelope's JSON text under the timestamped name in the Lake9
      folder, and sends the folder search first and the upload last. Once
      sealing succeeds, the folder search is the first request and no stored
      file disappears whatever happens next, and a failure of the folder step
      or of the upload reaches the caller as that step threw it. That the
      file loads back to the art result is `SaveThenLoad`. */
  ghost predicate SaveEffect(rng: RandomSource, rt: Runtime<AIProcessingResult>, json: Encryption.EnvelopeJson,
                             artResult: AIProcessingResult, encryptionPassword: Option<string>, now: string, token: string,
                             files0: map<string, FileRecord>, log0: seq<Call>, drawn0: nat,
                             files1: map<string, FileRecord>, log1: seq<Call>, drawn1: nat,
                             r: Outcome<SaveResult>, folderId: string)
  {
    var password := SavePassword(rng, encryptionPassword, drawn0);
    var sealed := SaveEnvelope(rng, rt, artResult, encryptionPassword, drawn0);
    && (sealed.Err? ==> r == Err(sealed.error) && log1 == log0 && files1 == files0)
    && (sealed.Ok? ==>
      && drawn1 == SaltStart(encryptionPassword, drawn0) + Encryption.SaltLength + Encryption.IvLength
      && StoreEffect(json, sealed.value, token, now, files0, log0, files1, log1, UploadOutcome(r), folderId)
      && (r.Ok? ==> r.value.encryptionKey == password))
  }

  /** The Drive part of a save's outcome: the upload result or the error. */
  function UploadOutcome(r: Outcome<SaveResult>): Outcome<Drive.DriveUploadResult> {
    match r
    case Ok(v) => Ok(v.driveResult)
    case Err(e) => Err(e)
  }

  /** What storing `envelope` does, from the files and log before it to those
      after it: the folder search is the first request and no stored file
      disappears; a failure is the folder step's or the upload's own message;
      a success stores the envelope's JSON text under the timestamped name in
      the Lake9 folder `folderId`, under an id that was free, with the upload
      as the last request. */
  ghost predicate StoreEffect(json: Encryption.EnvelopeJson, envelope: Encryption.EncryptedData, token: string, now: string,
                              files0: map<string, FileRecord>, log0: seq<Call>,
                              files1: map<string, FileRecord>, log1: seq<Call>,
                              r: Outcome<Drive.DriveUploadResult>, folderId: string)
  {
    && files0.Keys <= files1.Keys && SearchFirst(log0, log1, token)
    && (r.Err? ==> Drive.FolderError(r.error) || r.error == Drive.UploadFailed)
    && (r.Ok? ==>
      && json.stringify(envelope).Ok?
      && r.value.fileId !in files0
      && StoredInLake9(files1, r.value.fileId, folderId, now, json.stringify(envelope).value)
      && SaveRequests(log0, log1, token, folderId, now))
  }

  /** Saving then loading: after a successful save, loading the new file
      with the returned key gives back the art result, provided the cipher
      and the codecs are lawful. */
  lemma SaveThenLoad(rng: RandomSource, rt: Runtime<AIProcessingResult>, json: Encryption.EnvelopeJson,
                     artResult: AIProcessingResult, encryptionPassword: Option<string>, now: string, token: string,
                     files0: map<string, FileRecord>, log0: seq<Call>, drawn0: nat,
                     files1: map<string, FileRecord>, log1: seq<Call>, drawn1: nat,
                     r: Outcome<SaveResult>, folderId: string)
    requires Lawful(rt) && LawfulJson(json)
    requires SaveEffect(rng, rt, json, artResult, encryptionPassword, now, token, files0, log0, drawn0, files1, log1, drawn1, r, folderId)
    requires r.Ok?
    ensures Loaded(files1, json, rt, r.value.driveResult.fileId, r.value.encryptionKey) == Ok(artResult)
  {
    SavedArtLoads(files1, r.value.driveResult.fileId, rt, json, artResult, r.value.encryptionKey,
                  SaveSalt(rng, encryptionPassword, drawn0), SaveIv(rng, encryptionPassword, drawn0),
                  SaveEnvelope(rng, rt, artResult, encryptionPassword, drawn0).value);
  }

  /** The body of a save once the token is known: seal, then store. */
  method SealAndStore(server: Server, rng: RandomSource, rt: Runtime<AIProcessingResult>, json: Encryption.EnvelopeJson,
                      artResult: AIProcessingResult, encryptionPassword: Option<string>, now: string, token: string)
    returns (r: Outcome<SaveResult>, ghost folderId: string)
    requires server.Valid()
    modifies server, rng
    ensures server.Valid()
    ensures SaveEffect(rng, rt, json, artResult, encryptionPassword, now, token,
                       old(server.files), old(server.log), old(rng.drawn), server.files, server.log, rng.drawn, r, folderId)
  {
    folderId := "";
    ghost var files0, log0, drawn0 := server.files, server.log, rng.drawn;
    var password, encryptedData := SealArt(rng, rt, artResult, encryptionPassword);
    if encryptedData.Err? {
      r := Err(encryptedData.error);
      SealFailed(rng, rt, json, artResult, encryptionPassword, now, token, files0, log0, drawn0, rng.drawn, r, folderId, encryptedData);
      return;
    }
    var driveResult;
    driveResult, folderId := StoreEnvelope(server, json, token, encryptedData.value, now);
    if driveResult.Err? {
      r := Err(driveResult.error);
    } else {
      r := Ok(SaveResult(driveResult.value, password));
    }
    SealedThenStored(rng, rt, json, artResult, encryptionPassword, now, token, files0, log0, drawn0,
                     server.files, server.log, rng.drawn, r, folderId, encryptedData, driveResult);
  }

  /** A save whose sealing fails has sent nothing and changed no file. */
  lemma SealFailed(rng: RandomSource, rt: Runtime<AIProcessingResult>, json: Encryption.EnvelopeJson,
                   artResult: AIProcessingResult, encryptionPassword: Option<string>, now: string, token: string,
                   files0: map<string, FileRecord>, log0: seq<Call>, drawn0: nat, drawn1: nat,
                   r: Outcome<SaveResult>, folderId: string, sealed: Outcome<Encryption.EncryptedData>)
    requires sealed == SaveEnvelope(rng, rt, artResult, encryptionPassword, drawn0) && sealed.Err?
    requires r == Err(sealed.error)
    ensures SaveEffect(rng, rt, json, artResult, encryptionPassword, now, token, files0, log0, drawn0, files0, log0, drawn1, r, folderId)
  {
  }

  /** A sealed envelope stored as `StoreEffect` says is a save as
      `SaveEffect` says. */
  lemma SealedThenStored(rng: RandomSource, rt: Runtime<AIProcessingResult>, json: Encryption.EnvelopeJson,
                         artResult: AIProcessingResult, encryptionPassword: Option<string>, now: string, token: string,
                         files0: map<string, FileRecord>, log0: seq<Call>, drawn0: nat,
                         files1: map<string, FileRecord>, log1: seq<Call>, drawn1: nat,
                         r: Outcome<SaveResult>, folderId: string, sealed: Outcome<Encryption.EncryptedData>,
                         stored: Outcome<Drive.DriveUploadResult>)
    requires sealed == SaveEnvelope(rng, rt, artResult, encryptionPassword, drawn0) && sealed.Ok?
    requires drawn1 == SaltStart(encryptionPassword, drawn0) + Encryption.SaltLength + Encryption.IvLength
    requires StoreEffect(json, sealed.value, token, now, files0, log0, files1, log1, stored, folderId)
    requires stored.Err? ==> r == Err(stored.error)
    requires stored.Ok? ==> r == Ok(SaveResult(stored.value, SavePassword(rng, encryptionPassword, drawn0)))
    ensures SaveEffect(rng, rt, json, artResult, encryptionPassword, now, token, files0, log0, drawn0, files1, log1, drawn1, r, folderId)
  {
    assert UploadOutcome(r) == stored;
  }

  /** File `id` holds `content` under the timestamped name, inside the Lake9
      folder `folderId`. */
  ghost predicate StoredInLake9(files: map<string, FileRecord>, id: string, folderId: string, now: string, content: string) {
    && id in files && IsLake9Folder(files, folderId)
    && files[id].name == FileName(now) && files[id].mimeType == JsonMimeType
    && files[id].parents == [folderId] && files[id].content == content && !files[id].trashed
  }

  /** The requests a save adds to the log, in order: the folder search
      first, the upload of the timestamped file into the folder last. */
  ghost predicate SaveRequests(before: seq<Call>, after: seq<Call>, token: string, folderId: string, now: string) {
    && |after| >= |before| + 2
    && SearchFirst(before, after, token)
    && after[|after| - 1].request.Create?
    && after[|after| - 1].request.metadata == Drive.UploadMetadata(FileName(now), Some(folderId))
  }

  /** The log after `before` grows and its first new request is the search
      for the Lake9 folder. */
  ghost predicate SearchFirst(before: seq<Call>, after: seq<Call>, token: string) {
    && |after| >= |before| + 1
    && after[..|before|] == before
    && after[|before|] == Call(Drive.Bearer(token), List(Drive.FolderSearchQuery(Lake9FolderName)))
  }

  /** Appending to a log keeps the search first. */
  lemma SearchStaysFirst(log0: seq<Call>, log1: seq<Call>, log2: seq<Call>, token: string)
    requires SearchFirst(log0, log1, token)
    requires |log2| >= |log1| && log2[..|log1|] == log1
    ensures SearchFirst(log0, log2, token)
  {
    assert log2[..|log0|] == log2[..|log1|][..|log0|];
  }

  /** `findOrCreateFolder(LAKE9_FOLDER_NAME, token)`, the first step of both a
      save and a listing, seen from the caller: the search request comes
      first, no stored file disappears, and an id returned names the Lake9
      folder. */
  method FindLake9Folder(server: Server, token: string) returns (r: Outcome<string>)
    requires server.Valid()
    modifies server
    ensures server.Valid()
    ensures SearchFirst(old(server.log), server.log, token)
    ensures old(server.files).Keys <= server.files.Keys
    ensures r.Ok? ==> IsLake9Folder(server.files, r.value)
    ensures r.Err? ==> Drive.FolderError(r.error)
  {
    ghost var log0 := server.log;
    ghost var creates := server.Rejection(|log0|, Drive.Bearer(token)).None? && Hits(server.files, Drive.FolderSearchQuery(Lake9FolderName)) == {};
    ghost var listed;
    r, listed := Drive.FindOrCreateFolder(server, Lake9FolderName, token);
    if creates {
      SearchLeads(log0, [Call(Drive.Bearer(token), Create(Drive.FolderMetadata(Lake9FolderName), None))], token);
    } else {
      SearchLeads(log0, [], token);
    }
  }

  /** A log that grows by the folder search and then anything at all has the
      search first. */
  lemma SearchLeads(log0: seq<Call>, rest: seq<Call>, token: string)
    ensures SearchFirst(log0, log0 + [Call(Drive.Bearer(token), List(Drive.FolderSearchQuery(Lake9FolderName)))] + rest, token)
  {
    var log1 := log0 + [Call(Drive.Bearer(token), List(Drive.FolderSearchQuery(Lake9FolderName)))] + rest;
    assert log1[..|log0|] == log0;
  }

  /** The Drive half of a save: resolve the Lake9 folder, then upload the
      envelope into it under the timestamped name. */
  method StoreEnvelope(server: Server, json: Encryption.EnvelopeJson, token: string,
                       envelope: Encryption.EncryptedData, now: string)
    returns (r: Outcome<Drive.DriveUploadResult>, ghost folderId: string)
    requires server.Valid()
    modifies server
    ensures server.Valid()
    ensures StoreEffect(json, envelope, token, now, old(server.files), old(server.log), server.files, server.log, r, folderId)
  {
    folderId := "";
    ghost var log0 := server.log;
    var folder := FindLake9Folder(server, token);
    if folder.Err? {
      return Err(folder.error), folderId;
    }
    var lake9 := folder.value;
    folderId := lake9;
    ghost var log1 := server.log;
    r := UploadToLake9(server, json, token, envelope, now, lake9);
    SearchStaysFirst(log0, log1, server.log, token);
    if r.Ok? {
      SearchThenUpload(log0, log1, server.log, token, lake9, now,
                       Call(Drive.Bearer(token), Create(Drive.UploadMetadata(FileName(now), Some(lake9)), Some(json.stringify(envelope).value))));
    }
  }

  /** The upload of a save into the resolved Lake9 folder `lake9`: one
      create request of the envelope's JSON text under the timestamped name;
      any failure is 'Failed to upload to Google Drive'. */
  method UploadToLake9(server: Server, json: Encryption.EnvelopeJson, token: string,
                       envelope: Encryption.EncryptedData, now: string, lake9: string)
    returns (r: Outcome<Drive.DriveUploadResult>)
    requires server.Valid() && IsLake9Folder(server.files, lake9)
    modifies server
    ensures server.Valid()
    ensures old(server.files).Keys <= server.files.Keys
    ensures |server.log| >= |old(server.log)| && server.log[..|old(server.log)|] == old(server.log)
    ensures r.Err? ==> r.error == Drive.UploadFailed
    ensures r.Ok? ==>
      && json.stringify(envelope).Ok?
      && r.value.fileId !in old(server.files)
      && StoredInLake9(server.files, r.value.fileId, lake9, now, json.stringify(envelope).value)
      && server.log == old(server.log) + [Call(Drive.Bearer(token), Create(Drive.UploadMetadata(FileName(now), Some(lake9)), Some(json.stringify(envelope).value)))]
  {
    ghost var files1 := server.files;
    ghost var log1 := server.log;
    var fileName := FileName(now);
    r := Drive.UploadEncryptedFile(server, json, fileName, envelope, token, Some(lake9));
    assert server.log[..|log1|] == log1;
    if r.Ok? {
      var content := json.stringify(envelope).value;
      var metadata := Drive.UploadMetadata(fileName, Some(lake9));
      UploadIntoFolder(files1, server.files, lake9, r.value.fileId, server.Created(metadata, Some(content), |log1|), now, content);
    }
  }

  /** Adding the uploaded record beside the folder keeps the folder and
      stores the file in it. */
  lemma UploadIntoFolder(files1: map<string, FileRecord>, files2: map<string, FileRecord>, lake9: string,
                         id: string, record: FileRecord, now: string, content: string)
    requires IsLake9Folder(files1, lake9) && id !in files1 && files2 == files1[id := record]
    requires record.name == FileName(now) && record.mimeType == JsonMimeType && record.parents == [lake9]
    requires record.content == content && !record.trashed
    ensures StoredInLake9(files2, id, lake9, now, content)
  {
  }

  /** A log that starts with the folder search and ends with the upload has
      the order of a save. */
  lemma SearchThenUpload(log0: seq<Call>, log1: seq<Call>, log2: seq<Call>, token: string, lake9: string, now: string, upload: Call)
    requires SearchFirst(log0, log1, token)
    requires log2 == log1 + [upload] && upload.request.Create?
    requires upload.request.metadata == Drive.UploadMetadata(FileName(now), Some(lake9))
    ensures SaveRequests(log0, log2, token, lake9, now)
  {
    assert log2[..|log0|] == log1[..|log0|];
  }

  /** `loadArtFromPrivateDrive(fileId, encryptionPassword)`: download, then
      decrypt; every error reaches the caller unchanged. */
  method LoadArtFromPrivateDrive(session: Auth.Session, server: Server, rt: Runtime<AIProcessingResult>,
                                 json: Encryption.EnvelopeJson, fileId: string, encryptionPassword: string)
    returns (r: Outcome<AIProcessingResult>)
    modifies server
    ensures server.files == old(server.files) && server.serial == old(server.serial)
    ensures old(Drive.GetAuthenticatedToken(session)).Err? ==> r == Err(Drive.NotAuthenticated) && server.log == old(server.log)
    ensures old(Drive.GetAuthenticatedToken(session)).Ok? ==>
      var token := old(Drive.GetAuthenticatedToken(session)).value;
      && server.log == old(server.log) + [Call(Drive.Bearer(token), GetMedia(fileId))]
      && (server.Rejection(|old(server.log)|, Drive.Bearer(token)).Some? ==> r == Err(Drive.DownloadFailed + server.Rejection(|old(server.log)|, Drive.Bearer(token)).value))
      && (server.Rejection(|old(server.log)|, Drive.Bearer(token)).None? ==> r == Loaded(server.files, json, rt, fileId, encryptionPassword))
  {
    var accessToken := Drive.GetAuthenticatedToken(session);
    if accessToken.Err? {
      return Err(accessToken.error);
    }
    var encryptedData := Drive.DownloadFile(server, json, fileId, accessToken.value);
    if encryptedData.Err? {
      return Err(encryptedData.error);
    }
    r := Encryption.DecryptData(rt, encryptedData.value, encryptionPassword);
  }

  /** `listSavedArt()`: the contents of the Lake9 folder, and nothing else. */
  method ListSavedArt(session: Auth.Session, server: Server) returns (r: Outcome<seq<DriveFile>>, ghost folderId: string)
    requires server.Valid()
    modifies server
    ensures server.Valid()
    ensures old(Drive.GetAuthenticatedToken(session)).Err? ==>
      r == Err(Drive.NotAuthenticated) && server.log == old(server.log) && server.files == old(server.files)
    ensures old(Drive.GetAuthenticatedToken(session)).Ok? ==>
      && SearchFirst(old(server.log), server.log, old(Drive.GetAuthenticatedToken(session)).value)
      && (r.Err? ==> Drive.FolderError(r.error) || StartsWith(r.error, Drive.ListFilesFailed))
    ensures r.Ok? ==>
      && IsLake9Folder(server.files, folderId)
      && Ids(r.value) == Hits(server.files, Drive.ListQuery(Some(folderId)))
      && Faithful(r.value, server.files)
      && (forall i :: 0 <= i < |r.value| ==> folderId in server.files[r.value[i].id].parents && !server.files[r.value[i].id].trashed)
  {
    folderId := "";
    var accessToken := Drive.GetAuthenticatedToken(session);
    if accessToken.Err? {
      return Err(accessToken.error), folderId;
    }
    var folder := FindLake9Folder(server, accessToken.value);
    if folder.Err? {
      return Err(folder.error), folderId;
    }
    var lake9 := folder.value;
    folderId := lake9;
    ghost var log1 := server.log;
    r := Drive.ListFiles(server, accessToken.value, Some(lake9));
    assert server.log[..|log1|] == log1;
    SearchStaysFirst(old(server.log), log1, server.log, accessToken.value);
    if r.Err? {
      assert r.error[..|Drive.ListFilesFailed|] == Drive.ListFilesFailed;
    }
    if r.Ok? {
      ListedInFolder(server.files, r.value, lake9);
    }
  }

  /** A listing that answers the folder's list query holds only non-trashed
      children of the folder. */
  lemma ListedInFolder(files: map<string, FileRecord>, listed: seq<DriveFile>, folderId: string)
    requires folderId != ""
    requires Ids(listed) == Hits(files, Drive.ListQuery(Some(folderId))) && Faithful(listed, files)
    ensures forall i :: 0 <= i < |listed| ==> folderId in files[listed[i].id].parents && !files[listed[i].id].trashed
  {
    Drive.ListQueryMeaning(Some(folderId));
    forall i | 0 <= i < |listed|
      ensures folderId in files[listed[i].id].parents && !files[listed[i].id].trashed
    {
      assert listed[i].id in Ids(listed);
      assert Matches(files[listed[i].id], Drive.ListQuery(Some(folderId)));
    }
  }

  /** What a save stores, a load with the same password gives back,
      provided the cipher and the codecs are lawful. */
  lemma SavedArtLoads(files: map<string, FileRecord>, id: string,
                      rt: Runtime<AIProcessingResult>, json: Encryption.EnvelopeJson,
                      artResult: AIProcessingResult, password: string, salt: seq<byte>, iv: seq<byte>,
                      envelope: Encryption.EncryptedData)
    requires Lawful(rt) && LawfulJson(json)
    requires Encryption.Encrypt(rt, artResult, password, salt, iv) == Ok(envelope)
    requires json.stringify(envelope).Ok? && id in files && files[id].content == json.stringify(envelope).value
    ensures Loaded(files, json, rt, id, password) == Ok(artResult)
  {
    Encryption.DecryptUndoesEncrypt(rt, artResult, password, salt, iv);
  }
}
