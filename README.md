# Lake9-SPA core, modelled in Dafny

Lake9 turns a stock-price series into generated art. This project models the
code that does real work around that:

- **Encryption** (`services/encryptionService.ts`). The envelope `{iv, data, salt}`.
  The chunked byte-array/base64 helpers over `btoa`/`atob` (base64 of
  section 4 of RFC 4648). PBKDF2 key derivation (section 5.2 of RFC 8018,
  100000 iterations of SHA-256). AES-GCM-256 encryption and decryption
  (NIST SP 800-38D). The random password generator.
- **The Drive client** (`services/driveService.ts`). It finds or creates a
  folder, uploads, lists, downloads and deletes. It talks to a Google Drive v3
  store, modelled as a class with a map of file records and a call log.
- **The storage orchestrator** (`services/storageService.ts`). It saves an
  `AIProcessingResult` encrypted into the `Lake9_Encrypted_Art` folder, loads it
  back, and lists that folder.
- **The token cache** (`services/authService.ts`). The signed-in user and the
  cached Drive access token form a small state machine. It also maps
  sign-in error codes to messages.
- **The `generateArt` callable** (`functions/src/index.ts`). The API-key check,
  the two Gemini requests, the collection of inline image parts into PNG
  data URLs with a fixed fallback, the assembly of the reply, and the
  wrapping of errors.
- **The prompt-log editor** (`tools/log-updater.cjs`). It numbers the next
  prompt, inserts a table row and a detail block into `PROMPTS_LOG.md`, and
  rewrites a prompt's status.

Foreign facilities are handed to the model as values. These are
`crypto.subtle`, `crypto.getRandomValues`, `TextEncoder`/`TextDecoder`,
`JSON`, the Gemini service and the Drive service. Each law a theorem relies
on is a ghost predicate that theorem requires:

- decryption undoes encryption under the same key and IV;
- UTF-8 decoding undoes encoding;
- `JSON.parse` undoes a successful `JSON.stringify`.

Randomness is a tape of bytes read in order. The clock is an input string.
A thrown `Error` is an `Err` carrying its message. In the log editor, each
`process.exit(1)` is an `Err` carrying the message printed before it.

Modules follow the source files: `Common` (shared vocabulary), `Platform`
(foreign facilities), `Base64`, `Encryption`, `Auth`, `DriveApi` (the remote
store), `Drive`, `Types`, `Storage`, `Backend` and `PromptLog`.

Four operations appear twice, once as a function and once as the method
with the source's steps. In each pair, the function specifies the method:

- `Encryption.Encrypt` specifies `Encryption.EncryptData`.
- `Encryption.Decrypt` specifies `Encryption.DecryptData`.
- `PromptLog.EntryText` specifies `PromptLog.InsertEntry`.
- `Backend.DataUrls` specifies `Backend.CollectImageUrls`.

## Model

| member | source | states |
|---|---|---|
| Base64.Btoa | services/encryptionService.ts:21 | `btoa` succeeds exactly when every character code is below 256; otherwise it fails with `InvalidCharacterError` |
| Base64.Atob | services/encryptionService.ts:28 | `atob` yields a binary string (every code below 256) or fails with `InvalidCharacterError` |
| Base64.EncodeShape | services/encryptionService.ts:21 | the base64 text of n bytes has 4·⌈n/3⌉ characters, all alphabet digits or '=' |
| Base64.EncodeThenDecode | services/encryptionService.ts:11-34 | `atob` of the base64 encoding of any byte sequence gives back the binary string of those bytes |
| Base64.BtoaThenAtob | services/encryptionService.ts:11-34 | for a binary string, `btoa` is the RFC 4648 encoding of its codes, and `atob(btoa(s)) == s` |
| Encryption.BinaryString | services/encryptionService.ts:11-20 | the 8192-byte chunked loop builds a string as long as the array, whose character i has code `bytes[i]`: chunking is invisible |
| Encryption.BytesToBase64 | services/encryptionService.ts:11-22 | `uint8ArrayToBase64` returns the base64 encoding of the array's bytes |
| Encryption.FromBase64 | services/encryptionService.ts:27-34 | the only way `base64ToUint8Array` fails is `atob`'s `InvalidCharacterError` |
| Encryption.Base64ToBytes | services/encryptionService.ts:27-34 | the filling loop yields a fresh array holding exactly the codes of `atob`'s result, or `atob`'s error |
| Encryption.Base64RoundTrip | services/encryptionService.ts:11-34 | for byte sequences of every length, more than one chunk included, `base64ToUint8Array(uint8ArrayToBase64(b)) == b` |
| Encryption.EncryptErrors | services/encryptionService.ts:80-132 | every encryption failure carries the prefix 'Failed to encrypt data: '; without `crypto.subtle` the failure is the fixed 'Web Crypto API not available…' message |
| Encryption.Pbkdf2 | services/encryptionService.ts:60-71 | the derivation parameters: PBKDF2 over the salt with 100000 iterations of SHA-256, giving a non-extractable 256-bit AES-GCM key for 'encrypt' and 'decrypt' |
| Encryption.DeriveKey | services/encryptionService.ts:46-72 | imports the UTF-8 password as raw, non-extractable PBKDF2 material usable only for `deriveKey`, then derives the key with `Pbkdf2`; a failure of either step is that step's error; `DecryptUndoesEncrypt` relies on the same password and salt giving the same key |
| Encryption.Encrypt | services/encryptionService.ts:80-132 | `encryptData` for a given salt and IV: derive the key, encode the JSON text, encrypt with AES-GCM under the IV, and put the base64 of IV, ciphertext and salt in the envelope; its errors are stated by `EncryptErrors` and its inverse by `DecryptUndoesEncrypt` |
| Encryption.EncryptData | services/encryptionService.ts:80-132 | without `crypto.subtle` nothing is drawn; otherwise a 16-byte salt, then a 12-byte IV, are drawn from the random stream, and the result is the encryption with exactly those bytes |
| Encryption.EnvelopeCarriesSaltAndIv | services/encryptionService.ts:117-121 | a successful envelope's `iv` and `salt` decode to exactly the IV and salt used, and its `data` is valid base64 |
| Encryption.Decrypt | services/encryptionService.ts:140-168 | every decryption failure is the one message 'Failed to decrypt data. Wrong password?' |
| Encryption.DecryptData | services/encryptionService.ts:140-168 | `decryptData` decodes the three fields, derives the key from the envelope's own salt, decrypts with its IV and parses the JSON, and yields exactly `Decrypt` |
| Encryption.DecryptUndoesEncrypt | services/encryptionService.ts:80-168 | given a lawful cipher, UTF-8 codec and JSON, decrypting an envelope with the password it was made with gives back the data |
| Encryption.PasswordOf | services/encryptionService.ts:177-179 | one character per random byte, each in the 70-character alphabet |
| Encryption.GenerateSecurePassword | services/encryptionService.ts:174-180 | draws exactly `length` bytes (32 by default); character i is `charset[r[i] % 70]` for the i-th byte drawn |
| Encryption.ModuloBias | services/encryptionService.ts:175-178 | the alphabet has 70 characters; the first 46 are each hit by four byte values, the other 24 by three |
| Platform.RandomSource.GetRandomValues | services/encryptionService.ts:91-92 | `crypto.getRandomValues(new Uint8Array(n))` fills a fresh array with the next n bytes of the stream, and no later call sees them again |
| Auth.SignInErrorMessage | services/authService.ts:68-81 | the four known error codes map to their fixed messages; any other code yields `error.message`, or 'Authentication failed' when that is empty |
| Auth.SignInMessageNeverEmpty | services/authService.ts:68-81 | a failed sign-in is never reported with an empty message, and for a known code Firebase's own message is ignored |
| Auth.Session.constructor | services/authService.ts:124 | the cache starts out null, with no user signed in |
| Auth.Session.CacheAccessToken | services/authService.ts:129-131 | `cacheAccessToken` overwrites the cache with its argument, null included, and changes nothing else |
| Auth.Session.GetDriveAccessToken | services/authService.ts:138-154 | `getDriveAccessToken` returns null when no user is signed in, even with a token cached; it returns the cached token when a user is present and the cache is non-empty; it returns null when the cache is null or empty |
| Auth.Session.SignInWithGoogle | services/authService.ts:30-83 | on success the user is signed in, and the credential's token is cached (null when missing or empty) and returned; on failure nothing changes and the mapped message is thrown |
| Auth.Session.SignOut | services/authService.ts:98-107 | the cache and the user are cleared only after Firebase's sign-out succeeds; on failure both are untouched and 'Sign-out failed: …' is thrown |
| DriveApi.Server.FilesCreate | services/driveService.ts:39-46 | the Drive create endpoint the client calls: it logs the call; it refuses during an outage or with an unknown token; otherwise it stores a new record under a fresh non-empty id |
| DriveApi.Server.FilesList | services/driveService.ts:158-162 | the Drive list endpoint: it lists every stored file matching the query once, omits `files` when nothing matches, and changes no file |
| DriveApi.Server.FilesGetMedia | services/driveService.ts:181-185 | the Drive media endpoint: the stored content, or 'Not Found' |
| DriveApi.Server.FilesDelete | services/driveService.ts:201-206 | the Drive delete endpoint: it removes exactly the named record, or answers 'Not Found' |
| Drive.FolderQueryMeaning | services/driveService.ts:64 | the folder search matches exactly the non-trashed folders with that exact name |
| Drive.FolderQueryText | services/driveService.ts:64 | the search text is `name='…' and mimeType='application/vnd.google-apps.folder' and trashed=false` |
| Drive.ListQueryMeaning | services/driveService.ts:152-154 | the list query matches the non-trashed files, restricted to the folder's children when a folder id is given |
| Drive.ListQueryText | services/driveService.ts:152-154 | the list text is `'<id>' in parents and trashed=false` with a folder id, `trashed=false` without one |
| Drive.UploadMetadata | services/driveService.ts:106-110 | the upload metadata always has the file name and mime type 'application/json', and has `parents: [folderId]` exactly when a folder id is given |
| Drive.GetAuthenticatedToken | services/driveService.ts:216-222 | fails with 'User not authenticated…' exactly when no user is signed in or the cache is null or empty; otherwise yields the non-empty cached token |
| Drive.CreateFolder | services/driveService.ts:30-54 | sends one folder create; a refused call throws 'Failed to create folder: ' plus the status text and stores nothing; otherwise it returns the new folder's fresh id |
| Drive.FindOrCreateFolder | services/driveService.ts:59-85 | searches first; when the search response is non-empty it returns the id of that response's first file and sends no create; when it is empty it creates the folder and returns its id; the response lists exactly the non-trashed folders of that name; a refused search throws 'Failed to search folders: …' and a refused create 'Failed to create folder: …'; any id returned names a stored, non-trashed folder of that name |
| Drive.UploadEncryptedFile | services/driveService.ts:94-143 | uploads the JSON text of the envelope with the upload metadata in one multipart create; every failure, a refused call included, is 'Failed to upload to Google Drive'; on success the new fresh id holds that text |
| Drive.ListFiles | services/driveService.ts:148-170 | returns each file the list query matches exactly once, as stored, and an absent `files` field as []; a refused call throws 'Failed to list files: …' |
| Drive.DownloadFile | services/driveService.ts:175-192 | returns the parsed JSON of the file's stored content; a refused call or a missing file throws 'Failed to download file: …' |
| Drive.DeleteFile | services/driveService.ts:197-211 | succeeds exactly when the call is accepted and the file exists, and then removes exactly that file; otherwise nothing changes and 'Failed to delete file: …' is thrown |
| Storage.Dashed | services/storageService.ts:53 | `replace(/[:.]/g, '-')` keeps the length, turns every ':' and '.' into '-', and leaves the other characters alone |
| Storage.FileName | services/storageService.ts:53-54 | the name of a saved file; its shape is stated by `FileNameShape` |
| Storage.FileNameShape | services/storageService.ts:53-54 | the file name is 'lake9_art_', then the timestamp with ':' and '.' turned into '-', then '.encrypted.json' |
| Storage.ChosenPassword | services/storageService.ts:42 | the caller's password unless it is absent or empty; otherwise a generated password of 32 alphabet characters |
| Storage.PickPassword | services/storageService.ts:42 | the caller's password draws no random bytes; a generated one draws exactly the 32 bytes it is made from |
| Storage.SealArt | services/storageService.ts:42-46 | the password is chosen before anything is drawn for encryption; the envelope is encrypted with that very password and the salt and IV drawn after it |
| Storage.SealAndStore | services/storageService.ts:42-74 | encryption comes before every request, so a failed encryption sends nothing and throws the encryption error. Once sealed, the folder search is the first request and no stored file disappears. A failure of the folder step or of the upload is thrown as that step threw it ('Failed to search folders: …', 'Failed to create folder: …' or 'Failed to upload to Google Drive'). On success the returned key is the password used, the file is stored in the Lake9 folder under the timestamped name, and the upload is the last request |
| Storage.SaveArtToPrivateDrive | services/storageService.ts:33-75 | without a token it throws 'User not authenticated…' before drawing, encrypting or sending anything; otherwise it behaves as seal-then-store, its failures included |
| Storage.SaveThenLoad | services/storageService.ts:33-105 | after a successful save, loading the new file with the returned key gives back the art result, given a lawful cipher and lawful codecs |
| Storage.FindLake9Folder | services/storageService.ts:50 | the folder search for 'Lake9_Encrypted_Art' is the first request, no stored file disappears, any id returned names the Lake9 folder, and any failure is the search's or the create's own message |
| Storage.StoreEnvelope | services/storageService.ts:48-74 | the folder search is the first request and no stored file disappears; a failure is the folder step's or the upload's own message; on success the envelope's JSON is stored under the timestamped name inside the folder that was resolved, in a new file, uploaded last |
| Storage.UploadToLake9 | services/storageService.ts:56-63 | the upload into the resolved folder sends at most one request and removes no file; its only failure is 'Failed to upload to Google Drive'; on success a new file holds the envelope's JSON under the timestamped name inside the folder |
| Storage.LoadArtFromPrivateDrive | services/storageService.ts:83-105 | checks the token first, then downloads, then decrypts with the caller's password; every error reaches the caller unchanged |
| Storage.ListSavedArt | services/storageService.ts:110-119 | checks the token first; with a token, the folder search is the first request, and a failure is the folder step's message or 'Failed to list files: …' as `listFiles` threw it; on success it lists exactly the non-trashed children of the Lake9 folder |
| Storage.ListedInFolder | services/storageService.ts:112-114 | a listing that answers the folder's list query holds only non-trashed children of that folder |
| Storage.SavedArtLoads | services/storageService.ts:93-97 | the file holding the JSON of an envelope loads back to the sealed value when the same password is used |
| Backend.AsResult | functions/src/index.ts:89-95 | the reply is a complete `AIProcessingResult` exactly when the analysis supplied all four text fields |
| Backend.TextRequest | functions/src/index.ts:40-63 | the manager request goes to 'gemini-3-flash-preview' and demands JSON output; its prompt opens with the template head followed by the stock data |
| Backend.ImageRequest | functions/src/index.ts:68-80 | the image request goes to 'gemini-2.5-flash-image' with aspect ratio 16:9, and has one text part embedding the doppelganger prompt ('undefined' when absent) |
| Backend.ResponseText | functions/src/index.ts:65 | a missing or empty response text is parsed as '{}' |
| Backend.FirstParts | functions/src/index.ts:83 | the parts of the first candidate's content, or [] when any link is missing |
| Backend.DataUrlsInOrder | functions/src/index.ts:82-87 | one PNG data URL per part with inline data, in part order, at the position given by the inline parts before it, and no other URL |
| Backend.DataUrlsEmpty | functions/src/index.ts:82-87 | no URL is collected exactly when no part carries inline data |
| Backend.CollectImageUrls | functions/src/index.ts:82-87 | the `for … of` loop with `push` collects exactly the data URLs of the inline parts |
| Backend.ImageUrls | functions/src/index.ts:93 | the URL list is never empty: the collected URLs, or exactly the placeholder when none was collected |
| Backend.FallbackExactlyWithoutImages | functions/src/index.ts:82-93 | the URL list is exactly the placeholder if and only if no part has inline data; otherwise every URL starts with 'data:image/png;base64,' |
| Backend.Assemble | functions/src/index.ts:89-95 | summary, doppelganger prompt, math expression and narrative are copied unchanged from the analysis, and the URL list is never empty |
| Backend.Gemini.GenerateContent | functions/src/index.ts:40-80 | each model call is logged with its key, and its answer is the service's answer to that call |
| Backend.GenerateArt | functions/src/index.ts:24-105 | without an API key it raises 'failed-precondition' before any model call; otherwise the text request comes first and the image request second; any failure after the key check raises HttpsError('internal', 'Failed to process AI request'); on success the reply is assembled from the parsed analysis and the image parts |
| PromptLog.NatToString | tools/log-updater.cjs:51 | `String(n)` is a non-empty digit string without a leading zero, of at least 3 digits from 100 on |
| PromptLog.ParseNatToString | tools/log-updater.cjs:49-51 | `parseInt` undoes `String` |
| PromptLog.PadStart | tools/log-updater.cjs:130 | `padStart(width, fill)` gives length max(width, \|s\|), with `s` at the end and only fill characters before it |
| PromptLog.PadKeepsValue | tools/log-updater.cjs:51 | zero-padding a numeral keeps it a numeral with the same value |
| PromptLog.Max | tools/log-updater.cjs:50 | `Math.max` of a non-empty list is one of its elements and bounds all of them |
| PromptLog.HeadingFound | tools/log-updater.cjs:43 | a global scan for headings sees every `### Prompt #ddd…` heading from its starting point on |
| PromptLog.NextFromAbove | tools/log-updater.cjs:45-51 | the next number is '001' when there is none; otherwise it is max+1 left-padded with '0' to at least 3 digits, equal to `String(max+1)` itself from 100 on (no truncation), and strictly above every number it was computed from |
| PromptLog.NextPromptNumber | tools/log-updater.cjs:41-52 | `getNextPromptNumber` reading whole heading numbers; `NextFromAbove` and `NextPromptNumberIsFresh` state that it is a padded numeral above every heading number |
| PromptLog.WrittenNextPromptNumber | tools/log-updater.cjs:41-52 | `getNextPromptNumber` as written, reading three digits per heading; `WrittenNumberRepeats` shows where it goes wrong |
| PromptLog.After999 | tools/log-updater.cjs:51 | after 999 comes '1000' |
| PromptLog.NextPromptNumberIsFresh | tools/log-updater.cjs:41-52 | (as corrected) the next number is strictly greater than the number of every heading in the log |
| PromptLog.WrittenNumberRepeats | tools/log-updater.cjs:43-49 | as written, a log whose only heading is `### Prompt #1000` yields '101'; read with all digits it yields '1001' |
| PromptLog.IndexOf | tools/log-updater.cjs:91 | `indexOf(p, from)` is the first occurrence at or after `from`, or -1 exactly when there is none |
| PromptLog.Insert | tools/log-updater.cjs:98 | `slice(0, p) + t + slice(p)` keeps the text before `p`, puts `t` at `p`, and keeps the rest after it |
| PromptLog.InsertPreserves | tools/log-updater.cjs:98 | taking the inserted text out again gives back the original, in order |
| PromptLog.RowPosition | tools/log-updater.cjs:91-98 | -1 exactly when the separator '\|---\|------\|------\|' is absent; otherwise just past the first newline after the separator, or 0 when no newline follows it |
| PromptLog.FindDetailHeading | tools/log-updater.cjs:101 | the leftmost match of `/## .+ Log Entries[^\n]*\n/`, or none when nowhere matches |
| PromptLog.DetailPosition | tools/log-updater.cjs:101-107 | -1 exactly when no detail heading exists; otherwise just past the newline ending the first detail heading's line |
| PromptLog.DetailEntryHeading | tools/log-updater.cjs:71-72 | the detail block opens with the new prompt's own `### Prompt #NNN` heading |
| PromptLog.DetailEntry | tools/log-updater.cjs:71-85 | the detail block of a new prompt; `DetailEntryHeading` states that it opens with the prompt's own heading |
| PromptLog.EntryText | tools/log-updater.cjs:91-95 | without the separator, `addEntry` fails with 'Could not find table header in log!' |
| PromptLog.EntryPlacement | tools/log-updater.cjs:97-108 | when `addEntry` succeeds the separator exists, the row sits at the row position, the block sits at the detail position, and removing both gives back the log unchanged |
| PromptLog.InsertEntry | tools/log-updater.cjs:88-108 | the step-by-step reassignment of `content` yields the two insertions, or the first error it meets |
| PromptLog.LogFile.Read | tools/log-updater.cjs:27-33 | `readLog` fails with 'PROMPTS_LOG.md not found!' when the file is missing, and otherwise yields its text |
| PromptLog.LogFile.Write | tools/log-updater.cjs:36-38 | `writeLog` replaces the file's text |
| PromptLog.LogFile.AddEntry | tools/log-updater.cjs:55-119 | rejects an absent, empty or white-space-only description, then a missing file, leaving the log alone; otherwise it writes the log with the new row and block and returns the new number, or leaves the log alone on a missing marker |
| PromptLog.LogFile.UpdateStatus | tools/log-updater.cjs:122-156 | rejects missing arguments, pads the number to 3 digits, fails when the file is missing or the table rewrite changes nothing (leaving the log alone), and otherwise writes the table rewrite followed by the detail rewrite |
| PromptLog.NoRowNoChange | tools/log-updater.cjs:137-138 | with no row for the number, the global table rewrite gives the text back unchanged |
| PromptLog.StatusUpdate | tools/log-updater.cjs:136-149 | what `updateStatus` does with the log text: the table rewrite then the detail rewrite, or 'Prompt #NNN not found in table!' when the table rewrite changes nothing; `UpdateStatus` writes exactly this, and `MissingRowIsReported` and `NewRowStatusRewrite` state its two outcomes |
| PromptLog.MissingRowIsReported | tools/log-updater.cjs:137-143 | a status update for a number no row carries fails with 'Prompt #NNN not found in table!', so nothing is written |
| PromptLog.NewRowStatusRewrite | tools/log-updater.cjs:137-138 | a row as `addEntry` writes it (date and description non-empty and free of '\|') is found by the status rewrite for its own number: its approval cell '?? Pending ' is replaced by the new status, every other cell is kept, and the space before the following bar is not restored |
| PromptLog.NoDetailNoChange | tools/log-updater.cjs:147-149 | with no detail block for the number, the detail rewrite gives the text back unchanged |
| PromptLog.ReplaceDetails | tools/log-updater.cjs:147-149 | the global detail rewrite; `NoDetailNoChange` states that without a detail block for the number it leaves the text unchanged |
| PromptLog.ReplaceRows | tools/log-updater.cjs:136-138 | the global table rewrite; `NoRowNoChange` and `NewRowStatusRewrite` state what it does without and with a row for the number |
| PromptLog.TableRow | tools/log-updater.cjs:68 | the table row of a new prompt; `NewRowStatusRewrite` states that the status rewrite finds it |

## Left out

- I/O that has no logic of its own is left out. HTTP and `fetch`, the Firebase SDK (`signInWithPopup`, `onAuthStateChanged`, `getCurrentUser`, `handleRedirectResult`), `fs`, console output and the log editor's `viewLog`, `showHelp` and `main` are external effects or argument parsing.
- The clock is not modelled. `new Date().toISOString()` and `getCurrentDate()` are input strings.
- The cryptographic primitives are not modelled. PBKDF2, AES-GCM, `TextEncoder`/`TextDecoder` and `JSON` are function values. Their behaviour is given only by the lawfulness predicates the round-trip theorems require.
- `encodeURIComponent`, `Blob`, `FormData` and the Drive field masks are not modelled. A request is a structured value, and the query is also rendered as the exact text the source builds.
- DriveApi.Server.FilesList: the order of a listing is not stated. `listFiles` asks the server for `orderBy=modifiedTime desc`, and the folder search asks for no order; the model does not say which file comes first in either.
- DriveApi.Server.FilesList: one response holds every match. Drive's default page of 100 files, partial pages and `nextPageToken` are not modelled.
- Drive.ListFiles: lists every match, because the model's server never pages. For a folder of more than 100 files the source returns only the first page.
- Storage.ListSavedArt: "exactly the children of the folder" rests on the unpaged server. For more than 100 files the source lists only the first page.
- Drive.FindOrCreateFolder: the search always sees every matching folder. A partial or empty first page, which Drive allows, would make the source create a second Lake9 folder; the model rules that out. Which matching folder is first in the response is not modelled either.
- DriveApi.Server.FilesDelete: removes only the named record. Drive's delete of a folder also deletes its descendants, which the model does not do.
- Drive.DeleteFile: "removes exactly that file" rests on the server above. Deleting a folder id removes only the folder record in the model.
- Drive.FolderQueryMeaning: states the meaning of the structured query. The source builds the query text without escaping, so a name containing `'` or `\` gives a malformed or different query. The only caller passes the constant 'Lake9_Encrypted_Art', which contains neither.
- Encryption.GenerateSecurePassword: `length` is a natural number. In the source a negative length makes `new Uint8Array` throw a `RangeError` and a fractional one is truncated; every caller passes the default 32.
- PromptLog.PadStart: counts characters, while JavaScript's `padStart` counts UTF-16 code units. The two differ only for a prompt-number argument holding a character outside the Basic Multilingual Plane.
- Drive.UploadEncryptedFile: the inner 'Drive upload failed: <body>' message is not modelled, because the outer catch always replaces it.
- Drive.CreateFolder: a rejected `fetch` (a network error) and a `response.json()` that fails are not modelled. Only non-ok responses are.
- The find-then-create race is not modelled. Two concurrent saves can each create a Lake9 folder; concurrency is outside the model.
- Platform.RandomSource.GetRandomValues: does not model the 65536-byte quota of `crypto.getRandomValues`. Encryption.GenerateSecurePassword therefore does not fail for lengths above that.
- Encryption.BinaryString: the argument-count limit of `String.fromCharCode(...chunk)` is not modelled. Chunking exists to stay under it, and the model proves the chunking has no visible effect.
- Backend.GenerateArt: `JSON.stringify` of the stock data is taken as total, and a request without `stockData` is not modelled.
- Backend.GenerateArt: fields of the parsed analysis are strings or absent. Other JSON value types are not modelled.
- Backend.GenerateArt: the Gemini SDK's `text` accessor and the transport are the service's business.
- PromptLog.LogFile.UpdateStatus: `$` replacement patterns inside the new status are not expanded. The status is inserted literally.
- PromptLog.LogFile.UpdateStatus: regular-expression metacharacters in the prompt number are matched literally.
- PromptLog.LogFile.AddEntry: uses the corrected numbering (see Findings). It reads the log once, where the source reads it twice with nothing written in between.
- `functions/lib/index.js` is the compiled copy of `functions/src/index.ts` and is not part of this model.
- `services/geminiService.ts`, `config/firebase.ts` and `services/documentTracking.ts` are not part of this model.
- The React UI (`App.tsx`, `components/`, `contexts/AuthContext.tsx`) is not part of this model.

## Findings

| source | as written | input that shows it | evidently intended | confidence | as-written member | corrected member |
|---|---|---|---|---|---|---|
| tools/log-updater.cjs:43-49 | `/### Prompt #(\d{3})/g` and `m.match(/\d{3}/)` read only the first three digits of a heading number | a log whose only heading is `### Prompt #1000` gives next number '101', which lies below an existing prompt | read the whole heading number, so the next number is '1001' and always exceeds every existing one | not executed | PromptLog.WrittenNumberRepeats | PromptLog.NextPromptNumberIsFresh |
