# Citizen reporting backend: storage names, vault settings and dashboard figures

This project models, in Dafny, the three parts of the incident-reporting backend whose
behaviour can be stated exactly:

- **Blob storage service** (`app/services/blob_service.py`). The service wraps one remote
  container. It names an upload `<id>.<extension>`, with the extension falling back to
  `bin`. It finds a blob's name again in a URL by taking the last `/`-segment and cutting
  it at the first `?`. It reads the account key out of a `;`-separated connection string
  and builds a download URL as the base URL, then `?`, then a SAS token. It turns storage
  failures into `None` or `false`, except in the metadata query, which catches only
  `AzureError`. Module `BlobNames` holds the pure string rules and module `BlobStorage`
  holds the service class. In `BlobStorage` the container is an object whose `blobs` map
  the upload and delete methods change. A `Fault` argument says whether the storage SDK
  call raises. The SAS signer is a function argument. Module `PyStrings` gives Python's
  `split`, `startswith` and `replace` their CPython meaning.
- **Settings and vault merge** (`app/core/config.py`). `Settings` is a class whose fields
  the merge writes in place. `KeyVaultManager.LoadSecretsToSettings` walks the fixed
  eight-entry table in order. It fetches each setting that is still unset. A successful
  fetch stores the value. A failed fetch is skipped outside `"production"`; in production
  it stops the walk with an error. `GetSettings` runs the merge only when the operations
  database URI is unset and a vault is named, and it swallows the merge's error. The
  method is proved against a pointwise specification (`Merged`, `FirstFatal`,
  `Requested`), and the lemmas about that specification state what the merge promises.
  The vault is a function from secret name to value or error.
- **Dashboard analytics** (`app/services/analytics_service.py`). The hot and cold fact
  tables are sequences of rows, and each query is a function over them. The model covers
  the dashboard counts, the group-by breakdowns and the 10,000-row export in
  newest-first order.

Two behaviours of the code are easy to misread, and the model follows the code:

- Every other storage operation turns any error into `None` or `false`, but
  `get_file_metadata` (app/services/blob_service.py:180-182) catches only `AzureError`, so
  other errors propagate. `GetFileMetadata` returns them as `Failure`.
- The merge is commented "Fail fast in production" (app/core/config.py:121) and raises
  `RuntimeError`, but `get_settings` wraps it in `except Exception` (app/core/config.py:137)
  and only logs a warning. `GetSettings` always returns the settings object, keeping
  whatever the merge filled before it stopped.

## Model

| member | source | states |
|---|---|---|
| `PyStrings.Split` | app/services/blob_service.py:95 | `split` on one character gives at least one piece, no piece holds the separator, and a string without the separator splits into itself |
| `BlobNames.ExtensionAfterLastDot` | app/services/blob_service.py:57 | a filename with a dot keeps exactly the text after its last dot, which holds no dot; a filename without a dot gets `bin` |
| `BlobNames.BlobNameKeepsExtension` | app/services/blob_service.py:58 | the generated name ends with `.` and the extension, and has the same extension as the uploaded file, whatever the id |
| `BlobNames.BlobNameFromUrlSegments` | app/services/blob_service.py:95 | the extracted name is the last `/`-segment of the URL cut at its first `?`, and holds neither `/` nor `?` |
| `BlobNames.BlobNameFromUrlIdempotent` | app/services/blob_service.py:121 | extracting the name from an extracted name returns it unchanged |
| `BlobNames.BlobNameFromBlobUrl` | app/services/blob_service.py:82-95 | a name without `/` or `?` is found again in the blob URL built from it |
| `BlobNames.UploadedUrlNamesBlob` | app/services/blob_service.py:57-95 | the unencoded blob URL of an upload yields the uploaded blob's name again, when the id and filename hold no `/` and no `?` |
| `BlobNames.SlashInExtensionBreaksRoundTrip` | app/services/blob_service.py:57-95 | for filename `a.b/c` the blob is `id.b/c`, but the name extracted from its URL is `c`, so the proviso above is needed |
| `BlobNames.DownloadUrlShape` | app/services/blob_service.py:141-142 | the download URL is the blob URL's part before its first `?`, then `?`, then exactly the token, so an earlier query is dropped |
| `BlobNames.DownloadUrlResign` | app/services/blob_service.py:141-142 | signing a signed URL again yields the URL with only the new token |
| `BlobNames.DownloadUrlKeepsBlobName` | app/services/blob_service.py:121-142 | a token without `/` leaves the named blob unchanged: the download URL names the same blob as the base URL |
| `BlobNames.KeyFromFirstSegment` | app/services/blob_service.py:155-158 | no key exactly when no segment starts with `AccountKey=`; otherwise the key comes from the first such segment, later ones are ignored |
| `BlobNames.KeyIsSegmentRest` | app/services/blob_service.py:157 | `replace` removes every `AccountKey=`, not only the prefix; when the rest holds none, the key is exactly the rest |
| `BlobStorage.BlobStorageService.Create` | app/services/blob_service.py:16-22 | construction fails exactly when the connection string is unset, empty or unparsable by the SDK: with the configuration `ValueError` message in the first two cases, the SDK's `ValueError` in the third |
| `BlobStorage.BlobStorageService.UploadFile` | app/services/blob_service.py:38-89 | without a fault: stores the content, content type and metadata under `<id>.<ext>` and returns that blob's URL; with any fault: `None`, container unchanged |
| `BlobStorage.BlobStorageService.DeleteFile` | app/services/blob_service.py:91-111 | `true` exactly when no fault and the named blob exists, and then only that blob is removed; otherwise `false`, container unchanged |
| `BlobStorage.BlobStorageService.GetAccountKey` | app/services/blob_service.py:151-160 | the loop returns the key of the first segment starting with `AccountKey=`, or `None` |
| `BlobStorage.BlobStorageService.GenerateDownloadUrl` | app/services/blob_service.py:113-149 | `None` when the key is missing or empty or signing raises; otherwise base URL + `?` + a token for the named blob, read-only, expiring `expiryHours` after `now` |
| `BlobStorage.BlobStorageService.GenerateDefaultDownloadUrl` | app/services/blob_service.py:113-117 | without an `expiry_hours` argument the download URL is the one for a lifetime of 1 hour: its token expires 3600 seconds after `now` |
| `BlobStorage.BlobStorageService.GetFileMetadata` | app/services/blob_service.py:162-182 | size, content type and metadata of the named blob; `None` for a missing blob or an `AzureError`; any other error propagates |
| `Config.SelectCredential` | app/core/config.py:70-78 | client-secret credential exactly in development with tenant, client id and secret all non-empty, built from those three; otherwise the default |
| `Config.GetSecret` | app/core/config.py:80-86 | a lookup through a manager without a client raises; otherwise the result is the vault's answer for that secret name, value or error |
| `Config.VaultUrlInjective` | app/core/config.py:66 | the vault URL `https://<name>.vault.azure.net/` determines the vault name |
| `Config.KeyVaultManager.constructor` | app/core/config.py:61-68 | a URL, credential and client exist exactly when the vault name is non-empty |
| `Config.Settings.Set` | app/core/config.py:117 | `setattr` gives one vault-backed setting the value and leaves the other seven and every static field as they were |
| `Config.FirstFatal` | app/core/config.py:112-123 | the entry that stops the merge: the first one that is unset, fails to fetch, in production; 8 when there is none |
| `Config.KeyVaultManager.LoadSecretsToSettings` | app/core/config.py:88-125 | the eight settings become `Merged` of the old ones, static fields are unchanged, the vault is asked exactly `Requested`, and it fails with the `RuntimeError` message of entry `FirstFatal` exactly when there is one |
| `Config.RequestedOnlyUnset` | app/core/config.py:112-116 | the vault is asked only for the secrets of unset settings |
| `Config.MergeKeepsPresent` | app/core/config.py:114 | a setting already set is never fetched and never changed |
| `Config.MergeOutsideProduction` | app/core/config.py:115-123 | outside production the merge never stops; a fetched value is stored, and a failed fetch leaves the setting unset |
| `Config.MergeInProductionStops` | app/core/config.py:119-123 | in production the first failed fetch stops the merge: every earlier setting holds a value, it and later ones are untouched, and its secret was the last one asked for |
| `Config.MergeAllPresent` | app/core/config.py:112-114 | with all eight settings set, the merge asks nothing, raises nothing and changes nothing |
| `Config.MergeIdempotent` | app/core/config.py:112-125 | merging again against the same vault changes nothing and stops at the same entry |
| `Config.GetSettings` | app/core/config.py:128-140 | runs the merge exactly when the operations URI is unset and the vault name non-empty; always returns the same settings object, never an error |
| `Analytics.CountAnonymous` | app/services/analytics_service.py:47-49 | the anonymous count never exceeds the number of hot rows |
| `Analytics.GetDashboardStats` | app/services/analytics_service.py:12-59 | total = hot + cold; hot = number of hot rows; cold = number of cold rows, or 0 when the cold query raises; anonymous = the filtered anonymous count; anonymous + registered = hot, both non-negative |
| `Analytics.CountAnonymousCountsRows` | app/services/analytics_service.py:47-49 | the anonymous count is the number of positions holding an anonymous row, and the rest of the row count is the number of positions holding a row that is not anonymous |
| `Analytics.AnonymousRegisteredSplit` | app/services/analytics_service.py:47-59 | the dashboard's anonymous figure is the number of anonymous hot rows and its registered figure the number of hot rows that are not anonymous |
| `Analytics.GroupCountEntries` | app/services/analytics_service.py:30-39 | a group-by count has one key per distinct key value among the rows, each mapped to the positive number of rows with that value |
| `Analytics.GroupCountSum` | app/services/analytics_service.py:30-39 | the counts of a group-by add up to the number of rows |
| `Analytics.StatusBreakdownPartitions` | app/services/analytics_service.py:30-33 | one status key per distinct hot status, counting its rows, with values summing to the hot count |
| `Analytics.CategoryBreakdownPartitions` | app/services/analytics_service.py:36-39 | one category key per distinct hot category, counting its rows, with values summing to the hot count |
| `Analytics.OrderByCreatedDesc` | app/services/analytics_service.py:65-66 | the ordering is a permutation of the rows with `createdAt` never increasing |
| `Analytics.ExportCsvData` | app/services/analytics_service.py:62-67 | at most 10,000 hot rows (all of them when fewer), newest first, drawn from the hot table, and no row left out is newer than any row returned |

## Left out

- Storage SDK and vault SDK calls are foreign code. Whether a storage call raises is the `Fault` argument, the SAS token comes from the `sign` argument, and the vault is the `store` argument of `GetSettings` and `KeyVaultManager.constructor`.
- `uuid.uuid4()` and `datetime.now()` are nondeterministic. They are the `id`, `uploadedAt` and `now` arguments.
- `_ensure_container_exists` (app/services/blob_service.py:28-36) is a remote create whose `AzureError` is logged. It is not modelled, and neither are the other exceptions it could raise out of the constructor. The SDK's own parse of the connection string is the `parses` argument of `BlobStorageService.Create`.
- BlobNames.BlobUrl: the SDK's percent-encoding of container and blob names in the URL is not modelled.
- BlobNames.UploadedUrlNamesBlob: holds for the unencoded URL only. The SDK's `blob_client.url` percent-encodes every character other than letters, digits and `_.-~/`, and the delete and signing paths pass the extracted text on still encoded. For a filename whose extension holds such a character (`scan.tar gz` is stored as `<id>.tar gz`, but its URL yields `<id>.tar%20gz`) the program then addresses a different blob, so the round trip fails there.
- BlobStorage.BlobStorageService.GetFileMetadata: does not report the server's `created_on` and `last_modified` timestamps, which come from the server clock.
- BlobStorage.BlobStorageService.GenerateDownloadUrl: integers are unbounded, so a `timedelta` overflow for a huge `expiry_hours` is not modelled.
- BlobStorage.BlobStorageService.GetAccountKey: the `except` branch of `_get_account_key` is not modelled. It catches a missing connection string, and the constructor already rules that out.
- Config.GetSecret: a vault secret whose `value` is `None` is not modelled; fetched values are strings.
- Config.GetSettings: pydantic's loading of `Settings()` from the environment and `.env` file, and the process-wide `lru_cache`, are not modelled. The loaded settings are the argument, and building the manager's credential and client cannot fail here.
- Analytics.GetDashboardStats: a NULL `isAnonymous` is not modelled; `isAnonymous` is a boolean. SQL's `isAnonymous == True` leaves a NULL row out of the anonymous count, so the program counts such a row as registered.
- Analytics.GetDashboardStats: `avgAiConfidence` is floating-point averaging and is not modelled.
- Analytics.GetDashboardStats: `scalar() or 0` is not modelled separately. `COUNT` never yields NULL, so the only zero fallback that can happen is a cold query that raises, and that one is modelled.
- Analytics.ExportCsvData: SQL leaves the order of rows with equal `createdAt` unspecified. The model fixes one order, and its contract holds for any. NULL `createdAt`, status or category values are not modelled.
- `app/api/v1/reports.py` only maps `None` and `false` to 404 and bounds `skip` and `limit`. The report and attachment validators are not part of this model, and neither are the live-database and HTTP test harnesses.
- Logging is not modelled. There is no concurrency beyond request-scoped database sessions.
