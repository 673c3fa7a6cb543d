/** The blob storage service of app/services/blob_service.py: a wrapper around one
    remote container whose every storage failure becomes a `None` or `false` result.
    The container is an object whose `blobs` map the remote calls change; whether a
    call into the storage SDK raises is given to each method as a `Fault`. */
module BlobStorage {
  import opened Wrappers
  import opened PyStrings
  import opened BlobNames

  /** How a call into the storage SDK ended: normally, with an `AzureError`, or with
      some other exception. */
  datatype Fault = NoFault | AzureFault | OtherFault

  /** A stored blob: its bytes, its content type and its custom metadata. */
  datatype Blob = Blob(content: seq<bv8>, contentType: string, metadata: map<string, string>)

  /** What a metadata query reports about a blob. */
  datatype BlobProperties = BlobProperties(size: nat, contentType: string, metadata: map<string, string>)

  /** The arguments of a SAS token request; the token itself is computed by the SDK. */
  datatype SasRequest = SasRequest(
    accountName: string, containerName: string, blobName: string,
    accountKey: string, permission: string, expiry: int)

  const MissingConnectionString: string := "BLOB_STORAGE_CONNECTION_STRING is not configured"

  /** The `ValueError` the storage SDK raises for a connection string it cannot parse. */
  const MalformedConnectionString: string := "Connection string is either blank or malformed."

  /** The permission string of a read-only SAS. */
  const ReadPermission: string := "r"

  const SecondsPerHour: int := 3600

  /** The lifetime, in hours, of a download URL when the caller names none. */
  const DefaultExpiryHours: int := 1

  /** The custom metadata recorded with every upload. */
  function UploadMetadata(filename: string, uploadedAt: string): map<string, string> {
    map["original_filename" := filename, "uploaded_at" := uploadedAt]
  }

  /** What a metadata query reports for a stored blob. */
  function PropertiesOf(b: Blob): BlobProperties {
    BlobProperties(|b.content|, b.contentType, b.metadata)
  }

  /** The remote container: stored blobs by name. */
  class Container {
    var blobs: map<string, Blob>

    constructor (blobs: map<string, Blob>)
      ensures this.blobs == blobs
    {
      this.blobs := blobs;
    }
  }

  class BlobStorageService {
    const connectionString: string
    const containerName: string
    /** The account name and URL the storage client reads from the connection string. */
    const accountName: string
    const accountUrl: string
    const container: Container

    constructor (connectionString: string, containerName: string, accountName: string,
                 accountUrl: string, container: Container)
      requires connectionString != ""
      ensures this.connectionString == connectionString && this.containerName == containerName
      ensures this.accountName == accountName && this.accountUrl == accountUrl
      ensures this.container == container
    {
      this.connectionString := connectionString;
      this.containerName := containerName;
      this.accountName := accountName;
      this.accountUrl := accountUrl;
      this.container := container;
    }

    /** Building the service fails with `ValueError` when the connection string is unset
        or empty, and with the SDK's `ValueError` when the SDK cannot parse it (`parses`
        stands for `BlobServiceClient.from_connection_string`); otherwise the service keeps
        the string and the container name. */
    static method Create(connectionString: Option<string>, parses: string -> bool,
                         containerName: string, accountName: string, accountUrl: string,
                         container: Container)
      returns (r: Result<BlobStorageService, string>)
      ensures r.Failure? <==>
        connectionString.None? || connectionString.value == "" || !parses(connectionString.value)
      ensures (connectionString.None? || connectionString.value == "") ==>
        r == Failure(MissingConnectionString)
      ensures connectionString.Some? && connectionString.value != "" && !parses(connectionString.value) ==>
        r == Failure(MalformedConnectionString)
      ensures r.Success? ==> fresh(r.value) && r.value.container == container
      ensures r.Success? ==> r.value.connectionString == connectionString.value
      ensures r.Success? ==> r.value.containerName == containerName
    {
      if connectionString.None? || connectionString.value == "" {
        return Failure(MissingConnectionString);
      }
      if !parses(connectionString.value) {
        return Failure(MalformedConnectionString);
      }
      var service := new BlobStorageService(connectionString.value, containerName, accountName,
                                            accountUrl, container);
      return Success(service);
    }

    /** Stores the file under `<id>.<extension>` and returns the blob's URL; any raised
        error gives `None` and stores nothing. */
    method UploadFile(content: seq<bv8>, filename: string, contentType: string,
                      id: string, uploadedAt: string, fault: Fault)
      returns (url: Option<string>)
      modifies container
      ensures url.Some? <==> fault == NoFault
      ensures url.Some? ==> url.value == BlobUrl(accountUrl, containerName, BlobName(id, filename))
      ensures container.blobs == if url.Some?
        then old(container.blobs)[BlobName(id, filename) := Blob(content, contentType, UploadMetadata(filename, uploadedAt))]
        else old(container.blobs)
    {
      var fileExtension := if '.' in filename then Last(Split(filename, '.')) else DefaultExtension;
      var blobName := id + "." + fileExtension;
      if fault != NoFault {
        return None;
      }
      container.blobs := container.blobs[blobName := Blob(content, contentType, UploadMetadata(filename, uploadedAt))];
      url := Some(BlobUrl(accountUrl, containerName, blobName));
    }

    /** Deletes the blob the URL names; `false` when the SDK raises, which it does for a
        blob that does not exist. */
    method DeleteFile(blobUrl: string, fault: Fault) returns (deleted: bool)
      modifies container
      ensures deleted <==> fault == NoFault && BlobNameFromUrl(blobUrl) in old(container.blobs)
      ensures container.blobs == if deleted
        then old(container.blobs) - {BlobNameFromUrl(blobUrl)}
        else old(container.blobs)
    {
      var blobName := Split(Last(Split(blobUrl, '/')), '?')[0];
      if fault != NoFault || blobName !in container.blobs {
        return false;
      }
      container.blobs := container.blobs - {blobName};
      deleted := true;
    }

    /** The SAS request made for a blob URL with a given key, clock and lifetime. */
    function SasFor(blobUrl: string, accountKey: string, now: int, expiryHours: int): SasRequest {
      SasRequest(accountName, containerName, BlobNameFromUrl(blobUrl), accountKey,
                 ReadPermission, now + expiryHours * SecondsPerHour)
    }

    /** The account key of the connection string: the first `;`-segment starting with
        `AccountKey=`, with that text removed. */
    method GetAccountKey() returns (key: Option<string>)
      ensures key == AccountKey(connectionString)
    {
      var parts := Split(connectionString, ';');
      var i := 0;
      while i < |parts|
        invariant 0 <= i <= |parts|
        invariant KeyFromSegments(parts[i..]) == AccountKey(connectionString)
      {
        if StartsWith(parts[i], AccountKeyField) {
          return Some(Replace(parts[i], AccountKeyField, ""));
        }
        assert parts[i..][1..] == parts[i + 1..];
        i := i + 1;
      }
      return None;
    }

    /** A read-only download URL: `None` when the connection string has no non-empty
        account key or signing raises; otherwise the blob URL without its query, `?`,
        and a token signed for the blob the URL names, valid `expiryHours` from `now`. */
    method GenerateDownloadUrl(blobUrl: string, expiryHours: int, now: int,
                               sign: SasRequest -> Option<string>)
      returns (url: Option<string>)
      ensures AccountKey(connectionString).None? || AccountKey(connectionString).value == "" ==> url.None?
      ensures url.Some? <==> (AccountKey(connectionString).Some? && AccountKey(connectionString).value != "" &&
        sign(SasFor(blobUrl, AccountKey(connectionString).value, now, expiryHours)).Some?)
      ensures url.Some? ==>
        url.value == DownloadUrl(blobUrl, sign(SasFor(blobUrl, AccountKey(connectionString).value, now, expiryHours)).value)
    {
      var blobName := Split(Last(Split(blobUrl, '/')), '?')[0];
      var accountKey := GetAccountKey();
      if accountKey.None? || accountKey.value == "" {
        return None;
      }
      var sasToken := sign(SasRequest(accountName, containerName, blobName, accountKey.value,
                                      ReadPermission, now + expiryHours * SecondsPerHour));
      if sasToken.None? {
        return None;
      }
      var baseUrl := Split(blobUrl, '?')[0];
      url := Some(baseUrl + "?" + sasToken.value);
    }

    /** A download URL with the default lifetime of one hour. */
    method GenerateDefaultDownloadUrl(blobUrl: string, now: int, sign: SasRequest -> Option<string>)
      returns (url: Option<string>)
      ensures url.Some? <==> (AccountKey(connectionString).Some? && AccountKey(connectionString).value != "" &&
        sign(SasFor(blobUrl, AccountKey(connectionString).value, now, DefaultExpiryHours)).Some?)
      ensures url.Some? ==>
        url.value == DownloadUrl(blobUrl, sign(SasFor(blobUrl, AccountKey(connectionString).value, now, DefaultExpiryHours)).value)
      ensures url.Some? ==>
        SasFor(blobUrl, AccountKey(connectionString).value, now, DefaultExpiryHours).expiry == now + SecondsPerHour
    {
      url := GenerateDownloadUrl(blobUrl, DefaultExpiryHours, now, sign);
    }

    /** The size, content type and metadata of the blob the URL names; `None` for a
        missing blob or an `AzureError`. Any other error is not caught: it propagates as
        a `Failure`. */
    method GetFileMetadata(blobUrl: string, fault: Fault)
      returns (r: Result<Option<BlobProperties>, Fault>)
      ensures r.Failure? <==> fault == OtherFault
      ensures r.Failure? ==> r.error == OtherFault
      ensures fault == AzureFault ==> r == Success(None)
      ensures fault == NoFault ==> r == Success(
        if BlobNameFromUrl(blobUrl) in container.blobs
        then Some(PropertiesOf(container.blobs[BlobNameFromUrl(blobUrl)]))
        else None)
    {
      var blobName := Split(Last(Split(blobUrl, '/')), '?')[0];
      if fault == OtherFault {
        return Failure(OtherFault);
      }
      if fault == AzureFault || blobName !in container.blobs {
        return Success(None);
      }
      var properties := PropertiesOf(container.blobs[blobName]);
      return Success(Some(properties));
    }
  }
}
