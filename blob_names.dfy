/** The string rules inside the blob storage service (app/services/blob_service.py):
    naming an uploaded blob, finding a blob's name again in its URL, reading the
    account key out of the connection string and putting a download URL together. */
module BlobNames {
  import opened Wrappers
  import opened PyStrings

  /** Extension given to a file whose name has no dot. */
  const DefaultExtension: string := "bin"

  /** The connection-string field that carries the storage account key. */
  const AccountKeyField: string := "AccountKey="

  /** The extension an upload keeps: the text after the filename's last dot, or `bin`. */
  function Extension(filename: string): string {
    if '.' in filename then Last(Split(filename, '.')) else DefaultExtension
  }

  /** The stored name of an upload: a fresh identifier, a dot, and the extension. */
  function BlobName(id: string, filename: string): string {
    id + "." + Extension(filename)
  }

  /** The blob name in a blob URL: its last `/`-segment, cut at the first `?` so that a
      SAS query string is dropped. */
  function BlobNameFromUrl(url: string): string {
    Split(Last(Split(url, '/')), '?')[0]
  }

  /** A URL without its query string. */
  function BaseUrl(url: string): string {
    Split(url, '?')[0]
  }

  /** A signed download URL: the blob URL without its old query, `?`, then the token. */
  function DownloadUrl(blobUrl: string, token: string): string {
    BaseUrl(blobUrl) + "?" + token
  }

  /** The URL the storage client reports for a blob (percent-encoding not modelled). */
  function BlobUrl(accountUrl: string, container: string, name: string): string {
    accountUrl + "/" + container + "/" + name
  }

  /** The value of the first segment that starts with `AccountKey=`, with every
      occurrence of `AccountKey=` removed from it; `None` when no segment starts so. */
  function KeyFromSegments(parts: seq<string>): Option<string> {
    if parts == [] then None
    else if StartsWith(parts[0], AccountKeyField) then Some(Replace(parts[0], AccountKeyField, ""))
    else KeyFromSegments(parts[1..])
  }

  /** The account key of a `;`-separated `Key=Value` connection string. */
  function AccountKey(connectionString: string): Option<string> {
    KeyFromSegments(Split(connectionString, ';'))
  }

  /** Segment `i` is the first one that starts with `AccountKey=`. */
  predicate FirstKeySegment(parts: seq<string>, i: int) {
    0 <= i < |parts| && StartsWith(parts[i], AccountKeyField) &&
    forall j :: 0 <= j < i ==> !StartsWith(parts[j], AccountKeyField)
  }

  // ----- extensions and generated names -----

  /** A filename with a dot keeps the text after its last dot, which holds no dot and
      is what follows that dot in the filename; a filename without one gets `bin`. */
  lemma ExtensionAfterLastDot(filename: string)
    ensures '.' !in Extension(filename)
    ensures '.' !in filename ==> Extension(filename) == DefaultExtension
    ensures '.' in filename ==>
      AfterLast(filename, '.', Extension(filename)) && |Extension(filename)| < |filename|
  {
    if '.' in filename {
      SplitLast(filename, '.');
    }
  }

  /** The generated name ends with `.` and the extension, and has the same extension as
      the uploaded file, whatever the identifier is. */
  lemma BlobNameKeepsExtension(id: string, filename: string)
    ensures BlobName(id, filename)[|id|..] == "." + Extension(filename)
    ensures Extension(BlobName(id, filename)) == Extension(filename)
  {
    var ext := Extension(filename);
    var name := BlobName(id, filename);
    ExtensionAfterLastDot(filename);
    assert name[|id|] == '.';
    SplitLast(name, '.');
    assert AfterLast(name, '.', ext) by {
      assert name[|name| - |ext|..] == ext;
    }
    AfterLastUnique(name, '.', ext, Last(Split(name, '.')));
  }

  // ----- blob names in URLs -----

  /** The extracted name is the last `/`-segment of the URL cut at its first `?`, so it
      holds neither `/` nor `?`. */
  lemma BlobNameFromUrlSegments(url: string)
    ensures '/' !in BlobNameFromUrl(url) && '?' !in BlobNameFromUrl(url)
    ensures exists seg :: AfterLast(url, '/', seg) && BeforeFirst(seg, '?', BlobNameFromUrl(url))
  {
    var seg := Last(Split(url, '/'));
    SplitLast(url, '/');
    SplitFirst(seg, '?');
  }

  /** Extracting a name from an extracted name changes nothing. */
  lemma BlobNameFromUrlIdempotent(url: string)
    ensures BlobNameFromUrl(BlobNameFromUrl(url)) == BlobNameFromUrl(url)
  {
    BlobNameFromUrlSegments(url);
  }

  /** The name of a blob is found again in the URL the storage client reports for it,
      provided the name holds no `/` and no `?`. */
  lemma BlobNameFromBlobUrl(accountUrl: string, container: string, name: string)
    requires '/' !in name && '?' !in name
    ensures BlobNameFromUrl(BlobUrl(accountUrl, container, name)) == name
  {
    var url := BlobUrl(accountUrl, container, name);
    SplitLast(url, '/');
    assert AfterLast(url, '/', name) by {
      assert url[|url| - |name|..] == name;
      assert url[|url| - |name| - 1] == '/';
    }
    AfterLastUnique(url, '/', name, Last(Split(url, '/')));
  }

  /** A file uploaded under a name built from a plain identifier and a filename with no
      `/` and no `?` can be found again from the unencoded URL `BlobUrl` builds for it. */
  lemma UploadedUrlNamesBlob(accountUrl: string, container: string, id: string, filename: string)
    requires '/' !in id && '?' !in id && '/' !in filename && '?' !in filename
    ensures BlobNameFromUrl(BlobUrl(accountUrl, container, BlobName(id, filename))) == BlobName(id, filename)
  {
    var ext := Extension(filename);
    ExtensionAfterLastDot(filename);
    assert '/' !in ext && '?' !in ext by {
      if '.' in filename {
        assert ext == filename[|filename| - |ext|..];
      }
    }
    BlobNameFromBlobUrl(accountUrl, container, BlobName(id, filename));
  }

  /** Without that proviso the round trip fails: the filename `a.b/c` gets the extension
      `b/c`, and the URL of the blob so named yields the name `c`. */
  lemma SlashInExtensionBreaksRoundTrip()
    ensures BlobName("id", "a.b/c") == "id.b/c"
    ensures BlobNameFromUrl(BlobUrl("u", "k", "id.b/c")) == "c"
  {
    var filename := "a.b/c";
    SplitLast(filename, '.');
    assert AfterLast(filename, '.', "b/c");
    AfterLastUnique(filename, '.', "b/c", Last(Split(filename, '.')));
    assert BlobUrl("u", "k", "id.b/c") == BlobUrl("u", "k/id.b", "c");
    BlobNameFromBlobUrl("u", "k/id.b", "c");
  }

  // ----- download URLs -----

  /** A download URL is the old URL's part before its first `?`, then `?`, then the token:
      any earlier query string is dropped and the token is all that follows. */
  lemma DownloadUrlShape(blobUrl: string, token: string)
    ensures BeforeFirst(blobUrl, '?', BaseUrl(blobUrl))
    ensures BeforeFirst(DownloadUrl(blobUrl, token), '?', BaseUrl(blobUrl))
    ensures DownloadUrl(blobUrl, token)[|BaseUrl(blobUrl)| + 1..] == token
  {
    SplitFirst(blobUrl, '?');
    var d := DownloadUrl(blobUrl, token);
    assert d[..|BaseUrl(blobUrl)|] == BaseUrl(blobUrl);
  }

  /** Signing a signed URL again replaces its token: the old token does not survive. */
  lemma DownloadUrlResign(blobUrl: string, t1: string, t2: string)
    ensures DownloadUrl(DownloadUrl(blobUrl, t1), t2) == DownloadUrl(blobUrl, t2)
  {
    var d := DownloadUrl(blobUrl, t1);
    DownloadUrlShape(blobUrl, t1);
    SplitFirst(d, '?');
    BeforeFirstUnique(d, '?', BaseUrl(d), BaseUrl(blobUrl));
  }

  /** A token free of `/` does not change which blob the URL names. */
  lemma DownloadUrlKeepsBlobName(blobUrl: string, token: string)
    requires '/' !in token
    ensures BlobNameFromUrl(DownloadUrl(blobUrl, token)) == BlobNameFromUrl(BaseUrl(blobUrl))
  {
    var b := BaseUrl(blobUrl);
    var d := DownloadUrl(blobUrl, token);
    var sb := Last(Split(b, '/'));
    SplitFirst(blobUrl, '?');
    SplitLast(b, '/');
    assert '?' !in sb by {
      assert sb == b[|b| - |sb|..];
    }
    AfterLastAppend(b, '/', sb, "?" + token);
    assert d == b + ("?" + token);
    SplitLast(d, '/');
    AfterLastUnique(d, '/', sb + ("?" + token), Last(Split(d, '/')));
    var seg := sb + ("?" + token);
    SplitFirst(seg, '?');
    assert BeforeFirst(seg, '?', sb) by {
      assert seg[..|sb|] == sb;
    }
    BeforeFirstUnique(seg, '?', sb, Split(seg, '?')[0]);
  }

  // ----- the account key -----

  /** The key is taken from the first segment that starts with `AccountKey=` and later
      matching segments are ignored; there is no key exactly when no segment starts so. */
  lemma {:induction false} KeyFromFirstSegment(parts: seq<string>)
    ensures KeyFromSegments(parts).None? <==>
      forall i :: 0 <= i < |parts| ==> !StartsWith(parts[i], AccountKeyField)
    ensures KeyFromSegments(parts).Some? ==>
      exists i :: FirstKeySegment(parts, i) &&
        KeyFromSegments(parts).value == Replace(parts[i], AccountKeyField, "")
  {
    if parts != [] && !StartsWith(parts[0], AccountKeyField) {
      KeyFromFirstSegment(parts[1..]);
      if KeyFromSegments(parts).Some? {
        var i :| FirstKeySegment(parts[1..], i) &&
          KeyFromSegments(parts[1..]).value == Replace(parts[1..][i], AccountKeyField, "");
        assert FirstKeySegment(parts, i + 1);
      }
    } else if parts != [] {
      assert FirstKeySegment(parts, 0);
    }
  }

  /** `replace` removes every `AccountKey=` from the segment, not just the leading one;
      when the rest holds no further occurrence the key is exactly that rest. */
  lemma KeyIsSegmentRest(part: string)
    requires StartsWith(part, AccountKeyField)
    ensures Replace(part, AccountKeyField, "") == Replace(part[|AccountKeyField|..], AccountKeyField, "")
    ensures !Occurs(part[|AccountKeyField|..], AccountKeyField) ==>
      Replace(part, AccountKeyField, "") == part[|AccountKeyField|..]
  {
    if !Occurs(part[|AccountKeyField|..], AccountKeyField) {
      ReplaceAbsent(part[|AccountKeyField|..], AccountKeyField, "");
    }
  }
}
