/** src/lib/imageStorage.ts: the IndexedDB image store (an object store keyed by
    `id`, modelled as a map), the registry of live `blob:` URLs, and the
    conversion of `data:` URIs (RFC 2397) into blobs. */
module ImageStorage {

  import opened Wrappers
  import opened Text

  newtype byte = x: int | 0 <= x < 256

  datatype Blob = Blob(bytes: seq<byte>, mimeType: string)

  /** A browser `File`: a blob with a name. */
  datatype File = File(name: string, blob: Blob)

  /** What `storeImage` accepts: a string (a `data:` or `blob:` URL) or a File/Blob. */
  datatype ImageData = TextData(text: string) | BinaryData(blob: Blob)

  /** A record of the `images` object store. */
  datatype StoredImage = StoredImage(id: string, data: Blob)

  /** IMAGE_STORAGE_KEYS.BACKGROUND_IMAGE */
  const BackgroundImageKey: string := "background-image"

  const OpenFailure: string := "Failed to open IndexedDB"

  // ---------------------------------------------------------------------------
  // The manual data-URI decoder (the fallback of dataUriToBlob)
  // ---------------------------------------------------------------------------

  /** `const [header, base64Data] = dataUri.split(',')`: the text before the
      first comma, and the text between the first and the second comma
      (`None` when there is no comma at all). */
  function SplitHeader(dataUri: string): (r: (string, Option<string>))
    ensures ',' !in r.0 && StartsWith(dataUri, r.0)
    ensures r.1.None? <==> ',' !in dataUri
    ensures r.1.Some? ==> ',' !in r.1.value && dataUri[|r.0|] == ',' && StartsWith(dataUri[|r.0| + 1..], r.1.value)
  {
    match IndexOf(dataUri, ',', 0)
    case None => (dataUri, None)
    case Some(k) =>
      var rest := dataUri[k + 1..];
      var payload := match IndexOf(rest, ',', 0)
        case None => rest
        case Some(j) => rest[..j];
      (dataUri[..k], Some(payload))
  }

  /** The longest prefix of `s` without a semicolon: `[^;]+` run to its end. */
  function UpToSemicolon(s: string): (r: string)
    ensures StartsWith(s, r) && ';' !in r
    ensures |r| == |s| || s[|r|] == ';'
  {
    match IndexOf(s, ';', 0)
    case None => s
    case Some(k) => s[..k]
  }

  /** `header.match(/data:([^;]+)/)?.[1]`: the capture of the leftmost match. */
  function MatchMime(header: string): Option<string>
    decreases |header|
  {
    if |header| > 5 && header[..5] == "data:" && header[5] != ';' then Some(UpToSemicolon(header[5..]))
    else if |header| == 0 then None
    else MatchMime(header[1..])
  }

  const DefaultMimeType: string := "application/octet-stream"

  function MimeTypeOf(header: string): string {
    match MatchMime(header)
    case Some(m) => m
    case None => DefaultMimeType
  }

  /** The MIME type is the text after `data:` up to the first `;`; a header in
      which `data:` is never followed by a non-`;` character gets the default. */
  lemma {:induction false} MimeTypeOfHeader(header: string)
    ensures StartsWith(header, "data:") && |header| > 5 && header[5] != ';' ==>
      MimeTypeOf(header) == UpToSemicolon(header[5..]) && |MimeTypeOf(header)| > 0
    ensures !Contains(header, "data:") ==> MimeTypeOf(header) == DefaultMimeType
    decreases |header|
  {
    if |header| > 0 && !Contains(header, "data:") {
      assert !Contains(header[1..], "data:");
      MimeTypeOfHeader(header[1..]);
      assert MatchMime(header) == MatchMime(header[1..]);
    }
  }

  /** `bytes[i] = binaryString.charCodeAt(i)` on a `Uint8Array`, which keeps the
      code modulo 256. */
  function CharCodesToBytes(binary: string): (r: seq<byte>)
    ensures |r| == |binary|
  {
    seq(|binary|, i requires 0 <= i < |binary| => (binary[i] as int % 256) as byte)
  }

  /** The manual conversion: `None` from `atob` stands for the exception it
      throws on input that is not base64 (RFC 4648 section 4). */
  function ManualDataUriToBlob(dataUri: string, atob: string -> Option<string>): Result<Blob> {
    var (header, payload) := SplitHeader(dataUri);
    if header == "" || payload.None? || payload.value == "" then Err("Invalid data URI format")
    else match atob(payload.value)
      case None => Err("The string to be decoded is not correctly encoded.")
      case Some(binary) => Ok(Blob(CharCodesToBytes(binary), MimeTypeOf(header)))
  }

  /** The manual decoder fails exactly when the header or the payload is missing
      or the payload does not decode; otherwise the blob's bytes are the char
      codes of the decoded string, one per character, and its type is the header's
      MIME type. */
  lemma ManualDataUriToBlobMeaning(dataUri: string, atob: string -> Option<string>)
    ensures var (header, payload) := SplitHeader(dataUri);
      ManualDataUriToBlob(dataUri, atob).Ok? <==>
        header != "" && payload.Some? && payload.value != "" && atob(payload.value).Some?
    ensures var (header, payload) := SplitHeader(dataUri);
      ManualDataUriToBlob(dataUri, atob).Ok? ==>
        var blob := ManualDataUriToBlob(dataUri, atob).value;
        var binary := atob(payload.value).value;
        && blob.mimeType == MimeTypeOf(header)
        && |blob.bytes| == |binary|
        && forall i :: 0 <= i < |binary| ==> blob.bytes[i] as int == binary[i] as int % 256
  {
  }

  /** The `for` loop of the manual fallback, filling a `Uint8Array`. */
  method DecodeDataUri(dataUri: string, atob: string -> Option<string>) returns (r: Result<Blob>)
    ensures r == ManualDataUriToBlob(dataUri, atob)
  {
    var (header, payload) := SplitHeader(dataUri);
    if header == "" || payload.None? || payload.value == "" {
      return Err("Invalid data URI format");
    }
    var mimeType := MimeTypeOf(header);
    var decoded := atob(payload.value);
    if decoded.None? {
      return Err("The string to be decoded is not correctly encoded.");
    }
    var binary := decoded.value;
    var bytes := new byte[|binary|];
    for i := 0 to |binary|
      invariant bytes[..i] == CharCodesToBytes(binary)[..i]
    {
      bytes[i] := (binary[i] as int % 256) as byte;
    }
    assert bytes[..] == bytes[..|binary|] == CharCodesToBytes(binary);
    return Ok(Blob(bytes[..], mimeType));
  }

  /** `dataUriToBlob`: `fetched` is what `fetch(dataUri)` then `response.blob()`
      yields; only when it fails is the manual conversion tried. */
  function DataUriToBlob(dataUri: string, fetched: Result<Blob>, atob: string -> Option<string>): Result<Blob> {
    if fetched.Ok? then fetched
    else match ManualDataUriToBlob(dataUri, atob)
      case Ok(blob) => Ok(blob)
      case Err(_) => Err("Both fetch and manual conversion failed: " + fetched.message)
  }

  /** The conversion at the head of `storeImage`. */
  function ToBlob(data: ImageData, fetched: Result<Blob>, atob: string -> Option<string>): Result<Blob> {
    match data
    case BinaryData(blob) => Ok(blob)
    case TextData(text) =>
      if StartsWith(text, "data:") then
        match DataUriToBlob(text, fetched, atob)
        case Ok(blob) => Ok(blob)
        case Err(m) => Err("Failed to convert data URI to blob: " + m)
      else if StartsWith(text, "blob:") then fetched
      else Err("Unsupported data format")
  }

  /** A string that is neither a `data:` nor a `blob:` URL is refused with
      `Unsupported data format`; a File or Blob is stored as it is. */
  lemma ToBlobFormats(data: ImageData, fetched: Result<Blob>, atob: string -> Option<string>)
    ensures data.TextData? && !StartsWith(data.text, "data:") && !StartsWith(data.text, "blob:") ==>
      ToBlob(data, fetched, atob) == Err("Unsupported data format")
    ensures data.BinaryData? ==> ToBlob(data, fetched, atob) == Ok(data.blob)
    ensures data.TextData? && StartsWith(data.text, "data:") && fetched.Ok? ==>
      ToBlob(data, fetched, atob) == fetched
  {
  }

  // ---------------------------------------------------------------------------
  // The service
  // ---------------------------------------------------------------------------

  class ImageStorageService {
    /** Whether `indexedDB.open` succeeds in this browser. */
    const canOpenDatabase: bool
    /** `db !== null` */
    var dbOpen: bool
    /** The `images` object store, keyed by the record's `id`. */
    var table: map<string, StoredImage>
    var activeBlobUrls: set<string>

    ghost predicate Valid()
      reads this
    {
      && (dbOpen ==> canOpenDatabase)
      && (forall id :: id in table ==> table[id].id == id)
      && (forall url :: url in activeBlobUrls ==> StartsWith(url, "blob:"))
    }

    /** The singleton at module load, over the records an earlier session left. */
    constructor (canOpenDatabase: bool, persisted: map<string, Blob>)
      ensures Valid()
      ensures this.canOpenDatabase == canOpenDatabase && !dbOpen
      ensures table.Keys == persisted.Keys
      ensures forall id :: id in persisted ==> table[id] == StoredImage(id, persisted[id])
      ensures activeBlobUrls == {}
    {
      this.canOpenDatabase := canOpenDatabase;
      dbOpen := false;
      table := map id | id in persisted :: StoredImage(id, persisted[id]);
      activeBlobUrls := {};
    }

    method Init() returns (r: Outcome)
      requires Valid()
      modifies this`dbOpen
      ensures Valid()
      ensures dbOpen == (old(dbOpen) || canOpenDatabase)
      ensures r == if canOpenDatabase then Pass else Fail(OpenFailure)
    {
      if canOpenDatabase {
        dbOpen := true;
        return Pass;
      }
      return Fail(OpenFailure);
    }

    /** Opens the database on first use. (Its second test, `Failed to initialize
        IndexedDB`, cannot fire: a successful `init` always sets `db`.) */
    method EnsureDb() returns (r: Outcome)
      requires Valid()
      modifies this`dbOpen
      ensures Valid()
      ensures r == if canOpenDatabase then Pass else Fail(OpenFailure)
      ensures r.Pass? ==> dbOpen
    {
      if !dbOpen {
        r := Init();
        if r.Fail? {
          return;
        }
      }
      return Pass;
    }

    method StoreImage(id: string, data: ImageData, fetched: Result<Blob>, atob: string -> Option<string>)
      returns (r: Outcome)
      requires Valid()
      modifies this`dbOpen, this`table
      ensures Valid()
      ensures !canOpenDatabase ==> r == Fail(OpenFailure)
      ensures canOpenDatabase ==>
        r == match ToBlob(data, fetched, atob) case Ok(_) => Pass case Err(m) => Fail(m)
      ensures r.Pass? ==> table == old(table)[id := StoredImage(id, ToBlob(data, fetched, atob).value)]
      ensures r.Fail? ==> table == old(table)
    {
      r := EnsureDb();
      if r.Fail? {
        return;
      }
      var blob: Blob;
      match data {
        case BinaryData(b) =>
          blob := b;
        case TextData(text) =>
          if StartsWith(text, "data:") {
            var converted: Result<Blob>;
            if fetched.Ok? {
              converted := fetched;
            } else {
              var manual := DecodeDataUri(text, atob);
              converted := if manual.Ok? then manual
                           else Err("Both fetch and manual conversion failed: " + fetched.message);
            }
            if converted.Err? {
              return Fail("Failed to convert data URI to blob: " + converted.message);
            }
            blob := converted.value;
          } else if StartsWith(text, "blob:") {
            if fetched.Err? {
              return Fail(fetched.message);
            }
            blob := fetched.value;
          } else {
            return Fail("Unsupported data format");
          }
      }
      table := table[id := StoredImage(id, blob)];
      return Pass;
    }

    method GetImage(id: string) returns (r: Result<Option<StoredImage>>)
      requires Valid()
      modifies this`dbOpen
      ensures Valid()
      ensures r == if !canOpenDatabase then Err(OpenFailure)
                   else if id in table then Ok(Some(table[id])) else Ok(None)
    {
      var ready := EnsureDb();
      if ready.Fail? {
        return Err(ready.message);
      }
      if id in table {
        return Ok(Some(table[id]));
      }
      return Ok(None);
    }

    /** `objectUrl` is the fresh URL `URL.createObjectURL` hands out. */
    method GetImageUrl(id: string, objectUrl: string) returns (r: Result<Option<string>>)
      requires Valid() && StartsWith(objectUrl, "blob:")
      modifies this`dbOpen, this`activeBlobUrls
      ensures Valid()
      ensures r == if !canOpenDatabase then Err(OpenFailure)
                   else if id in table then Ok(Some(objectUrl)) else Ok(None)
      ensures activeBlobUrls == if r == Ok(Some(objectUrl)) then old(activeBlobUrls) + {objectUrl}
                                else old(activeBlobUrls)
    {
      var stored := GetImage(id);
      if stored.Err? {
        return Err(stored.message);
      }
      if stored.value.None? {
        return Ok(None);
      }
      activeBlobUrls := activeBlobUrls + {objectUrl};
      return Ok(Some(objectUrl));
    }

    method DeleteImage(id: string) returns (r: Outcome)
      requires Valid()
      modifies this`dbOpen, this`table
      ensures Valid()
      ensures r == if canOpenDatabase then Pass else Fail(OpenFailure)
      ensures table == if r.Pass? then old(table) - {id} else old(table)
    {
      r := EnsureDb();
      if r.Pass? {
        table := table - {id};
      }
    }

    /** The records of the store; their order (key order) is not modelled. */
    method GetAllImages() returns (r: Result<set<StoredImage>>)
      requires Valid()
      modifies this`dbOpen
      ensures Valid()
      ensures r == if canOpenDatabase then Ok(table.Values) else Err(OpenFailure)
    {
      var ready := EnsureDb();
      if ready.Fail? {
        return Err(ready.message);
      }
      return Ok(table.Values);
    }

    method ClearAllImages() returns (r: Outcome)
      requires Valid()
      modifies this`dbOpen, this`table
      ensures Valid()
      ensures r == if canOpenDatabase then Pass else Fail(OpenFailure)
      ensures table == if r.Pass? then map[] else old(table)
    {
      r := EnsureDb();
      if r.Pass? {
        table := map[];
      }
    }

    method RevokeImageUrl(url: string)
      requires Valid()
      modifies this`activeBlobUrls
      ensures Valid()
      ensures activeBlobUrls == if StartsWith(url, "blob:") then old(activeBlobUrls) - {url}
                                else old(activeBlobUrls)
    {
      if StartsWith(url, "blob:") {
        activeBlobUrls := activeBlobUrls - {url};
      }
    }

    method RevokeAllActiveUrls()
      requires Valid()
      modifies this`activeBlobUrls
      ensures Valid() && activeBlobUrls == {}
    {
      activeBlobUrls := {};
    }

    /** The number of live object URLs; zero exactly when none is live. */
    function GetActiveUrlCount(): (n: nat)
      reads this
      ensures n == 0 <==> activeBlobUrls == {}
    {
      |activeBlobUrls|
    }
  }

  /** What the store guarantees across calls: a stored image is read back, other
      ids are untouched, a deleted image reads as absent, a cleared store lists no
      images, and revoking every URL leaves a count of zero. */
  method StoreThenRead(storage: ImageStorageService, id: string, other: string, blob: Blob, objectUrl: string)
    requires storage.Valid() && storage.canOpenDatabase && id != other && StartsWith(objectUrl, "blob:")
    modifies storage
  {
    var before := storage.GetImage(other);
    var stored := storage.StoreImage(id, BinaryData(blob), Err("unused"), _ => None);
    assert stored == Pass;
    var image := storage.GetImage(id);
    assert image == Ok(Some(StoredImage(id, blob)));
    var after := storage.GetImage(other);
    assert after == before;
    var url := storage.GetImageUrl(id, objectUrl);
    assert url == Ok(Some(objectUrl)) && objectUrl in storage.activeBlobUrls;
    var deleted := storage.DeleteImage(id);
    image := storage.GetImage(id);
    assert image == Ok(None);
    var cleared := storage.ClearAllImages();
    var all := storage.GetAllImages();
    assert storage.table == map[];
    assert storage.table.Values == {} by {
      forall v | v in storage.table.Values ensures false {
        assert false;
      }
    }
    assert all == Ok({});
    storage.RevokeAllActiveUrls();
    assert storage.GetActiveUrlCount() == 0;
  }
}
