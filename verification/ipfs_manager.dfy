/** `IPFSManager`: the front of the IPFS upload services. It picks a provider
    service once, guards uploads behind the API key and names the gateway
    that serves uploaded content. The provider services themselves (HTTP
    uploads to Pinata and Filebase) are foreign and appear as parameters. */
module IpfsManager {
  import opened Wrappers
  import opened Text
  import opened ImageStorage

  /** The providers the manager can drive. */
  datatype Provider = Pinata | Filebase

  function ProviderName(p: Provider): string {
    match p
    case Pinata => "pinata"
    case Filebase => "filebase"
  }

  /** The provider configuration. A missing key or gateway is `None`. */
  datatype ProviderConfig = ProviderConfig(apiKey: Option<string>, gatewayUrl: Option<string>)

  /** JavaScript truthiness of an optional string: present and not empty. */
  predicate Truthy(s: Option<string>) {
    s.Some? && s.value != ""
  }

  /** The state a manager fixes in its constructor: its provider and its
      configuration (the service object is determined by the provider). */
  datatype Manager = Manager(provider: Provider, config: ProviderConfig)

  const UnsupportedProviderPrefix := "Unsupported IPFS provider: "

  /** The constructor with its `createService` dispatch: `pinata` and
      `filebase` get a service; any other name throws. */
  function NewManager(provider: string, config: ProviderConfig): (r: Result<Manager>)
    ensures r.Ok? <==> provider == "pinata" || provider == "filebase"
    ensures r.Ok? ==> ProviderName(r.value.provider) == provider && r.value.config == config
    ensures r.Err? ==> r.message == UnsupportedProviderPrefix + provider
  {
    if provider == "pinata" then Ok(Manager(Pinata, config))
    else if provider == "filebase" then Ok(Manager(Filebase, config))
    else Err(UnsupportedProviderPrefix + provider)
  }

  function GetProvider(m: Manager): (r: string)
    ensures r == "pinata" || r == "filebase"
  {
    ProviderName(m.provider)
  }

  /** `getProvider` hands back the name the manager was constructed with. */
  lemma GetProviderRoundTrip(provider: string, config: ProviderConfig)
    requires NewManager(provider, config).Ok?
    ensures GetProvider(NewManager(provider, config).value) == provider
  {
  }

  /** Distinct providers have distinct names, so the dispatch is one-to-one. */
  lemma ProviderNameInjective(p: Provider, q: Provider)
    ensures ProviderName(p) == ProviderName(q) <==> p == q
  {
    if p != q {
      assert ProviderName(p)[0] != ProviderName(q)[0];
    }
  }

  // ---------------------------------------------------------------------------
  // Files and uploads
  // ---------------------------------------------------------------------------

  /** What a file to upload holds: a data URL, a `File` object or a `Blob`. */
  datatype Content = DataUrl(url: string) | FileObject(file: File) | BlobObject(blob: Blob)

  datatype IpfsFile = IpfsFile(name: string, content: Content, mimeType: string)

  datatype UploadResult = UploadResult(success: bool, hash: Option<string>, url: Option<string>, error: Option<string>)

  /** The result every upload gets when no API key is configured. */
  const ApiKeyRequired := UploadResult(false, None, None, Some("API key is required"))

  /** `uploadFile`: without an API key the upload fails at once; with one it
      is the provider service's answer (`service`, with the upload options
      folded into it). */
  function UploadFile(m: Manager, file: IpfsFile, service: (Provider, ProviderConfig, IpfsFile) -> UploadResult): (r: UploadResult)
    ensures !Truthy(m.config.apiKey) ==> !r.success && r.error == Some("API key is required")
    ensures Truthy(m.config.apiKey) ==> r == service(m.provider, m.config, file)
  {
    if !Truthy(m.config.apiKey) then ApiKeyRequired
    else service(m.provider, m.config, file)
  }

  /** Without a key the service is never consulted: any two services give the
      same answer. */
  lemma UploadFileWithoutKeyIgnoresService(m: Manager, file: IpfsFile,
                                           s1: (Provider, ProviderConfig, IpfsFile) -> UploadResult,
                                           s2: (Provider, ProviderConfig, IpfsFile) -> UploadResult)
    requires !Truthy(m.config.apiKey)
    ensures UploadFile(m, file, s1) == UploadFile(m, file, s2)
  {
  }

  /** `uploadFiles`: without an API key, one failure per file; with one, the
      provider service's answer for the whole batch. */
  function UploadFiles(m: Manager, files: seq<IpfsFile>,
                       service: (Provider, ProviderConfig, seq<IpfsFile>) -> seq<UploadResult>): (r: seq<UploadResult>)
    ensures !Truthy(m.config.apiKey) ==> |r| == |files| && forall i :: 0 <= i < |r| ==> r[i] == ApiKeyRequired
    ensures Truthy(m.config.apiKey) ==> r == service(m.provider, m.config, files)
  {
    if !Truthy(m.config.apiKey) then seq(|files|, _ => ApiKeyRequired)
    else service(m.provider, m.config, files)
  }

  /** Without a key the batch upload answers each file exactly as the single
      upload would. */
  lemma UploadFilesAgreesWithUploadFile(m: Manager, files: seq<IpfsFile>,
                                        many: (Provider, ProviderConfig, seq<IpfsFile>) -> seq<UploadResult>,
                                        one: (Provider, ProviderConfig, IpfsFile) -> UploadResult)
    requires !Truthy(m.config.apiKey)
    ensures |UploadFiles(m, files, many)| == |files|
    ensures forall i :: 0 <= i < |files| ==> UploadFiles(m, files, many)[i] == UploadFile(m, files[i], one)
  {
  }

  // ---------------------------------------------------------------------------
  // Gateway
  // ---------------------------------------------------------------------------

  const HttpsScheme: string := "https://"
  const IpfsPath: string := "/ipfs/"

  /** The public gateway hosts: `https://gateway.pinata.cloud/ipfs/` and
      `https://gateway.filebase.io/ipfs/`. */
  function GatewayHost(p: Provider): string {
    match p
    case Pinata => "gateway.pinata.cloud"
    case Filebase => "gateway.filebase.io"
  }

  function DefaultGateway(p: Provider): string {
    HttpsScheme + GatewayHost(p) + IpfsPath
  }

  lemma AffixesOfConcat(prefix: string, middle: string, suffix: string)
    ensures StartsWith(prefix + middle + suffix, prefix)
    ensures EndsWith(prefix + middle + suffix, suffix)
  {
    var s := prefix + middle + suffix;
    assert s[..|prefix|] == prefix;
    assert s[|s| - |suffix|..] == suffix;
  }

  /** `getGatewayUrl`: the configured gateway when it is set and not empty,
      otherwise the provider's public gateway. (The source's `default` branch
      returning the empty string cannot be reached, since the constructor
      admits only the two providers.) */
  function GetGatewayUrl(m: Manager): (r: string)
    ensures Truthy(m.config.gatewayUrl) ==> r == m.config.gatewayUrl.value
    ensures !Truthy(m.config.gatewayUrl) ==> r == DefaultGateway(m.provider)
    ensures r != ""
  {
    if Truthy(m.config.gatewayUrl) then m.config.gatewayUrl.value else DefaultGateway(m.provider)
  }

  /** Without a configured gateway the URL is an HTTPS IPFS path prefix, ready
      for a content hash to be appended. */
  lemma DefaultGatewayIsHttpsIpfsPath(m: Manager)
    requires !Truthy(m.config.gatewayUrl)
    ensures StartsWith(GetGatewayUrl(m), "https://")
    ensures EndsWith(GetGatewayUrl(m), "/ipfs/")
  {
    AffixesOfConcat(HttpsScheme, GatewayHost(m.provider), IpfsPath);
  }

  // ---------------------------------------------------------------------------
  // File helpers
  // ---------------------------------------------------------------------------

  /** `createFileFromDataUrl`: the data URL becomes the content under the
      given name and type. */
  function CreateFileFromDataUrl(dataUrl: string, name: string, mimeType: string): (r: IpfsFile)
    ensures r.name == name && r.mimeType == mimeType
    ensures r.content.DataUrl? && r.content.url == dataUrl
  {
    IpfsFile(name, DataUrl(dataUrl), mimeType)
  }

  /** `createFileFromFile`: the file keeps its own name and type and is the
      content itself. */
  function CreateFileFromFile(file: File): (r: IpfsFile)
    ensures r.name == file.name && r.mimeType == file.blob.mimeType
    ensures r.content.FileObject? && r.content.file == file
  {
    IpfsFile(file.name, FileObject(file), file.blob.mimeType)
  }

  /** `createFileFromBlob`: the blob becomes the content under the given name
      and type, which need not be the blob's own. */
  function CreateFileFromBlob(blob: Blob, name: string, mimeType: string): (r: IpfsFile)
    ensures r.name == name && r.mimeType == mimeType
    ensures r.content.BlobObject? && r.content.blob == blob
  {
    IpfsFile(name, BlobObject(blob), mimeType)
  }

  /** A file built from a `File` and one built from that file's blob under
      the file's name and type differ only in the kind of their content. */
  lemma FileAndBlobHelpersAgree(file: File)
    ensures CreateFileFromFile(file).name == CreateFileFromBlob(file.blob, file.name, file.blob.mimeType).name
    ensures CreateFileFromFile(file).mimeType == CreateFileFromBlob(file.blob, file.name, file.blob.mimeType).mimeType
    ensures CreateFileFromFile(file) != CreateFileFromBlob(file.blob, file.name, file.blob.mimeType)
  {
  }
}
