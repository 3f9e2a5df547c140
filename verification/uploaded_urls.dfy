/** The uploaded-file records of src/contexts/UploadedUrlsContext.tsx, shared by
    the NFT wizard and the metadata builder. */
module UploadedUrls {

  import opened Wrappers

  datatype FileType = Icon | Banner | Background

  datatype UploadedUrl = UploadedUrl(url: string, fileType: FileType)

  /** `uploadedUrls.find(u => u.fileType === t)?.url`: the URL of the first
      record of that type. */
  function FirstUrlOfType(uploaded: seq<UploadedUrl>, t: FileType): (r: Option<string>)
    ensures r.None? <==> forall u :: u in uploaded ==> u.fileType != t
    ensures r.Some? ==>
      exists i :: 0 <= i < |uploaded| && uploaded[i] == UploadedUrl(r.value, t)
                  && (forall j :: 0 <= j < i ==> uploaded[j].fileType != t)
  {
    if uploaded == [] then None
    else if uploaded[0].fileType == t then Some(uploaded[0].url)
    else
      assert forall u :: u in uploaded <==> u == uploaded[0] || u in uploaded[1..];
      assert forall i :: 0 <= i < |uploaded[1..]| ==> uploaded[1..][i] == uploaded[i + 1];
      FirstUrlOfType(uploaded[1..], t)
  }

  /** `uploadedUrls.some(u => u.fileType === t)`. */
  predicate AnyOfType(uploaded: seq<UploadedUrl>, t: FileType) {
    exists u :: u in uploaded && u.fileType == t
  }

  lemma AnyOfTypeIffFound(uploaded: seq<UploadedUrl>, t: FileType)
    ensures AnyOfType(uploaded, t) <==> FirstUrlOfType(uploaded, t).Some?
  {
  }
}
