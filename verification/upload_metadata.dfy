/** `generateMetadata` of src/components/nft/UploadMetadata.tsx: the CHIP-0007
    (Chia off-chain NFT metadata) object for a theme collection. */
module UploadMetadata {

  import opened Wrappers
  import opened Text
  import opened ThemeModel
  import opened UploadedUrls
  import opened CollectionInfoState

  datatype Attribute = Attribute(traitType: string, value: string)

  /** The `type` of a collection attribute, listed in the order they are emitted. */
  datatype CollectionAttrType = DescriptionAttr | TwitterAttr | SponsorAttr | WebsiteAttr | IconAttr | BannerAttr

  function TypeName(t: CollectionAttrType): string {
    match t
    case DescriptionAttr => "description"
    case TwitterAttr => "twitter"
    case SponsorAttr => "sponsor"
    case WebsiteAttr => "website"
    case IconAttr => "icon"
    case BannerAttr => "banner"
  }

  function Rank(t: CollectionAttrType): nat {
    match t
    case DescriptionAttr => 0
    case TwitterAttr => 1
    case SponsorAttr => 2
    case WebsiteAttr => 3
    case IconAttr => 4
    case BannerAttr => 5
  }

  datatype CollectionAttribute = CollectionAttribute(attrType: CollectionAttrType, value: string)

  datatype Collection = Collection(id: string, name: string, attributes: seq<CollectionAttribute>)

  datatype Metadata = Metadata(
    format: string,
    name: string,
    description: string,
    attributes: seq<Attribute>,
    collection: Collection,
    theme: Theme)

  const Chip0007: string := "CHIP-0007"

  /** A JS string is truthy when it is present and not empty. */
  predicate Truthy(s: Option<string>) {
    s.Some? && s.value != ""
  }

  function IfTruthy<T>(s: Option<string>, item: T): seq<T> {
    if Truthy(s) then [item] else []
  }

  /** The `Background` trait: an animated GIF when the current theme's image name
      ends in `.gif`, whatever its case. */
  function BackgroundKind(currentTheme: Theme): string {
    if currentTheme.backgroundImage.Some? && EndsWith(ToLower(currentTheme.backgroundImage.value), ".gif")
    then "Animated GIF" else "Image"
  }

  /** The value each collection attribute type would carry. */
  function AttrSource(t: CollectionAttrType, info: CollectionInfo, uploaded: seq<UploadedUrl>): Option<string> {
    match t
    case DescriptionAttr => Some(info.description)
    case TwitterAttr => Some(info.twitterHandle)
    case SponsorAttr => Some(info.sponsor)
    case WebsiteAttr => Some(info.website)
    case IconAttr => FirstUrlOfType(uploaded, Icon)
    case BannerAttr => FirstUrlOfType(uploaded, Banner)
  }

  /** The conditional spreads, in the order given: a type whose value is truthy
      contributes one attribute carrying that value. */
  function OptionalAttributes(sources: seq<(CollectionAttrType, Option<string>)>): (r: seq<CollectionAttribute>)
    ensures forall x :: x in r ==> (x.attrType, Some(x.value)) in sources && x.value != ""
  {
    if sources == [] then []
    else
      var rest := OptionalAttributes(sources[1..]);
      assert forall p :: p in sources[1..] ==> p in sources;
      (if Truthy(sources[0].1) then [CollectionAttribute(sources[0].0, sources[0].1.value)] else []) + rest
  }

  function CollectionAttributes(info: CollectionInfo, uploaded: seq<UploadedUrl>): seq<CollectionAttribute> {
    [CollectionAttribute(DescriptionAttr, info.description)] + OptionalAttributes(CollectionSources(info, uploaded))
  }

  ghost predicate RanksIncrease(attrs: seq<CollectionAttribute>) {
    forall i, j :: 0 <= i < j < |attrs| ==> Rank(attrs[i].attrType) < Rank(attrs[j].attrType)
  }

  ghost predicate SourceRanksIncrease(sources: seq<(CollectionAttrType, Option<string>)>) {
    forall i, j :: 0 <= i < j < |sources| ==> Rank(sources[i].0) < Rank(sources[j].0)
  }

  predicate HasType(attrs: seq<CollectionAttribute>, t: CollectionAttrType) {
    exists x :: x in attrs && x.attrType == t
  }

  /** Every attribute built from the later sources outranks the first source. */
  lemma LaterAttributesOutrank(sources: seq<(CollectionAttrType, Option<string>)>)
    requires sources != [] && SourceRanksIncrease(sources)
    ensures forall x :: x in OptionalAttributes(sources[1..]) ==> Rank(sources[0].0) < Rank(x.attrType)
  {
    forall x | x in OptionalAttributes(sources[1..]) ensures Rank(sources[0].0) < Rank(x.attrType) {
      var m :| 0 <= m < |sources[1..]| && sources[1..][m] == (x.attrType, Some(x.value));
      assert sources[m + 1].0 == x.attrType;
    }
  }

  /** An attribute that outranks nothing after it may lead an ordered list. */
  lemma ConsKeepsRanksIncreasing(h: CollectionAttribute, rest: seq<CollectionAttribute>)
    requires RanksIncrease(rest)
    requires forall x :: x in rest ==> Rank(h.attrType) < Rank(x.attrType)
    ensures RanksIncrease([h] + rest)
  {
    var r := [h] + rest;
    forall i, j | 0 <= i < j < |r| ensures Rank(r[i].attrType) < Rank(r[j].attrType) {
      assert r[j] == rest[j - 1];
      if i == 0 {
        assert r[j] in rest;
      } else {
        assert r[i] == rest[i - 1];
      }
    }
  }

  lemma {:induction false} OptionalAttributesOrdered(sources: seq<(CollectionAttrType, Option<string>)>)
    requires SourceRanksIncrease(sources)
    ensures RanksIncrease(OptionalAttributes(sources))
  {
    if sources != [] {
      var r := OptionalAttributes(sources);
      var rest := OptionalAttributes(sources[1..]);
      OptionalAttributesOrdered(sources[1..]);
      LaterAttributesOutrank(sources);
      if Truthy(sources[0].1) {
        var h := CollectionAttribute(sources[0].0, sources[0].1.value);
        assert r == [h] + rest;
        ConsKeepsRanksIncreasing(h, rest);
      } else {
        assert r == rest;
      }
    }
  }

  lemma {:induction false} OptionalAttributesPresence(sources: seq<(CollectionAttrType, Option<string>)>, k: nat)
    requires SourceRanksIncrease(sources) && k < |sources|
    ensures HasType(OptionalAttributes(sources), sources[k].0) <==> Truthy(sources[k].1)
  {
    var r := OptionalAttributes(sources);
    var rest := OptionalAttributes(sources[1..]);
    var head := if Truthy(sources[0].1) then [CollectionAttribute(sources[0].0, sources[0].1.value)] else [];
    assert r == head + rest;
    var t := sources[k].0;
    if k == 0 {
      assert !HasType(rest, t) by {
        forall x | x in rest ensures x.attrType != t {
          var m :| 0 <= m < |sources[1..]| && sources[1..][m] == (x.attrType, Some(x.value));
          assert sources[m + 1].0 == x.attrType;
        }
      }
      if Truthy(sources[0].1) {
        assert head[0] in r;
      }
    } else {
      OptionalAttributesPresence(sources[1..], k - 1);
      assert sources[1..][k - 1] == sources[k];
      assert Rank(sources[0].0) < Rank(t);
    }
  }

  function CollectionSources(info: CollectionInfo, uploaded: seq<UploadedUrl>)
    : (sources: seq<(CollectionAttrType, Option<string>)>)
    ensures |sources| == 5
    ensures forall k :: 0 <= k < 5 ==> Rank(sources[k].0) == k + 1
    ensures forall k :: 0 <= k < 5 ==> sources[k].1 == AttrSource(sources[k].0, info, uploaded)
  {
    [(TwitterAttr, Some(info.twitterHandle)), (SponsorAttr, Some(info.sponsor)),
     (WebsiteAttr, Some(info.website)), (IconAttr, FirstUrlOfType(uploaded, Icon)),
     (BannerAttr, FirstUrlOfType(uploaded, Banner))]
  }

  /** The collection attributes open with the description and then come in
      the fixed order twitter, sponsor, website, icon, banner. */
  lemma CollectionAttributesOrdered(info: CollectionInfo, uploaded: seq<UploadedUrl>)
    ensures CollectionAttributes(info, uploaded)[0] == CollectionAttribute(DescriptionAttr, info.description)
    ensures RanksIncrease(CollectionAttributes(info, uploaded))
  {
    var sources := CollectionSources(info, uploaded);
    var rest := OptionalAttributes(sources);
    var d := CollectionAttribute(DescriptionAttr, info.description);
    OptionalAttributesOrdered(sources);
    forall x | x in rest ensures Rank(d.attrType) < Rank(x.attrType) {
      var k :| 0 <= k < |sources| && sources[k] == (x.attrType, Some(x.value));
    }
    ConsKeepsRanksIncreasing(d, rest);
  }

  /** Every collection attribute carries its own type's value. */
  lemma CollectionAttributesValues(info: CollectionInfo, uploaded: seq<UploadedUrl>)
    ensures forall x :: x in CollectionAttributes(info, uploaded) ==> Some(x.value) == AttrSource(x.attrType, info, uploaded)
  {
    var sources := CollectionSources(info, uploaded);
    var rest := OptionalAttributes(sources);
    forall x | x in CollectionAttributes(info, uploaded) ensures Some(x.value) == AttrSource(x.attrType, info, uploaded) {
      if x in rest {
        var k :| 0 <= k < |sources| && sources[k] == (x.attrType, Some(x.value));
      }
    }
  }

  /** An optional type is present exactly when its value is non-empty. */
  lemma CollectionAttributesPresence(info: CollectionInfo, uploaded: seq<UploadedUrl>, t: CollectionAttrType)
    requires t != DescriptionAttr
    ensures HasType(CollectionAttributes(info, uploaded), t) <==> Truthy(AttrSource(t, info, uploaded))
  {
    var sources := CollectionSources(info, uploaded);
    var attrs := CollectionAttributes(info, uploaded);
    var rest := OptionalAttributes(sources);
    assert attrs == [CollectionAttribute(DescriptionAttr, info.description)] + rest;
    var k := Rank(t) - 1;
    assert sources[k].0 == t;
    OptionalAttributesPresence(sources, k);
    assert HasType(attrs, t) <==> HasType(rest, t) by {
      if HasType(attrs, t) {
        var x :| x in attrs && x.attrType == t;
        assert x in rest;
      }
    }
  }

  /** The embedded theme: a copy of the working theme renamed to the collection
      name, pointing at the uploaded background when there is one. */
  function FinalTheme(working: Theme, collectionName: string, backgroundUrl: Option<string>): (r: Theme)
    ensures r.name == collectionName
    ensures Truthy(backgroundUrl) ==> r.backgroundImage == backgroundUrl
    ensures !Truthy(backgroundUrl) ==> r.backgroundImage == working.backgroundImage
    ensures r.(name := working.name, backgroundImage := working.backgroundImage) == working
  {
    var renamed := working.(name := collectionName);
    if Truthy(backgroundUrl) then renamed.(backgroundImage := backgroundUrl) else renamed
  }

  /** `generateMetadata`; `collectionId` is the `crypto.randomUUID()` it draws.
      Without a current theme it reports `No theme available` and builds nothing. */
  function GenerateMetadata(currentTheme: Option<Theme>, info: CollectionInfo, uploaded: seq<UploadedUrl>,
                            working: Theme, collectionId: string): (r: Result<Metadata>)
    ensures currentTheme.None? <==> r == Err("No theme available")
    ensures r.Ok? ==>
      && r.value.format == Chip0007
      && r.value.name == currentTheme.value.displayName
      && r.value.description == info.description
      && r.value.collection.id == collectionId
      && r.value.collection.name == currentTheme.value.displayName + " Theme"
      && r.value.theme == FinalTheme(working, info.collectionName, FirstUrlOfType(uploaded, Background))
  {
    match currentTheme
    case None => Err("No theme available")
    case Some(theme) =>
      var backgroundUrl := FirstUrlOfType(uploaded, Background);
      Ok(Metadata(
        Chip0007,
        theme.displayName,
        info.description,
        [Attribute("Theme", theme.displayName), Attribute("Author", info.author)]
          + IfTruthy(backgroundUrl, Attribute("Background", BackgroundKind(theme))),
        Collection(collectionId, theme.displayName + " Theme", CollectionAttributes(info, uploaded)),
        FinalTheme(working, info.collectionName, backgroundUrl)))
  }

  /** `Theme` then `Author`, then `Background` exactly when a background was uploaded,
      marked as an animated GIF exactly when the current theme's image is a `.gif`. */
  lemma NftAttributes(currentTheme: Theme, info: CollectionInfo, uploaded: seq<UploadedUrl>,
                      working: Theme, collectionId: string)
    ensures var attrs := GenerateMetadata(Some(currentTheme), info, uploaded, working, collectionId).value.attributes;
      && |attrs| >= 2
      && attrs[0] == Attribute("Theme", currentTheme.displayName)
      && attrs[1] == Attribute("Author", info.author)
      && (|attrs| == 3 <==> Truthy(FirstUrlOfType(uploaded, Background)))
      && |attrs| <= 3
      && (|attrs| == 3 ==>
            && attrs[2].traitType == "Background"
            && attrs[2].value ==
                 if currentTheme.backgroundImage.Some? && EndsWith(ToLower(currentTheme.backgroundImage.value), ".gif")
                 then "Animated GIF" else "Image")
  {
  }
}
