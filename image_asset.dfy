/**
 * Asset-name composition for image enums (`ImageAsset`, `AssetFolder`,
 * `NoFolder`) and the lookup of an image in the asset catalogue.
 *
 * An image enum case is described by the folder its enum type names and
 * the case's raw string. The catalogue is an abstract map from asset names
 * to images, standing in for the platform's named-image lookup.
 */
module ImageAssets {
  import opened Wrappers

  /** An image as held by the catalogue; `EmptyImage` is the placeholder `UIImage()`. */
  datatype Image = Image(width: nat, height: nat, pixels: seq<bv8>)

  const EmptyImage: Image := Image(0, 0, [])

  /** A folder of the asset catalogue, known by its name ("" for the root). */
  datatype AssetFolder = AssetFolder(folderName: string)

  /** The folder used when an image enum names none: the catalogue's root. */
  const NoFolder: AssetFolder := AssetFolder("")

  /** One case of an image enum: its enum type's folder and its raw value. */
  datatype ImageAsset = ImageAsset(folder: AssetFolder, rawValue: string)

  /** Whether the missing-asset branch is compiled with `DEBUG` set. */
  datatype BuildConfiguration = Debug | Release

  /** The fatal error a debug build stops with when an asset is missing. */
  datatype FatalError = FatalError(message: string)

  /**
   * The folder path prefix: empty for a folder with an empty name, otherwise
   * the folder name followed by exactly one slash.
   */
  function FolderPrefix(folder: AssetFolder): (prefix: string)
    ensures prefix == [] <==> folder.folderName == []
    ensures prefix != [] ==>
      |prefix| == |folder.folderName| + 1 &&
      prefix[..|folder.folderName|] == folder.folderName &&
      prefix[|folder.folderName|] == '/'
  {
    if folder.folderName == [] then "" else folder.folderName + "/"
  }

  /** The full catalogue name of an image enum case: folder prefix, then raw value. */
  function AssetName(asset: ImageAsset): (name: string)
    ensures |name| == |FolderPrefix(asset.folder)| + |asset.rawValue|
    ensures FolderPrefix(asset.folder) <= name
    ensures name[|FolderPrefix(asset.folder)|..] == asset.rawValue
  {
    FolderPrefix(asset.folder) + asset.rawValue
  }

  /** Removes `prefix` from the front of `s`, or reports that `s` does not start with it. */
  function StripPrefix(prefix: string, s: string): (r: Option<string>)
    ensures r.Some? <==> prefix <= s
    ensures r.Some? ==> prefix + r.value == s
  {
    if prefix <= s then Some(s[|prefix|..]) else None
  }

  /**
   * The fallback for a name the catalogue does not hold: a debug build stops
   * with a fatal error naming the asset, a release build returns the empty
   * placeholder image.
   */
  function DefaultImage(badName: string, build: BuildConfiguration): (r: Result<Image, FatalError>)
    ensures build == Release <==> r.Success?
    ensures r.Success? ==> r.value == EmptyImage
    ensures r.Failure? ==> r.error.message == "No such image asset named " + badName + "."
  {
    match build
    case Debug => Failure(FatalError("No such image asset named " + badName + "."))
    case Release => Success(EmptyImage)
  }

  /** The image of an enum case: the catalogue's entry for its asset name, else the fallback. */
  function ImageOf(asset: ImageAsset, catalogue: map<string, Image>, build: BuildConfiguration)
    : (r: Result<Image, FatalError>)
    ensures AssetName(asset) in catalogue ==> r == Success(catalogue[AssetName(asset)])
    ensures AssetName(asset) !in catalogue ==> r == DefaultImage(AssetName(asset), build)
  {
    var name := AssetName(asset);
    if name in catalogue then Success(catalogue[name]) else DefaultImage(name, build)
  }

  /**
   * The asset name as the parallel `LazyImageAsset` protocol composes it: the raw
   * value alone for an empty folder name, otherwise folder name, slash, raw value.
   * An independent reference for `AssetName`.
   */
  function LazyImageAssetName(folderName: string, rawValue: string): (name: string)
    ensures folderName == [] ==> name == rawValue
    ensures folderName != [] ==>
      |name| == |folderName| + 1 + |rawValue| && name[|folderName|] == '/'
  {
    if folderName == [] then rawValue else folderName + "/" + rawValue
  }

  /** The asset names of every case of an enum whose cases all live in `folder`. */
  function AllAssetNames(folder: AssetFolder, rawValues: seq<string>): seq<string>
  {
    seq(|rawValues|, i requires 0 <= i < |rawValues| => AssetName(ImageAsset(folder, rawValues[i])))
  }

  /** No two positions of `s` hold the same element. */
  predicate Distinct<T(==)>(s: seq<T>) {
    forall i, j :: 0 <= i < j < |s| ==> s[i] != s[j]
  }

  /** `s` contains no slash. */
  predicate SlashFree(s: string) {
    forall i :: 0 <= i < |s| ==> s[i] != '/'
  }

  /** The index of the first slash in `s`, if any. */
  function FirstSlash(s: string): (r: Option<nat>)
    ensures r.None? <==> SlashFree(s)
    ensures r.Some? ==> r.value < |s| && s[r.value] == '/' && SlashFree(s[..r.value])
  {
    if s == [] then None
    else if s[0] == '/' then Some(0)
    else match FirstSlash(s[1..])
      case None => None
      case Some(k) =>
        assert s[..k + 1] == [s[0]] + s[1..][..k];
        Some(k + 1)
  }

  /**
   * Reads an asset name back as a folder and a raw value, splitting it at its
   * first slash; a name without a slash, or whose first slash leads, belongs
   * to the catalogue's root.
   */
  function SplitAssetName(name: string): (asset: ImageAsset)
    ensures AssetName(asset) == name
  {
    match FirstSlash(name)
    case None => ImageAsset(NoFolder, name)
    case Some(k) =>
      if k == 0 then ImageAsset(NoFolder, name) else
      assert name == name[..k] + "/" + name[k + 1..];
      ImageAsset(AssetFolder(name[..k]), name[k + 1..])
  }

  // ---------------------------------------------------------------------
  // Properties of the composition
  // ---------------------------------------------------------------------

  /** Stripping the folder prefix from the asset name gives back the raw value. */
  lemma AssetNameRoundTrip(asset: ImageAsset)
    ensures StripPrefix(FolderPrefix(asset.folder), AssetName(asset)) == Some(asset.rawValue)
  {
  }

  /** Under `NoFolder` the asset name is the raw value itself. */
  lemma NoFolderAssetNameIsRawValue(rawValue: string)
    ensures FolderPrefix(NoFolder) == ""
    ensures AssetName(ImageAsset(NoFolder, rawValue)) == rawValue
  {
  }

  /** Within one folder, distinct raw values give distinct asset names. */
  lemma {:induction false} AssetNameInjectiveInFolder(folder: AssetFolder, raw1: string, raw2: string)
    requires AssetName(ImageAsset(folder, raw1)) == AssetName(ImageAsset(folder, raw2))
    ensures raw1 == raw2
  {
    var p := FolderPrefix(folder);
    calc {
      raw1;
      AssetName(ImageAsset(folder, raw1))[|p|..];
      AssetName(ImageAsset(folder, raw2))[|p|..];
      raw2;
    }
  }

  /** The cases of an enum (distinct raw values, as Swift requires) have pairwise distinct asset names. */
  lemma AllAssetNamesDistinct(folder: AssetFolder, rawValues: seq<string>)
    requires Distinct(rawValues)
    ensures Distinct(AllAssetNames(folder, rawValues))
  {
    var names := AllAssetNames(folder, rawValues);
    forall i, j | 0 <= i < j < |names| ensures names[i] != names[j] {
      if names[i] == names[j] {
        AssetNameInjectiveInFolder(folder, rawValues[i], rawValues[j]);
      }
    }
  }

  /** The composition agrees with the parallel `LazyImageAsset` formula for every folder and raw value. */
  lemma AssetNameAgreesWithLazyImageAsset(asset: ImageAsset)
    ensures AssetName(asset) == LazyImageAssetName(asset.folder.folderName, asset.rawValue)
  {
    if asset.folder.folderName != [] {
      assert asset.folder.folderName + "/" + asset.rawValue
          == (asset.folder.folderName + "/") + asset.rawValue;
    }
  }

  /** A slash preceded only by non-slashes is the first slash. */
  lemma {:induction false} FirstSlashIsUnique(s: string, k: nat)
    requires k < |s| && s[k] == '/' && SlashFree(s[..k])
    ensures FirstSlash(s) == Some(k)
  {
    if k > 0 {
      assert s[0] == s[..k][0];
      assert s[1..][..k - 1] == s[..k][1..];
      FirstSlashIsUnique(s[1..], k - 1);
    }
  }

  /** A slash-free folder name and raw value are recovered from their asset name. */
  lemma SplitAssetNameRoundTrip(asset: ImageAsset)
    requires SlashFree(asset.folder.folderName) && SlashFree(asset.rawValue)
    ensures SplitAssetName(AssetName(asset)) == asset
  {
    var folderName, name := asset.folder.folderName, AssetName(asset);
    if folderName != [] {
      assert name[..|folderName|] == folderName;
      FirstSlashIsUnique(name, |folderName|);
    }
  }

  /**
   * When neither folder names nor raw values contain a slash, the asset name
   * determines both the folder and the raw value.
   */
  lemma AssetNameDeterminesFolder(a: ImageAsset, b: ImageAsset)
    requires SlashFree(a.folder.folderName) && SlashFree(a.rawValue)
    requires SlashFree(b.folder.folderName) && SlashFree(b.rawValue)
    requires AssetName(a) == AssetName(b)
    ensures a == b
  {
    SplitAssetNameRoundTrip(a);
    SplitAssetNameRoundTrip(b);
  }

  /** Without the slash-free condition two folders can share an asset name. */
  lemma NestedFoldersCanCollide()
    ensures AssetName(ImageAsset(AssetFolder("a"), "b/c")) == AssetName(ImageAsset(AssetFolder("a/b"), "c"))
  {
  }

  // ---------------------------------------------------------------------
  // Properties of the lookup
  // ---------------------------------------------------------------------

  /** A release build never stops: the image is the catalogue entry, or the placeholder when there is none. */
  lemma ReleaseImageIsEntryOrPlaceholder(asset: ImageAsset, catalogue: map<string, Image>)
    ensures ImageOf(asset, catalogue, Release).Success?
    ensures ImageOf(asset, catalogue, Release).value
         == if AssetName(asset) in catalogue then catalogue[AssetName(asset)] else EmptyImage
  {
  }

  /** A debug build stops exactly when the catalogue holds no entry under the asset name, and says which. */
  lemma DebugFailsIffMissing(asset: ImageAsset, catalogue: map<string, Image>)
    ensures ImageOf(asset, catalogue, Debug).Failure? <==> AssetName(asset) !in catalogue
    ensures ImageOf(asset, catalogue, Debug).Failure? ==>
      ImageOf(asset, catalogue, Debug).error.message
        == "No such image asset named " + AssetName(asset) + "."
  {
  }

  /** Both builds agree whenever the asset exists. */
  lemma BuildsAgreeOnPresentAssets(asset: ImageAsset, catalogue: map<string, Image>)
    requires AssetName(asset) in catalogue
    ensures ImageOf(asset, catalogue, Debug) == ImageOf(asset, catalogue, Release)
  {
  }
}
