# lazybones: asset names and the once-only layout hook

A Dafny model of two pieces of logic from the lazybones UIKit component library.

- **Image assets** (`ImageAssets`, in `image_asset.dfy`). An image enum case is a
  folder plus a raw string. Its catalogue name is the folder prefix followed by the
  raw value. The prefix is empty for a folder with an empty name (such as
  `NoFolder`), and is otherwise the folder name followed by one `/`. The image of a
  case is the catalogue's entry under that name. If the catalogue has no entry, a
  debug build stops with a fatal error naming the asset, and a release build
  returns an empty placeholder image. The model is pure functions over `string`,
  with the catalogue as a `map<string, Image>` and the build configuration as a
  parameter. An inverse, `SplitAssetName`, reads a name back at its first slash.
  The composition is also compared with the parallel `LazyImageAsset` protocol's
  formula (`LazyImageAssetName`), which is in
  `Sources/LazyBones/Asset Abstractions/LazyImageAsset.swift` at lines 36-39.
- **`LazyView`** (`LazyViews`, in `lazy_view.dfy`). This is a class with the private
  flag `didCompleteInitialLayout`. Each `LayoutSubviews` call first lets the
  superclass lay out. On the first pass only, it then runs the `DidLayoutSubviews`
  hook and sets the flag. A ghost trace records these events. The hook's event
  records the flag's value at the moment the hook runs. The pure function `Passes`
  gives the trace of n passes. The method is proved against `Passes`, and the lemmas
  about `Passes` prove the claims: the hook runs exactly once over n ≥ 1 passes,
  never over none, and always before the flag is set. The once-only claim assumes
  the hook does not itself lay the same view out again. The flag is set only after
  the hook returns, so a hook that re-lays out the view runs a second time;
  `RelayoutPass` and `LayoutSubviewsWithRelayoutInHook` prove this.

As in the source, the initialiser sets `translatesAutoresizingMaskIntoConstraints`
to the `usesAutolayout` argument unchanged. The naming suggests the opposite was
meant. The model keeps the source's behaviour.

`wrappers.dfy` holds the `Option` and `Result` types.

## Model

| member | source | states |
|---|---|---|
| `ImageAssets.FolderPrefix` | Sources/lazybones/Assets/ImageAsset.swift:70-72 | the prefix is empty exactly when the folder name is empty; otherwise it is the folder name followed by exactly one `/` |
| `ImageAssets.AssetName` | Sources/lazybones/Assets/ImageAsset.swift:62-64 | the asset name starts with the folder prefix, the rest is the raw value, and its length is the sum of the two |
| `ImageAssets.DefaultImage` | Sources/lazybones/Assets/ImageAsset.swift:86-92 | succeeds exactly in a release build, with the empty placeholder image; a debug build fails with "No such image asset named <name>." |
| `ImageAssets.ImageOf` | Sources/lazybones/Assets/ImageAsset.swift:55-57 | the catalogue entry under the asset name when there is one, else the missing-asset fallback for that name |
| `ImageAssets.FirstSlash` | Sources/lazybones/Assets/ImageAsset.swift:70-72 | splitting helper of `SplitAssetName`, which inverts the separator appended at these lines: it gives the first `/` of a name, with no slash before it, or reports that the name has none |
| `ImageAssets.SplitAssetName` | Sources/lazybones/Assets/ImageAsset.swift:62-72 | reads any name back as a folder and a raw value whose asset name is that name |
| `ImageAssets.AssetNameRoundTrip` | Sources/lazybones/Assets/ImageAsset.swift:62-64 | stripping the folder prefix from the front of the asset name gives back the raw value |
| `ImageAssets.NoFolderAssetNameIsRawValue` | Sources/lazybones/Assets/ImageAsset.swift:157-160 | `NoFolder` has the empty prefix, and its assets are named by their raw value alone |
| `ImageAssets.AssetNameInjectiveInFolder` | Sources/lazybones/Assets/ImageAsset.swift:62-64 | within one folder, equal asset names mean equal raw values |
| `ImageAssets.AllAssetNamesDistinct` | Sources/lazybones/Assets/ImageAsset.swift:20-20 | an enum whose raw values are distinct has pairwise distinct asset names |
| `ImageAssets.AssetNameAgreesWithLazyImageAsset` | Sources/lazybones/Assets/ImageAsset.swift:62-72 | the prefix-then-raw-value composition gives the same name as the parallel `LazyImageAsset` formula, modelled at `Sources/LazyBones/Asset Abstractions/LazyImageAsset.swift` lines 36-39 (`LazyImageAssetName`: the raw value alone for an empty folder name, else folder name, `/`, raw value), for every folder and raw value |
| `ImageAssets.FirstSlashIsUnique` | Sources/lazybones/Assets/ImageAsset.swift:70-72 | a slash preceded only by non-slashes is the first slash of the name |
| `ImageAssets.SplitAssetNameRoundTrip` | Sources/lazybones/Assets/ImageAsset.swift:62-72 | when folder name and raw value contain no slash, splitting the asset name gives back that folder and raw value |
| `ImageAssets.AssetNameDeterminesFolder` | Sources/lazybones/Assets/ImageAsset.swift:62-72 | when folder names and raw values contain no slash, two cases with the same asset name have the same folder and raw value |
| `ImageAssets.NestedFoldersCanCollide` | Sources/lazybones/Assets/ImageAsset.swift:62-72 | without that condition, folder "a" with raw value "b/c" and folder "a/b" with raw value "c" share the name "a/b/c" |
| `ImageAssets.ReleaseImageIsEntryOrPlaceholder` | Sources/lazybones/Assets/ImageAsset.swift:55-57 | a release build never fails: it returns the catalogue entry, or the empty placeholder when there is none |
| `ImageAssets.DebugFailsIffMissing` | Sources/lazybones/Assets/ImageAsset.swift:86-92 | a debug build fails exactly when the catalogue has no entry under the asset name, and the message names that asset |
| `ImageAssets.BuildsAgreeOnPresentAssets` | Sources/lazybones/Assets/ImageAsset.swift:55-57 | for an asset in the catalogue both builds return the same image |
| `LazyViews.Pass` | Sources/LazyBones/LazyView.swift:24-29 | a pass always starts with the superclass layout; it ends there exactly when the initial layout was complete, and otherwise the hook runs next and sees the flag unset |
| `LazyViews.HookRunsAppend` | Sources/LazyBones/LazyView.swift:27-27 | hook runs of two consecutive stretches of layout add up |
| `LazyViews.SuperLayoutsAppend` | Sources/LazyBones/LazyView.swift:25-25 | superclass layouts of two consecutive stretches of layout add up |
| `LazyViews.PassesRunHookOnce` | Sources/LazyBones/LazyView.swift:24-29 | over n passes of a fresh view the hook runs exactly once if n ≥ 1 and never if n = 0; once the flag is set, it never runs again |
| `LazyViews.PassesCallSuperEveryTime` | Sources/LazyBones/LazyView.swift:25-26 | every pass lets the superclass lay out, including those that return early |
| `LazyViews.PassesSplit` | Sources/LazyBones/LazyView.swift:26-28 | m passes followed by n more are m + n passes; after any pass the flag stays set |
| `LazyViews.HookSeesFlagUnset` | Sources/LazyBones/LazyView.swift:27-28 | whenever the hook runs, the flag is still false: the hook runs before the flag is set |
| `LazyViews.HookRunsInFirstPass` | Sources/LazyBones/LazyView.swift:25-27 | on a fresh view, the first superclass layout is followed at once by the hook |
| `LazyViews.LazyView.constructor` | Sources/LazyBones/LazyView.swift:10-17 | a new view has the zero frame, the given background colour (none by default), the autoresizing-mask flag equal to `usesAutolayout` (false by default) as written, the flag unset, and no layout history |
| `LazyViews.LazyView.DidLayoutSubviews` | Sources/LazyBones/LazyView.swift:33-33 | the default hook changes nothing but is recorded as having run |
| `LazyViews.LazyView.LayoutSubviews` | Sources/LazyBones/LazyView.swift:24-29 | appends one pass to the history, leaves the flag set (it never goes back to false), and keeps the view's history equal to its number of passes from a fresh view |
| `LazyViews.LazyView.LayoutSubviewsWithRelayoutInHook` | Sources/LazyBones/LazyView.swift:26-28 | for a subclass whose hook calls `layoutSubviews` once: the history gains `RelayoutPass` (a second superclass layout and a second hook run before the flag is set), the flag ends set, and two passes are counted on a fresh view |
| `LazyViews.RelayoutPassRunsHookTwice` | Sources/LazyBones/LazyView.swift:26-28 | a hook that re-lays out the view runs twice in the first pass, both times with the flag still unset |
| `LazyViews.ValidViewRanHookOnce` | Sources/LazyBones/LazyView.swift:7-29 | a view built and laid out through its methods has run the hook once if it has been laid out, never otherwise, and the flag is set exactly when the hook has run |

## Left out

- The DEBUG `fatalError` is a compile-time branch. It is modelled as a `BuildConfiguration` parameter, and the crash as a `Failure` result carrying the message.
- `UIImage(named:)` is a framework call. It is replaced by a lookup in an abstract catalogue map. Images are opaque values, and `EmptyImage` stands for `UIImage()`.
- Swift strings compare and count grapheme clusters. The model uses sequences of characters, so it does no Unicode normalisation.
- The `AssetFolder` protocol's static `folderName` is modelled as a folder value carrying its name. Associated types are not modelled; the `Folder` type defaults to `NoFolder` in the source.
- `LazyView`'s `init?(coder:)` is unavailable and crashes. It is not modelled.
- `super.layoutSubviews()` does UIKit's own layout. The model records only that it ran.
- A subclass's override of the hook is modelled in two forms: the default, which does nothing, and one that lays the view out once more (`LayoutSubviewsWithRelayoutInHook`). Other side effects of overrides are not modelled.
- LazyViews.LazyView.LayoutSubviews: the once-only claim assumes the hook does not lay the same view out again. The flag is set only after the hook returns (LazyView.swift:27-28), so a hook that does runs again (`RelayoutPassRunsHookTwice`), and one that always does recurses without end.
- The model puts the hook's only call site in `LayoutSubviews`. Someone calling `DidLayoutSubviews` directly does not keep `Valid()`: the extra run is recorded, but the once-only claim covers only runs that come from layout.
- Colours and frames are plain values. Drawing is not modelled.
- The pull-up drawer controller, its position and passthrough types, the keyboard publisher, the swipable container, `LazyViewController`, `LazyContentStyle` and the other view subclasses are not part of this model.
