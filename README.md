# Drop routing and environment tools of a Babylon.js asset viewer, in Dafny

The viewer shows whatever the user drops on its canvas. Babylon's
`FilesInput` reads the dropped files and calls two hooks that the viewer
installs on it:

- `onProcessFileCallback` decides, file by file, what a drop means. A single
  `.dds`/`.env`/`.hdr` file replaces the scene's environment (skybox)
  texture. A single texture image is chosen as the file to load. Anything
  else is left to Babylon.
- `loadAsync` previews a single texture on a plane. Otherwise it clears the
  engine's texture cache and imports the scene file.

`EnvironmentTools` picks the environment texture, either the dropped file or
one of three preset skyboxes chosen by a stored index. Its reset installs
that texture in the scene and re-links every `skyBox` material to a copy of
it.

The model has six modules:

- `Strings`: `indexOf`, `endsWith` and `toLowerCase`.
- `AssetClassifier`: `isTextureAsset`.
- `EnvTools`: the skybox tables, `LoadSkyboxPathTexture`,
  `GetActiveSkyboxName` and `ResetEnvironmentTexture`.
- `DropRouter`: the two `FilesInput` hooks.
- `PreviewLoader`: the preview scene and its plane scaling.
- `Wrappers`: Option and Result.

Babylon objects are records. A texture is `{id, kind, path, rotationY,
coordinatesMode}`, where `id` stands for object identity. `dispose()` adds the
texture's `id` to the scene's `disposed` set, and `clone()` copies the record
under a new `id`. The scene is a class with its environment texture, its
material list, the disposed set and the next free identity. The material
loop of the reset is a `for` loop that updates this list in place. It is
proved equal to the pure `ResetScene`, and the lemmas about the reset are
stated on `ResetScene`. The static state (`SkyboxPath`, the
`FilesInput.FilesToLoad` table) lives in fields of the `EnvironmentTools` and
`FilesInput` classes. The engine is seen through the list of calls made on
it, so "the cache is cleared before the import" is a statement about that
list.

`src/App.tsx` repeats the same logic: `isTextureAsset` at 38-52,
`onProcessFileCallback` at 133-164, `loadAsync` at 166-178 and the plane
scaling at 75-80. It differs only in its empty error callbacks. The model
follows `src/components/view-model-scene.tsx`, and the table cites that file.

### Behaviour worth knowing

- The texture test is case-sensitive: `tex.PNG` is not a texture asset.
- The HDR loader is chosen when `path.indexOf(".hdr") == path.length - 4`,
  not when the path ends in `.hdr`. So `a.hdr.hdr` is not HDR, and any
  three-character path is.
- The stored preset index is clamped below (at 0) but not above. An index of
  3 or more reads `undefined`. `LoadSkyboxPathTexture` then throws (modelled
  as `Failure(UndefinedSkybox(i))`), and `GetActiveSkyboxName` returns
  `undefined` (modelled as `None`). The reset has by then disposed the old
  environment texture, which stays installed (`ResetOnFailure`).
- A batch of several files is not rejected. The callback passes every file
  on (returns `true`), and `loadAsync` imports the scene file after clearing
  the cache.
- The extension switch lower-cases, but the HDR test does not. A file
  dropped as `SKY.HDR` is treated as an environment map and then given to
  the prefiltered loader (`UpperCaseHdrDropUsesPrefilteredLoader`).

## Model

| member | source | states |
|---|---|---|
| `Strings.IndexOf` | src/lib/env-tools.ts:37 | `indexOf`: -1 exactly when the pattern occurs nowhere; otherwise an index where it occurs and before which it does not |
| `Strings.IndexOfChar` | src/components/view-model-scene.tsx:20 | for a one-character pattern, -1 exactly when the character is absent; otherwise the position of its first occurrence |
| `AssetClassifier.StripQuery` | src/components/view-model-scene.tsx:20-23 | the kept name is a prefix of the input, holds no `?`, and stops at a `?` or at the end |
| `AssetClassifier.QueryCutIsUnique` | src/components/view-model-scene.tsx:20-23 | any `?`-free prefix that ends at a `?` or at the end of the name is exactly what the query cut keeps |
| `AssetClassifier.TextureAssetCharacterization` | src/components/view-model-scene.tsx:19-33 | `isTextureAsset(n)` holds iff the part of `n` before its first `?` (all of `n` if none) ends with one of `.ktx`, `.ktx2`, `.png`, `.jpg`, `.jpeg`, `.webp` |
| `AssetClassifier.SuffixListMatches` | src/components/view-model-scene.tsx:25-32 | the six `endsWith` tests hold together exactly when some tail of the name is one of the six suffixes |
| `AssetClassifier.QueryStringIsIgnored` | src/components/view-model-scene.tsx:20-23 | for `n` without `?`, `isTextureAsset(n + "?" + q) == isTextureAsset(n)` for every `q` |
| `AssetClassifier.NotTextureByLastChar` | src/components/view-model-scene.tsx:25-32 | a name whose query-free part ends in a character other than `x`, `2`, `g`, `p` is not a texture asset |
| `AssetClassifier.UpperCaseExtensionIsNotTexture` | src/components/view-model-scene.tsx:25-32 | no case folding: `n + ".PNG"` is never a texture asset |
| `AssetClassifier.Ktx2Example` | src/components/view-model-scene.tsx:25-32 | `model.ktx2` is a texture asset |
| `AssetClassifier.QueryStringExample` | src/components/view-model-scene.tsx:19-33 | `img.jpeg?v=2` is a texture asset |
| `AssetClassifier.UpperCaseExample` | src/components/view-model-scene.tsx:25-32 | `tex.PNG` is not a texture asset |
| `AssetClassifier.EnvironmentMapExample` | src/components/view-model-scene.tsx:25-32 | `scene.hdr` is not a texture asset |
| `AssetClassifier.QueryHidesExtensionExample` | src/components/view-model-scene.tsx:20-32 | `a.glb?x=.png` is not a texture asset: the `.png` is in the query string |
| `DropRouter.RouteFile` | src/components/view-model-scene.tsx:171-195 | the file is registered as an environment map iff the batch has one file and its non-empty extension lower-cases to `dds`/`env`/`hdr`; it is chosen as the scene file iff the batch has one file, its extension is non-empty and not one of those, and its name is a texture asset; otherwise nothing happens |
| `DropRouter.EnvironmentExtensionIgnoresCase` | src/components/view-model-scene.tsx:176-179 | `HDR`, `Env` and `dDs` are environment extensions; `png` and `hdr2` are not |
| `DropRouter.OnlySingleFilesAreRouted` | src/components/view-model-scene.tsx:171-175 | a batch of other than one file, or an empty extension, always passes the file through untouched |
| `DropRouter.FilesInput.OnProcessFile` | src/components/view-model-scene.tsx:165-196 | environment route: the file is stored under `name` in the virtual file table, `SkyboxPath` becomes `"file:" + correctName`, the scene is reset, `false` is returned and no scene file is chosen. Texture route: the file becomes the scene file and `true` is returned. Otherwise `true` is returned and no state changes |
| `DropRouter.EnvironmentDropInstallsDroppedFile` | src/components/view-model-scene.tsx:180-182 | the reset that follows an environment drop always succeeds and installs a texture for `"file:" + correctName`, with rotation 0 and the next identity, loaded as HDR iff the `indexOf` test accepts the path |
| `DropRouter.UpperCaseHdrDropUsesPrefilteredLoader` | src/components/view-model-scene.tsx:176-182 | extension `HDR` is routed as an environment map, but `file:SKY.HDR` is then loaded with the prefiltered loader |
| `DropRouter.LoadCalls` | src/components/view-model-scene.tsx:198-210 | a one-file batch whose name is a texture asset makes exactly one call, the preview of `"file:" + name`, with no cache clear. Any other batch makes exactly two calls: one cache clear, then the import of the scene file under prefix `"file:"` |
| `DropRouter.FilesInput.LoadAsync` | src/components/view-model-scene.tsx:198-210 | the engine receives exactly the calls of `LoadCalls`, appended in order |
| `PreviewLoader.FitScaling` | src/components/view-model-scene.tsx:70-75 | a wider image sets y to `height/width` in [0,1) and keeps x; any other image sets x to `width/height` in [0,1] and keeps y |
| `PreviewLoader.UnitPlaneKeepsAspectRatio` | src/components/view-model-scene.tsx:70-75 | starting from the unit plane, the fitted plane has the image's aspect ratio, both sides in (0,1], one of them exactly 1 |
| `PreviewLoader.FitExamples` | src/components/view-model-scene.tsx:70-75 | 200x100 gives (1, 0.5); 100x200 gives (0.5, 1); a square gives (1, 1) |
| `PreviewLoader.PreviewScene.constructor` | src/components/view-model-scene.tsx:59-97 | the preview starts as a unit plane with an unlit, alpha-blended material showing the given URL |
| `PreviewLoader.PreviewScene.OnTextureLoaded` | src/components/view-model-scene.tsx:69-81 | on decode the plane is rescaled by `FitScaling`, and the texture becomes gamma-space, with alpha, clamped on both axes |
| `EnvTools.TablesAreParallel` | src/lib/env-tools.ts:14-22 | the URL, name and rotation tables all have length 3 |
| `EnvTools.DefaultSkyboxIndex` | src/lib/env-tools.ts:29-32 | the index is `max(0, stored)`, a missing value counting as 0: never below the stored value, and either 0 or the stored value |
| `EnvTools.LoadSkyboxPathTexture` | src/lib/env-tools.ts:24-44 | fails (`undefined` path) iff `SkyboxPath` is empty and the index is at least 3. A non-empty `SkyboxPath` is used verbatim with rotation 0. An empty one takes path and rotation from the same row. The HDR loader is used iff `indexOf(".hdr") == length - 4`, and only the prefiltered loader receives the rotation |
| `EnvTools.GetActiveSkyboxName` | src/lib/env-tools.ts:46-52 | the name in row `max(0, stored)`, and `undefined` past the end of the table; it does not depend on `SkyboxPath` |
| `EnvTools.NameMatchesPreset` | src/lib/env-tools.ts:24-52 | with an empty `SkyboxPath`, the loaded preset and the active name come from the same row |
| `EnvTools.HdrPathCharacterization` | src/lib/env-tools.ts:37 | the HDR test holds iff the path has 3 characters, or it ends with `.hdr` and has no earlier `.hdr` |
| `EnvTools.OtherExtensionIsNotHdr` | src/lib/env-tools.ts:37-43 | a path ending in a different four-character extension goes to the prefiltered loader |
| `EnvTools.PresetsArePrefiltered` | src/lib/env-tools.ts:14-43 | every in-range preset is loaded with the prefiltered loader and that preset's rotation |
| `EnvTools.HdrTestExamples` | src/lib/env-tools.ts:37 | `a.hdr.hdr` is not HDR; `abc` and `file:sky.hdr` are |
| `EnvTools.Refreshed` | src/lib/env-tools.ts:66-79 | one loop turn keeps the name and the live-skybox status. A material that is not a live skybox is unchanged. A live skybox gets a clone of the new environment texture with the given identity |
| `EnvTools.StaleReflectionsMembers` | src/lib/env-tools.ts:62-74 | the textures the loop disposes are exactly the old reflections of materials named `skyBox` whose reflection is in skybox mode |
| `EnvTools.StaleReflectionsStep` | src/lib/env-tools.ts:62-74 | each loop turn disposes the current material's reflection iff that material is a live skybox |
| `EnvTools.RefreshAll` | src/lib/env-tools.ts:62-81 | the list keeps its length, and material `i` becomes its refreshed form |
| `EnvTools.ResetTouchesOnlyLiveSkyboxes` | src/lib/env-tools.ts:61-81 | after a successful reset the new texture is installed. The list keeps its length, order and names. Only live skyboxes change, each to a clone of the new texture, and they stay live skyboxes |
| `EnvTools.ResetOnFailure` | src/lib/env-tools.ts:24-60 | the reset fails iff `SkyboxPath` is empty and the stored index is at least 3; then the error names that index, the old environment texture is disposed but still installed, and the materials and identities are unchanged |
| `EnvTools.ResetDisposal` | src/lib/env-tools.ts:57-74 | a reset disposes the previous environment texture if there was one and, if the load succeeds, exactly the old reflections of the live skyboxes; nothing else |
| `EnvTools.ResetUsesFreshTextures` | src/lib/env-tools.ts:61-78 | the new texture and each clone are objects the scene never held before, and distinct from each other. So each re-linked material holds a different texture than before, and no clone is shared |
| `EnvTools.EnvironmentTools.constructor` | src/lib/env-tools.ts:13 | `SkyboxPath` starts empty |
| `EnvTools.RelinkSkyboxMaterials` | src/lib/env-tools.ts:62-81 | the in-place loop turns the material list into its refreshed form, disposes exactly the stale reflections, and leaves the environment texture alone |
| `EnvTools.EnvironmentTools.ResetEnvironmentTexture` | src/lib/env-tools.ts:54-82 | the scene ends in the state `ResetScene` describes, including the case where the load throws after the old texture was disposed, and the load's result is returned |

## Left out

- React state and effects, the inspector toggle and the JSX are UI plumbing
  (src/components/view-model-scene.tsx:40-57, 99-125, 219-238).
- Creating the engine and the scene, the render loop, the resize listener and
  disposal are I/O wiring over Babylon.
- The `FilesInput` success and error callbacks are left out: default camera
  and light, the `alpha += Math.PI` float rotation, `/environment.env`,
  `attachControl`, the inspector and toasts. So are the texture decode
  failure toast and the `debugLayer` calls of the preview.
- How `FilesInput` derives `name` and `extension` from a file, when it calls
  `loadAsync`, and its drag-and-drop monitoring are Babylon code. The model
  takes `name`, `extension` and the batch as inputs.
- `SceneLoader.LoadAsync`, texture decoding and the texture constructors are
  Babylon code. A load is recorded as an engine call. A new texture records
  only its loader kind, path, rotation and mode (the HDR size 256 and the
  other constructor flags are not modelled).
- `LocalStorageHelper` is not part of this model. The stored
  `defaultSkyboxId` is the field `EnvironmentTools.storedSkyboxId` of type
  `Option<int>`, which the page may reassign between calls and which each
  reset reads afresh. Non-integer stored values are not modelled.
- `EngineStore.LastCreatedScene` is passed to the reset as an explicit scene.
- EnvTools.Refreshed: assumes `clone()` returns a texture, so the `null`
  result that the code guards against (src/lib/env-tools.ts:76) is not modelled.
- Strings.ToLowerAscii: lower-cases ASCII letters only. For the comparison
  with `dds`/`env`/`hdr` this gives the same answer as JavaScript's full
  `toLowerCase`.
- DropRouter.FilesInput.OnProcessFile: the `filesToLoad` null check
  (src/components/view-model-scene.tsx:172) is not modelled, because the
  batch is always a list.
- PreviewLoader.FitScaling: a 0x0 image (where JavaScript computes 0/0, NaN)
  is excluded by its precondition. Scalings are exact reals, not doubles, so
  `r.1 * width == height` and the aspect-ratio equalities of
  `UnitPlaneKeepsAspectRatio` hold only up to double rounding in JavaScript
  (for a 49x1 image, `(1/49)*49` is `0.9999999999999999` there).
- PreviewLoader.PreviewScene.OnTextureLoaded: excludes a 0x0 image by the same
  precondition as `FitScaling`, so the NaN scaling it would produce is not
  modelled.
- Sizes, scalings and the preset rotations (5.54, 1.9, 0) are exact reals;
  double rounding is not modelled anywhere.
- String lengths count characters (code points), where JavaScript counts
  UTF-16 code units. This changes only the three-character case of the HDR
  test, for paths with characters outside the Basic Multilingual Plane.
- Materials are values in the scene's list, so two list entries sharing one
  material object is not modelled. Texture identities are abstract: the
  clone for material `i` gets identity `base + i`.
- The `onProgress` callback is not modelled. Neither is a guard against
  stale imports, because the code has none.
- `src/main.tsx` and `src/App2.tsx` only mount components.
