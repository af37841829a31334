/**
 * The two hooks the viewer installs on Babylon's `FilesInput`:
 * `onProcessFileCallback`, called for each dropped file, and `loadAsync`,
 * which starts loading the chosen scene file.
 */
module DropRouter {
  import opened Wrappers
  import opened Strings
  import opened AssetClassifier
  import opened EnvTools

  /** A dropped file: the name it was dropped under and its bytes. */
  datatype File = File(correctName: string, content: seq<bv8>)

  /** Extensions (compared after lower-casing) that replace the environment instead of loading a scene. */
  const EnvironmentExtensions: seq<string> := ["dds", "env", "hdr"]

  /** The virtual path scheme under which dropped files are loaded. */
  const FileScheme: string := "file:"

  predicate IsEnvironmentExtension(extension: string) {
    ToLowerAscii(extension) in EnvironmentExtensions
  }

  /** What `onProcessFileCallback` does with one file. */
  datatype Route =
    | RegisterEnvironment  // register the file, point SkyboxPath at it, reset the environment, return false
    | SelectSceneFile      // choose the file as the scene file to load, return true
    | PassThrough          // change nothing, return true

  /**
   * The callback's decision: only a one-file batch with a non-empty
   * extension is inspected; an environment extension wins over the texture
   * test, and a texture name is selected as the scene file.
   */
  function RouteFile(batchSize: nat, name: string, extension: string): (r: Route)
    ensures r == RegisterEnvironment <==> batchSize == 1 && extension != [] && IsEnvironmentExtension(extension)
    ensures r == SelectSceneFile <==>
      batchSize == 1 && extension != [] && !IsEnvironmentExtension(extension) && IsTextureAsset(name)
  {
    if batchSize == 1 && extension != [] then
      match ToLowerAscii(extension)
      case "dds" => RegisterEnvironment
      case "env" => RegisterEnvironment
      case "hdr" => RegisterEnvironment
      case _ => if IsTextureAsset(name) then SelectSceneFile else PassThrough
    else
      PassThrough
  }

  /** The extension switch lower-cases, so any spelling of `hdr`, `env` or `dds` is an environment map. */
  lemma EnvironmentExtensionIgnoresCase()
    ensures IsEnvironmentExtension("HDR") && IsEnvironmentExtension("Env") && IsEnvironmentExtension("dDs")
    ensures !IsEnvironmentExtension("png") && !IsEnvironmentExtension("hdr2")
  {
    assert ToLowerAscii("HDR") == "hdr";
    assert ToLowerAscii("Env") == "env";
    assert ToLowerAscii("dDs") == "dds";
    assert ToLowerAscii("png") == "png";
    assert ToLowerAscii("hdr2") == "hdr2";
  }

  /** A batch of several files, or a file without extension, is never routed. */
  lemma OnlySingleFilesAreRouted(batchSize: nat, name: string, extension: string)
    requires batchSize != 1 || extension == []
    ensures RouteFile(batchSize, name, extension) == PassThrough
  {
  }

  /**
   * An environment drop always installs the dropped file: the path `file:` +
   * its name cannot fail to resolve, carries no rotation, and is loaded as
   * HDR exactly when the `indexOf(".hdr")` test accepts it.
   */
  lemma EnvironmentDropInstallsDroppedFile(s: SceneState, correctName: string, stored: Option<int>)
    ensures var (s', r) := ResetScene(s, FileScheme + correctName, stored);
      r.Success? &&
      s'.environmentTexture == Some(r.value) &&
      r.value.path == FileScheme + correctName &&
      r.value.rotationY == 0.0 &&
      r.value.id == s.nextTextureId &&
      (r.value.kind == HdrCube <==> IsHdrPath(FileScheme + correctName))
  {
  }

  /**
   * The extension switch lower-cases but the HDR test does not: a file dropped
   * as `SKY.HDR` is routed as an environment map and then handed to the
   * prefiltered loader.
   */
  lemma UpperCaseHdrDropUsesPrefilteredLoader(s: SceneState, stored: Option<int>)
    ensures RouteFile(1, "sky.hdr", "HDR") == RegisterEnvironment
    ensures var (_, r) := ResetScene(s, FileScheme + "SKY.HDR", stored);
      r.Success? && r.value.kind == PrefilteredCube
  {
    EnvironmentExtensionIgnoresCase();
    var path := FileScheme + "SKY.HDR";
    assert path[|path| - 4..] == ".HDR";
    OtherExtensionIsNotHdr(path, ".HDR");
  }

  /** An engine-level call `loadAsync` makes, in the order it makes them. */
  datatype EngineCall =
    | ClearInternalTexturesCache
    | BuildTexturePreview(url: string)              // loadTextureAsset
    | ImportScene(rootUrl: string, sceneFile: File)  // SceneLoader.LoadAsync

  /** The batch is one file whose dropped name is a texture asset. */
  predicate IsSingleTexture(batch: seq<File>) {
    |batch| == 1 && IsTextureAsset(batch[0].correctName)
  }

  /**
   * The calls `loadAsync` makes: a single texture is previewed and the cache
   * is kept; anything else clears the texture cache and then imports the
   * scene file under the `file:` prefix. Exactly one load, always last.
   */
  function LoadCalls(batch: seq<File>, sceneFile: File): (calls: seq<EngineCall>)
    ensures |calls| == (if IsSingleTexture(batch) then 1 else 2)
    ensures forall i :: 0 <= i < |calls| - 1 ==> calls[i] == ClearInternalTexturesCache
    ensures ClearInternalTexturesCache in calls <==> !IsSingleTexture(batch)
    ensures calls[|calls| - 1].BuildTexturePreview? <==> IsSingleTexture(batch)
    ensures calls[|calls| - 1].BuildTexturePreview? ==>
      calls[|calls| - 1].url == FileScheme + batch[0].correctName
    ensures calls[|calls| - 1].ImportScene? <==> !IsSingleTexture(batch)
    ensures calls[|calls| - 1].ImportScene? ==>
      calls[|calls| - 1] == ImportScene(FileScheme, sceneFile)
  {
    if |batch| == 1 && IsTextureAsset(batch[0].correctName) then
      [BuildTexturePreview(FileScheme + batch[0].correctName)]
    else
      [ClearInternalTexturesCache, ImportScene(FileScheme, sceneFile)]
  }

  /** The engine, seen through the calls made on it. */
  class Engine {
    var calls: seq<EngineCall>

    constructor()
      ensures calls == []
    {
      calls := [];
    }
  }

  /** The `FilesInput` instance: the current batch, the chosen scene file and the static virtual file table. */
  class FilesInput {
    var filesToLoad: seq<File>
    var sceneFileToLoad: Option<File>
    var virtualFiles: map<string, File>

    constructor(batch: seq<File>, virtualFiles: map<string, File>)
      ensures filesToLoad == batch && sceneFileToLoad == None && this.virtualFiles == virtualFiles
    {
      filesToLoad := batch;
      sceneFileToLoad := None;
      this.virtualFiles := virtualFiles;
    }

    /** `onProcessFileCallback(file, name, extension, setSceneFileToLoad)`; `false` skips the file. */
    method OnProcessFile(file: File, name: string, extension: string, env: EnvironmentTools, scene: Scene)
      returns (keep: bool)
      modifies this, env, scene
      ensures filesToLoad == old(filesToLoad) && env.storedSkyboxId == old(env.storedSkyboxId)
      ensures var route := RouteFile(|filesToLoad|, name, extension);
        && keep == (route != RegisterEnvironment)
        && virtualFiles == (if route == RegisterEnvironment then old(virtualFiles)[name := file] else old(virtualFiles))
        && sceneFileToLoad == (if route == SelectSceneFile then Some(file) else old(sceneFileToLoad))
        && env.skyboxPath == (if route == RegisterEnvironment then FileScheme + file.correctName else old(env.skyboxPath))
        && scene.State() ==
             (if route == RegisterEnvironment
              then ResetScene(old(scene.State()), FileScheme + file.correctName, old(env.storedSkyboxId)).0
              else old(scene.State()))
    {
      if |filesToLoad| == 1 && extension != [] {
        var lowered := ToLowerAscii(extension);
        if lowered == "dds" || lowered == "env" || lowered == "hdr" {
          virtualFiles := virtualFiles[name := file];
          env.skyboxPath := FileScheme + file.correctName;
          var _ := env.ResetEnvironmentTexture(scene);
          return false;
        }
        if IsTextureAsset(name) {
          sceneFileToLoad := Some(file);
        }
      }
      return true;
    }

    /** `loadAsync(sceneFile, onProgress)`: the calls it makes on the engine. */
    method LoadAsync(sceneFile: File, engine: Engine)
      modifies engine
      ensures engine.calls == old(engine.calls) + LoadCalls(filesToLoad, sceneFile)
    {
      if |filesToLoad| == 1 {
        var fileName := filesToLoad[0].correctName;
        if IsTextureAsset(fileName) {
          engine.calls := engine.calls + [BuildTexturePreview(FileScheme + fileName)];
          return;
        }
      }
      engine.calls := engine.calls + [ClearInternalTexturesCache];
      engine.calls := engine.calls + [ImportScene(FileScheme, sceneFile)];
    }
  }
}
