/**
 * `EnvironmentTools`: the skybox presets, the choice of the environment
 * texture, and the reset that installs it in the scene and re-links the
 * skybox materials to it.
 *
 * Babylon textures are records with an abstract identity `id`; calling
 * `dispose()` on a texture adds its identity to the scene's `disposed` set,
 * and a clone is a copy of the record under a fresh identity.
 */
module EnvTools {
  import opened Wrappers
  import opened Strings

  /** The preset skyboxes: URLs, display names and Y rotations (three parallel tables). */
  const Skyboxes: seq<string> := [
    "https://assets.babylonjs.com/environments/sanGiuseppeBridge.env",
    "https://assets.babylonjs.com/environments/ulmerMuenster.env",
    "https://assets.babylonjs.com/environments/studio.env"
  ]
  const SkyboxesNames: seq<string> := ["Default", "Plaza", "Studio"]
  const SkyboxesRotation: seq<real> := [5.54, 1.9, 0.0]

  /** Babylon's `Texture.CUBIC_MODE` (a new cube texture's coordinates mode) and `Texture.SKYBOX_MODE`. */
  const CubicMode: int := 3
  const SkyboxMode: int := 5

  /** The material name the reset looks for. */
  const SkyboxMaterialName: string := "skyBox"

  datatype TextureKind = HdrCube | PrefilteredCube

  datatype Texture = Texture(id: nat, kind: TextureKind, path: string, rotationY: real, coordinatesMode: int)

  datatype Material = Material(name: string, reflectionTexture: Option<Texture>)

  /** Reading a preset past the end of the tables yields `undefined`; the path test then throws. */
  datatype EnvError = UndefinedSkybox(index: nat)

  lemma TablesAreParallel()
    ensures |Skyboxes| == |SkyboxesNames| == |SkyboxesRotation| == 3
  {
  }

  /** `Math.max(0, ReadLocalStorageValue("defaultSkyboxId", 0))`: a missing value reads as 0. */
  function DefaultSkyboxIndex(stored: Option<int>): (i: nat)
    ensures stored.GetOr(0) <= i
    ensures i == 0 || stored == Some(i)
  {
    var v := stored.GetOr(0);
    if v < 0 then 0 else v
  }

  /** The HDR loader is chosen when the first `.hdr` starts four characters before the end. */
  predicate IsHdrPath(path: string) {
    IndexOf(path, ".hdr") == |path| - 4
  }

  /**
   * `LoadSkyboxPathTexture`: a non-empty `SkyboxPath` is loaded as given with
   * no rotation; an empty one selects the stored preset with its rotation.
   * `id` is the identity the new texture receives.
   */
  function LoadSkyboxPathTexture(skyboxPath: string, stored: Option<int>, id: nat): (r: Result<Texture, EnvError>)
    ensures r.Failure? <==> skyboxPath == [] && DefaultSkyboxIndex(stored) >= |Skyboxes|
    ensures r.Failure? ==> r.error == UndefinedSkybox(DefaultSkyboxIndex(stored))
    ensures r.Success? ==> r.value.id == id && r.value.coordinatesMode == CubicMode
    ensures r.Success? ==> (r.value.kind == HdrCube <==> IsHdrPath(r.value.path))
    ensures r.Success? && r.value.kind == HdrCube ==> r.value.rotationY == 0.0
    ensures r.Success? && skyboxPath != [] ==> r.value.path == skyboxPath && r.value.rotationY == 0.0
    ensures r.Success? && skyboxPath == [] ==>
      var i := DefaultSkyboxIndex(stored);
      r.value.path == Skyboxes[i] && (r.value.kind == PrefilteredCube ==> r.value.rotationY == SkyboxesRotation[i])
  {
    var i := DefaultSkyboxIndex(stored);
    if skyboxPath == [] && i >= |Skyboxes| then
      Failure(UndefinedSkybox(i))
    else
      var path := if skyboxPath == [] then Skyboxes[i] else skyboxPath;
      var rotationY := if skyboxPath == [] then SkyboxesRotation[i] else 0.0;
      if IsHdrPath(path) then
        Success(Texture(id, HdrCube, path, 0.0, CubicMode))
      else
        Success(Texture(id, PrefilteredCube, path, rotationY, CubicMode))
  }

  /** `GetActiveSkyboxName`: the stored preset's name (`undefined` past the end), whatever `SkyboxPath` holds. */
  function GetActiveSkyboxName(stored: Option<int>): (r: Option<string>)
    ensures r.Some? <==> DefaultSkyboxIndex(stored) < |SkyboxesNames|
    ensures r.Some? ==> r.value == SkyboxesNames[DefaultSkyboxIndex(stored)]
  {
    var i := DefaultSkyboxIndex(stored);
    if i < |SkyboxesNames| then Some(SkyboxesNames[i]) else None
  }

  /** The active name and the preset texture come from the same row of the tables. */
  lemma NameMatchesPreset(stored: Option<int>, id: nat)
    requires DefaultSkyboxIndex(stored) < |Skyboxes|
    ensures exists i :: (0 <= i < 3 &&
      LoadSkyboxPathTexture([], stored, id).value.path == Skyboxes[i] &&
      GetActiveSkyboxName(stored) == Some(SkyboxesNames[i]))
  {
    var i := DefaultSkyboxIndex(stored);
    assert LoadSkyboxPathTexture([], stored, id).value.path == Skyboxes[i];
  }

  /**
   * The HDR test, restated: a path of three characters passes (both sides are
   * -1), and otherwise the path must end in `.hdr` with no earlier `.hdr`.
   */
  lemma HdrPathCharacterization(path: string)
    ensures IsHdrPath(path) <==>
      |path| == 3 ||
      (EndsWith(path, ".hdr") && forall j :: 0 <= j < |path| - 4 ==> !OccursAt(path, ".hdr", j))
  {
    if |path| >= 4 {
      assert OccursAt(path, ".hdr", |path| - 4) <==> EndsWith(path, ".hdr");
    }
  }

  /** A path ending with a different four-character extension is not HDR. */
  lemma OtherExtensionIsNotHdr(path: string, ext: string)
    requires |ext| == 4 && ext != ".hdr" && EndsWith(path, ext)
    ensures !IsHdrPath(path)
  {
    HdrPathCharacterization(path);
  }

  /** The three presets are `.env` files, so they always take the prefiltered loader with their rotation. */
  lemma PresetsArePrefiltered(stored: Option<int>, id: nat)
    requires DefaultSkyboxIndex(stored) < 3
    ensures LoadSkyboxPathTexture([], stored, id).Success?
    ensures LoadSkyboxPathTexture([], stored, id).value.kind == PrefilteredCube
    ensures LoadSkyboxPathTexture([], stored, id).value.rotationY == SkyboxesRotation[DefaultSkyboxIndex(stored)]
  {
    var i := DefaultSkyboxIndex(stored);
    assert EndsWith(Skyboxes[i], ".env");
    OtherExtensionIsNotHdr(Skyboxes[i], ".env");
  }

  /** `indexOf` is not "ends with": a repeated `.hdr` is not HDR, a three-character path is. */
  lemma HdrTestExamples()
    ensures !IsHdrPath("a.hdr.hdr")
    ensures IsHdrPath("abc")
    ensures IsHdrPath("file:sky.hdr")
  {
    assert OccursAt("a.hdr.hdr", ".hdr", 1);
    HdrPathCharacterization("abc");
    var p := "file:sky.hdr";
    forall j | 0 <= j < 8 ensures !OccursAt(p, ".hdr", j) {
      assert p[j..j + 4][0] == p[j] != '.';
    }
    HdrPathCharacterization(p);
    assert p[8..] == ".hdr";
  }

  /** The scene's state that the reset reads and writes. */
  datatype SceneState = SceneState(
    environmentTexture: Option<Texture>,
    materials: seq<Material>,
    disposed: set<nat>,
    nextTextureId: nat)

  /** Every texture the scene refers to has an identity already handed out. */
  ghost predicate IdsBelow(s: SceneState) {
    (forall id :: id in s.disposed ==> id < s.nextTextureId) &&
    (s.environmentTexture.Some? ==> s.environmentTexture.value.id < s.nextTextureId) &&
    forall i :: 0 <= i < |s.materials| && s.materials[i].reflectionTexture.Some? ==>
      s.materials[i].reflectionTexture.value.id < s.nextTextureId
  }

  /** A material the reset re-links: named `skyBox`, with a reflection texture in skybox mode. */
  predicate IsLiveSkybox(m: Material) {
    m.name == SkyboxMaterialName &&
    m.reflectionTexture.Some? &&
    m.reflectionTexture.value.coordinatesMode == SkyboxMode
  }

  /** `clone()`: the same image under a fresh identity. */
  predicate IsCloneOf(t: Texture, original: Texture) {
    t.kind == original.kind && t.path == original.path && t.rotationY == original.rotationY
  }

  /** One turn of the material loop: a live skybox gets a skybox-mode clone of `env` with identity `cloneId`. */
  function Refreshed(m: Material, env: Texture, cloneId: nat): (r: Material)
    ensures r.name == m.name
    ensures IsLiveSkybox(r) == IsLiveSkybox(m)
    ensures !IsLiveSkybox(m) ==> r == m
    ensures IsLiveSkybox(m) ==>
      IsCloneOf(r.reflectionTexture.value, env) && r.reflectionTexture.value.id == cloneId
  {
    if m.name == SkyboxMaterialName then
      var reflection := m.reflectionTexture;
      if reflection.Some? && reflection.value.coordinatesMode == SkyboxMode then
        m.(reflectionTexture := Some(env.(id := cloneId, coordinatesMode := SkyboxMode)))
      else m
    else m
  }

  /** The identities the material loop disposes: the old reflections of the live skyboxes, in list order. */
  function StaleReflections(ms: seq<Material>): set<nat> {
    if ms == [] then {}
    else
      var last := ms[|ms| - 1];
      var front := StaleReflections(ms[..|ms| - 1]);
      if IsLiveSkybox(last) then front + {last.reflectionTexture.value.id} else front
  }

  /** The stale identities are exactly the reflections of the live skybox materials. */
  lemma {:induction false} StaleReflectionsMembers(ms: seq<Material>, id: nat)
    ensures id in StaleReflections(ms) <==>
      exists i :: 0 <= i < |ms| && IsLiveSkybox(ms[i]) && ms[i].reflectionTexture.value.id == id
  {
    if ms != [] {
      var front := ms[..|ms| - 1];
      StaleReflectionsMembers(front, id);
      assert forall i :: 0 <= i < |front| ==> front[i] == ms[i];
    }
  }

  /** One more material seen by the loop adds its stale reflection, if it is a live skybox. */
  lemma StaleReflectionsStep(ms: seq<Material>, i: nat)
    requires i < |ms|
    ensures StaleReflections(ms[..i + 1]) ==
      StaleReflections(ms[..i]) + (if IsLiveSkybox(ms[i]) then {ms[i].reflectionTexture.value.id} else {})
  {
    assert ms[..i + 1][..i] == ms[..i];
  }

  /** The loop's effect on the material list: material `i` is refreshed with clone identity `base + i`. */
  function RefreshAll(ms: seq<Material>, env: Texture, base: nat): (r: seq<Material>)
    ensures |r| == |ms|
    ensures forall i :: 0 <= i < |ms| ==> r[i] == Refreshed(ms[i], env, base + i)
  {
    seq(|ms|, i requires 0 <= i < |ms| => Refreshed(ms[i], env, base + i))
  }

  /**
   * `ResetEnvironmentTexture` on a scene state: dispose the current
   * environment texture if any, load the new one (identity `nextTextureId`),
   * install it, and re-link every live skybox material to a clone of it.
   * When the load throws, the old texture is already disposed and stays installed.
   */
  function ResetScene(s: SceneState, skyboxPath: string, stored: Option<int>): (SceneState, Result<Texture, EnvError>)
  {
    var disposed := if s.environmentTexture.Some? then s.disposed + {s.environmentTexture.value.id} else s.disposed;
    match LoadSkyboxPathTexture(skyboxPath, stored, s.nextTextureId)
    case Failure(e) => (s.(disposed := disposed), Failure(e))
    case Success(env) =>
      var base := s.nextTextureId + 1;
      (SceneState(Some(env), RefreshAll(s.materials, env, base), disposed + StaleReflections(s.materials), base + |s.materials|),
       Success(env))
  }

  /** The state a successful reset leaves, spelled out field by field. */
  lemma ResetSceneOnSuccess(s: SceneState, skyboxPath: string, stored: Option<int>, env: Texture)
    requires LoadSkyboxPathTexture(skyboxPath, stored, s.nextTextureId) == Success(env)
    ensures ResetScene(s, skyboxPath, stored) ==
      (SceneState(Some(env),
                  RefreshAll(s.materials, env, s.nextTextureId + 1),
                  (if s.environmentTexture.Some? then s.disposed + {s.environmentTexture.value.id} else s.disposed)
                    + StaleReflections(s.materials),
                  s.nextTextureId + 1 + |s.materials|),
       Success(env))
  {
  }

  /**
   * A reset fails exactly when `SkyboxPath` is empty and the stored preset is
   * past the end of the tables. Then the old environment texture has been
   * disposed but stays installed, and the materials and identities are as before.
   */
  lemma ResetOnFailure(s: SceneState, skyboxPath: string, stored: Option<int>)
    ensures var (s', r) := ResetScene(s, skyboxPath, stored);
      (r.Failure? <==> skyboxPath == [] && DefaultSkyboxIndex(stored) >= |Skyboxes|) &&
      (r.Failure? ==>
        r.error == UndefinedSkybox(DefaultSkyboxIndex(stored)) &&
        s'.environmentTexture == s.environmentTexture &&
        s'.materials == s.materials &&
        s'.nextTextureId == s.nextTextureId &&
        s'.disposed == s.disposed + (if s.environmentTexture.Some? then {s.environmentTexture.value.id} else {}))
  {
  }

  /**
   * What a reset does to the material list: same length, order and names;
   * only the live skyboxes change, each to a skybox-mode clone of the new
   * environment texture, so the same materials are live skyboxes afterwards.
   */
  lemma ResetTouchesOnlyLiveSkyboxes(s: SceneState, skyboxPath: string, stored: Option<int>)
    requires ResetScene(s, skyboxPath, stored).1.Success?
    ensures var (s', r) := ResetScene(s, skyboxPath, stored);
      |s'.materials| == |s.materials| &&
      s'.environmentTexture == Some(r.value) &&
      forall i :: 0 <= i < |s.materials| ==>
        s'.materials[i].name == s.materials[i].name &&
        IsLiveSkybox(s'.materials[i]) == IsLiveSkybox(s.materials[i]) &&
        (!IsLiveSkybox(s.materials[i]) ==> s'.materials[i] == s.materials[i]) &&
        (IsLiveSkybox(s.materials[i]) ==> IsCloneOf(s'.materials[i].reflectionTexture.value, r.value))
  {
  }

  /**
   * What a reset disposes: the previous environment texture if there was one
   * and, when the load succeeds, exactly the old reflections of the live skyboxes.
   */
  lemma ResetDisposal(s: SceneState, skyboxPath: string, stored: Option<int>, id: nat)
    ensures var (s', r) := ResetScene(s, skyboxPath, stored);
      (id in s'.disposed <==>
        id in s.disposed ||
        (s.environmentTexture.Some? && s.environmentTexture.value.id == id) ||
        (r.Success? && exists i :: 0 <= i < |s.materials| && IsLiveSkybox(s.materials[i]) &&
                                   s.materials[i].reflectionTexture.value.id == id))
  {
    StaleReflectionsMembers(s.materials, id);
  }

  /**
   * A reset hands out fresh identities: the new environment texture and every
   * clone differ from every texture the scene held before and from each other,
   * so each re-linked material holds a different object than before.
   */
  lemma {:induction false} ResetUsesFreshTextures(s: SceneState, skyboxPath: string, stored: Option<int>)
    requires IdsBelow(s)
    ensures IdsBelow(ResetScene(s, skyboxPath, stored).0)
    ensures var (s', r) := ResetScene(s, skyboxPath, stored);
      r.Success? ==>
        r.value.id !in s.disposed + StaleReflections(s.materials) &&
        (s.environmentTexture.Some? ==> r.value.id != s.environmentTexture.value.id) &&
        forall i :: 0 <= i < |s.materials| && IsLiveSkybox(s.materials[i]) ==>
          s'.materials[i].reflectionTexture.value.id != s.materials[i].reflectionTexture.value.id &&
          s'.materials[i].reflectionTexture.value.id != r.value.id &&
          forall j :: 0 <= j < |s.materials| && j != i && s'.materials[j].reflectionTexture.Some? ==>
            s'.materials[i].reflectionTexture.value.id != s'.materials[j].reflectionTexture.value.id
  {
    forall id | id in StaleReflections(s.materials) ensures id < s.nextTextureId {
      StaleReflectionsMembers(s.materials, id);
    }
  }

  /** A scene as Babylon holds it: the environment texture and the material list. */
  class Scene {
    var environmentTexture: Option<Texture>
    var materials: seq<Material>
    var disposed: set<nat>
    var nextTextureId: nat

    function State(): SceneState
      reads this
    {
      SceneState(environmentTexture, materials, disposed, nextTextureId)
    }

    constructor(materials: seq<Material>, nextTextureId: nat)
      ensures State() == SceneState(None, materials, {}, nextTextureId)
    {
      this.environmentTexture := None;
      this.materials := materials;
      this.disposed := {};
      this.nextTextureId := nextTextureId;
    }
  }

  /**
   * The static state of `EnvironmentTools`: `SkyboxPath`, and the default
   * preset as local storage holds it. The storage may change between calls;
   * each reset reads it afresh.
   */
  class EnvironmentTools {
    var skyboxPath: string
    var storedSkyboxId: Option<int>

    constructor(storedSkyboxId: Option<int>)
      ensures skyboxPath == [] && this.storedSkyboxId == storedSkyboxId
    {
      this.skyboxPath := [];
      this.storedSkyboxId := storedSkyboxId;
    }

    /** `ResetEnvironmentTexture` on the last created scene. */
    method ResetEnvironmentTexture(scene: Scene) returns (r: Result<Texture, EnvError>)
      modifies scene
      ensures (scene.State(), r) == ResetScene(old(scene.State()), skyboxPath, storedSkyboxId)
    {
      ghost var s0 := scene.State();
      if scene.environmentTexture.Some? {
        scene.disposed := scene.disposed + {scene.environmentTexture.value.id};
      }
      r := LoadSkyboxPathTexture(skyboxPath, storedSkyboxId, scene.nextTextureId);
      if r.Failure? {
        return;
      }
      scene.environmentTexture := Some(r.value);
      RelinkSkyboxMaterials(scene, r.value, scene.nextTextureId + 1);
      ResetSceneOnSuccess(s0, skyboxPath, storedSkyboxId, r.value);
    }
  }

  /**
   * The material loop of `ResetEnvironmentTexture`: each live skybox's
   * reflection is disposed and replaced, in place, by a skybox-mode clone of
   * `env`; the clone made for material `i` gets identity `base + i`.
   */
  method RelinkSkyboxMaterials(scene: Scene, env: Texture, base: nat)
    modifies scene
    ensures scene.environmentTexture == old(scene.environmentTexture)
    ensures scene.materials == RefreshAll(old(scene.materials), env, base)
    ensures scene.disposed == old(scene.disposed) + StaleReflections(old(scene.materials))
    ensures scene.nextTextureId == base + |scene.materials|
  {
    ghost var ms0 := scene.materials;
    ghost var disposed0 := scene.disposed;
    for i := 0 to |scene.materials|
      invariant |scene.materials| == |ms0|
      invariant forall j :: 0 <= j < i ==> scene.materials[j] == Refreshed(ms0[j], env, base + j)
      invariant forall j :: i <= j < |ms0| ==> scene.materials[j] == ms0[j]
      invariant scene.disposed == disposed0 + StaleReflections(ms0[..i])
      invariant scene.environmentTexture == old(scene.environmentTexture)
    {
      var material := scene.materials[i];
      if material.name == SkyboxMaterialName {
        var reflection := material.reflectionTexture;
        if reflection.Some? && reflection.value.coordinatesMode == SkyboxMode {
          scene.disposed := scene.disposed + {reflection.value.id};
          var clone := env.(id := base + i);
          scene.materials := scene.materials[i := material.(reflectionTexture := Some(clone.(coordinatesMode := SkyboxMode)))];
        }
      }
      assert scene.materials[i] == Refreshed(ms0[i], env, base + i);
      StaleReflectionsStep(ms0, i);
    }
    scene.nextTextureId := base + |scene.materials|;
    assert ms0[..|ms0|] == ms0;
  }
}
