/**
 * What the two panorama pages have in common: the scene catalog entries,
 * the Three.js meshes as opaque tokens, the latitude clamp, the choice of
 * texture URL and the choice of the initial scene.
 */
module Panorama {
  import opened Wrappers
  import opened Text
  import Seqs

  /** A numeric scene `id` (demo scenes) or a backend `photo_key`. */
  datatype SceneId = Numbered(n: int) | PhotoKey(key: string)

  /**
   * One catalog entry, `naviData[i].scene`: `url` and `thumb` are the
   * fields of its optional `sphereSource`.
   */
  datatype SceneEntry = SceneEntry(
    id: SceneId,
    title: Option<string>,
    isMain: Option<int>,
    url: Option<string>,
    thumb: Option<string>)

  /** The material a sphere was built with. */
  datatype Material = Wireframe(colour: int) | Textured(source: string) | FlatColour(colour: int)

  /** A `THREE.Mesh`: `serial` tells meshes apart, as object identity does. */
  datatype Mesh = Mesh(serial: nat, material: Material)

  /** The scene-related page data that `setData` writes. */
  datatype PageData = PageData(
    houseId: Option<string>,
    naviData: seq<SceneEntry>,
    currentSceneIndex: int,
    currentScene: Option<SceneEntry>,
    loading: bool,
    error: Option<string>,
    showSceneSelector: bool)

  /** The drag state the touch handlers keep. */
  datatype DragState = DragState(isDragging: bool, prevX: real, prevY: real, lon: real, lat: real)

  /** The Three.js side: whether `scene`/`THREE` are set, the scene's meshes and `this.sphere`. */
  datatype GraphState = GraphState(threeReady: bool, sceneGraph: seq<Mesh>, sphere: Option<Mesh>, meshCount: nat)

  const LatLimit: real := 85.0

  /** `Math.max(-85, Math.min(85, lat))` */
  function ClampLat(lat: real): (r: real)
    ensures -LatLimit <= r <= LatLimit
    ensures -LatLimit <= lat <= LatLimit ==> r == lat
    ensures lat > LatLimit ==> r == LatLimit
    ensures lat < -LatLimit ==> r == -LatLimit
  {
    if lat > LatLimit then LatLimit
    else if lat < -LatLimit then -LatLimit
    else lat
  }

  /**
   * `sphereSource?.thumb || sphereSource?.url`, and when both are empty
   * the default texture drawn by `pick` (standing for
   * `Math.floor(Math.random() * defaults.length)`).
   */
  function TextureUrl(entry: SceneEntry, defaults: seq<string>, pick: nat): (r: string)
    requires pick < |defaults|
    ensures Truthy(entry.thumb) ==> r == entry.thumb.value
    ensures !Truthy(entry.thumb) && Truthy(entry.url) ==> r == entry.url.value
    ensures !Truthy(entry.thumb) && !Truthy(entry.url) ==> r in defaults
  {
    if Truthy(entry.thumb) then entry.thumb.value
    else if Truthy(entry.url) then entry.url.value
    else defaults[pick]
  }

  /** `catalog.findIndex(item => item.scene.is_main === 1)`, `None` for -1. */
  function FindMain(catalog: seq<SceneEntry>): (r: Option<nat>)
    ensures r.Some? ==> r.value < |catalog| && catalog[r.value].isMain == Some(1)
    ensures r.Some? ==> forall k :: 0 <= k < r.value ==> catalog[k].isMain != Some(1)
    ensures r.None? ==> forall k :: 0 <= k < |catalog| ==> catalog[k].isMain != Some(1)
  {
    if catalog == [] then None
    else if catalog[0].isMain == Some(1) then Some(0)
    else match FindMain(catalog[1..])
      case None => None
      case Some(k) => Some(k + 1)
  }

  /** The main scene's index, or 0 when no entry is marked main. */
  function InitialIndex(catalog: seq<SceneEntry>): (r: nat)
    ensures catalog != [] ==> r < |catalog|
    ensures r > 0 ==> r < |catalog| && catalog[r].isMain == Some(1)
    ensures (exists k :: 0 <= k < |catalog| && catalog[k].isMain == Some(1)) ==>
              catalog[r].isMain == Some(1) && forall k :: 0 <= k < r ==> catalog[k].isMain != Some(1)
  {
    match FindMain(catalog)
    case None => 0
    case Some(k) => k
  }

  /**
   * The three demo scenes, 客厅 (the main one), 卧室 and 厨房, with ids
   * 1 to 3, showing the given images.
   */
  function DemoCatalog(urls: seq<string>): (r: seq<SceneEntry>)
    requires |urls| == 3
    ensures |r| == 3
    ensures forall i :: 0 <= i < 3 ==> r[i].url == Some(urls[i]) && r[i].thumb == None
  {
    [ SceneEntry(Numbered(1), Some("客厅"), Some(1), Some(urls[0]), None),
      SceneEntry(Numbered(2), Some("卧室"), Some(0), Some(urls[1]), None),
      SceneEntry(Numbered(3), Some("厨房"), Some(0), Some(urls[2]), None) ]
  }

  /** `scene.remove(mesh)`: the scene graph without `mesh`. */
  function Remove(graph: seq<Mesh>, mesh: Mesh): (r: seq<Mesh>)
    ensures mesh !in r
    ensures forall m :: m in r <==> m in graph && m != mesh
  {
    Seqs.Filter(graph, m => m != mesh)
  }

  /** Removing the only mesh of a scene leaves it empty. */
  lemma RemoveOnly(mesh: Mesh)
    ensures Remove([mesh], mesh) == []
  {
  }
}
