/**
 * The panorama viewer page (`pages/house-tour`): a catalog of scenes, one
 * of which is shown as a textured sphere the camera sits inside. Dragging
 * turns the camera; a failed image falls back to a flat-coloured sphere.
 */
module HouseTour {
  import opened Wrappers
  import opened Text
  import opened Panorama

  const DefaultTextures: seq<string> := ["/images/models/客厅.jpg", "/images/models/卧室.jpg", "/images/models/厨房.jpg"]
  const InitialSphereColour := 0x444444
  const FallbackColour := 0x3498db
  const CanvasError := "Canvas初始化失败"

  function DemoScenes(): seq<SceneEntry> {
    DemoCatalog(DefaultTextures)
  }

  class TourPage {
    /** The page data, written by `setData`. */
    var data: PageData

    /** `this.scene`, `this.THREE` and `this.renderer` are set (they are set and cleared together). */
    var threeReady: bool
    /** The meshes added to `this.scene`. */
    var sceneGraph: seq<Mesh>
    var sphere: Option<Mesh>
    /** Meshes created so far; the next mesh gets this serial. */
    var meshCount: nat

    var isDragging: bool
    var prevX: real
    var prevY: real
    var lon: real
    var lat: real

    function Drag(): DragState
      reads this
    {
      DragState(isDragging, prevX, prevY, lon, lat)
    }

    function Graph(): GraphState
      reads this
    {
      GraphState(threeReady, sceneGraph, sphere, meshCount)
    }

    /**
     * While Three.js is set up the scene holds exactly the current sphere,
     * so never more than one; once it is torn down there is no scene.
     */
    ghost predicate Valid()
      reads this
    {
      && (threeReady ==> sphere.Some? && sceneGraph == [sphere.value])
      && (!threeReady ==> sceneGraph == [])
      && (sphere.Some? ==> sphere.value.serial < meshCount)
    }

    /** The page's initial `data`. */
    constructor()
      ensures Valid()
      ensures data == PageData(Some(""), [], 0, None, true, None, true)
      ensures Graph() == GraphState(false, [], None, 0)
      ensures !isDragging
    {
      data := PageData(Some(""), [], 0, None, true, None, true);
      threeReady := false;
      sceneGraph := [];
      sphere := None;
      meshCount := 0;
      isDragging := false;
      prevX := 0.0;
      prevY := 0.0;
      lon := 0.0;
      lat := 0.0;
    }

    /**
     * `onLoad`: the house id is `options.id || options.houseId`; without
     * one the page only shows a toast and goes back. With one, Three.js is
     * set up on the canvas (or the error is shown when there is no canvas)
     * and the demo catalog is loaded.
     */
    method OnLoad(id: Option<string>, altId: Option<string>, canvasFound: bool) returns (requested: Option<string>)
      requires Valid()
      modifies this
      ensures Valid()
      ensures var hid := if Truthy(id) then id else altId;
              && (!Truthy(hid) ==> unchanged(this) && requested == None)
              && (Truthy(hid) && !canvasFound ==>
                    && data == old(data).(houseId := hid, loading := false, error := Some(CanvasError))
                    && Graph() == old(Graph()) && Drag() == old(Drag()) && requested == None)
              && (Truthy(hid) && canvasFound ==>
                    && data == old(data).(houseId := hid, naviData := DemoScenes(), currentSceneIndex := 0,
                                              currentScene := Some(DemoScenes()[0]), loading := true, showSceneSelector := true)
                    && threeReady && sphere == Some(Mesh(old(meshCount), Wireframe(InitialSphereColour)))
                    && meshCount == old(meshCount) + 1
                    && Drag() == DragState(false, 0.0, 0.0, 0.0, 0.0)
                    && requested == Some(DefaultTextures[0]))
    {
      var hid := if Truthy(id) then id else altId;
      if !Truthy(hid) {
        return None;
      }
      data := data.(houseId := hid, loading := true);
      if canvasFound {
        InitThree();
        requested := LoadHouseInfo();
      } else {
        data := data.(error := Some(CanvasError), loading := false);
        requested := None;
      }
    }

    /**
     * `initThree`: a new scene with a wireframe sphere in it, the drag
     * state reset, and the first frame drawn.
     */
    method InitThree()
      requires Valid()
      modifies this
      ensures Valid()
      ensures data == old(data)
      ensures threeReady && sphere == Some(Mesh(old(meshCount), Wireframe(InitialSphereColour)))
      ensures meshCount == old(meshCount) + 1
      ensures Drag() == DragState(false, 0.0, 0.0, 0.0, 0.0)
    {
      threeReady := true;
      sceneGraph := [];
      isDragging := false;
      prevX := 0.0;
      prevY := 0.0;
      lon := 0.0;
      lat := 0.0;
      // createInitialSphere
      var mesh := Mesh(meshCount, Wireframe(InitialSphereColour));
      meshCount := meshCount + 1;
      sphere := Some(mesh);
      sceneGraph := sceneGraph + [mesh];
      UpdateCameraRotation();
    }

    /** `loadHouseInfo`: the demo catalog is always used; the title lookup only renames the navigation bar. */
    method LoadHouseInfo() returns (requested: Option<string>)
      requires Valid()
      modifies this
      ensures Valid()
      ensures data == old(data).(naviData := DemoScenes(), currentSceneIndex := 0, showSceneSelector := true,
                                     currentScene := if old(threeReady) then Some(DemoScenes()[0]) else old(data.currentScene),
                                     loading := old(threeReady) || old(data.loading))
      ensures Graph() == old(Graph()) && Drag() == old(Drag())
      ensures requested == if old(threeReady) then Some(DefaultTextures[0]) else None
    {
      requested := CreateDemoScenes();
    }

    /** `createDemoScenes`: install the demo catalog at index 0 and load its first scene. */
    method CreateDemoScenes() returns (requested: Option<string>)
      requires Valid()
      modifies this
      ensures Valid()
      ensures data == old(data).(naviData := DemoScenes(), currentSceneIndex := 0, showSceneSelector := true,
                                     currentScene := if old(threeReady) then Some(DemoScenes()[0]) else old(data.currentScene),
                                     loading := old(threeReady) || old(data.loading))
      ensures Graph() == old(Graph()) && Drag() == old(Drag())
      ensures requested == if old(threeReady) then Some(DefaultTextures[0]) else None
    {
      data := data.(naviData := DemoScenes(), currentSceneIndex := 0, showSceneSelector := true);
      // the demo entries carry a url, so no default texture is drawn
      requested := LoadScene(DemoScenes()[0], 0);
    }

    /**
     * `setInitialScene`: an empty catalog is replaced by the demo one;
     * otherwise the main scene (or the first) becomes current and is loaded.
     */
    method SetInitialScene(pick: nat) returns (requested: Option<string>)
      requires Valid() && pick < |DefaultTextures|
      modifies this
      ensures Valid()
      ensures Graph() == old(Graph()) && Drag() == old(Drag())
      ensures old(data.naviData) == [] ==>
                && data == old(data).(naviData := DemoScenes(), currentSceneIndex := 0, showSceneSelector := true,
                                      currentScene := if old(threeReady) then Some(DemoScenes()[0]) else old(data.currentScene),
                                      loading := old(threeReady) || old(data.loading))
                && requested == (if old(threeReady) then Some(DefaultTextures[0]) else None)
      ensures old(data.naviData) != [] ==>
                var i := InitialIndex(old(data.naviData));
                && (old(threeReady) ==>
                      && data == old(data).(currentSceneIndex := i, currentScene := Some(old(data.naviData)[i]), loading := true)
                      && requested == Some(TextureUrl(old(data.naviData)[i], DefaultTextures, pick)))
                && (!old(threeReady) ==> data == old(data).(currentSceneIndex := i) && requested == None)
    {
      if data.naviData == [] {
        requested := CreateDemoScenes();
        return;
      }
      var initial := InitialIndex(data.naviData);
      data := data.(currentSceneIndex := initial);
      requested := LoadScene(data.naviData[initial], pick);
    }

    /**
     * `loadScene`: before Three.js is set up, nothing happens. Otherwise
     * the entry becomes current, `loading` is set, and the returned texture
     * URL is handed to a new image.
     */
    method LoadScene(entry: SceneEntry, pick: nat) returns (requested: Option<string>)
      requires Valid() && pick < |DefaultTextures|
      modifies this
      ensures Valid()
      ensures !old(threeReady) ==> unchanged(this) && requested == None
      ensures old(threeReady) ==>
                && data == old(data).(currentScene := Some(entry), loading := true)
                && Graph() == old(Graph()) && Drag() == old(Drag())
                && requested == Some(TextureUrl(entry, DefaultTextures, pick))
    {
      if !threeReady {
        return None;
      }
      data := data.(currentScene := Some(entry), loading := true);
      requested := Some(TextureUrl(entry, DefaultTextures, pick));
    }

    /**
     * The image's `onload`: the old sphere is removed and a sphere textured
     * with `source` added, the view is reset and `loading` cleared. After
     * `onUnload` there is no scene: the callback stops with a TypeError at
     * the first use of `this.scene`.
     */
    method OnImageLoad(source: string)
      requires Valid()
      modifies this
      ensures Valid()
      ensures old(threeReady) ==>
                && sphere == Some(Mesh(old(meshCount), Textured(source)))
                && sceneGraph == [sphere.value] && old(sphere).value !in sceneGraph
                && threeReady && meshCount == old(meshCount) + 1
                && data == old(data).(loading := false)
                && Drag() == old(Drag()).(lon := 0.0, lat := 0.0)
      ensures !old(threeReady) && old(sphere).Some? ==> unchanged(this)
      ensures !old(threeReady) && old(sphere).None? ==>
                && Graph() == old(Graph()).(sphere := Some(Mesh(old(meshCount), Textured(source))), meshCount := old(meshCount) + 1)
                && data == old(data) && Drag() == old(Drag())
    {
      if sphere.Some? {
        if !threeReady {
          return;
        }
        RemoveOnly(sphere.value);
        sceneGraph := Remove(sceneGraph, sphere.value);
        sphere := None;
      }
      var mesh := Mesh(meshCount, Textured(source));
      meshCount := meshCount + 1;
      sphere := Some(mesh);
      if !threeReady {
        return;
      }
      sceneGraph := sceneGraph + [mesh];
      lon := 0.0;
      lat := 0.0;
      UpdateCameraRotation();
      data := data.(loading := false);
    }

    /** The image's `onerror`: the fallback sphere. */
    method OnImageError()
      requires Valid()
      modifies this
      ensures Valid()
      ensures FellBack()
    {
      LoadDefaultTexture();
    }

    /** The effect of `loadDefaultTexture`, relating the state to the one before. */
    twostate predicate FellBack()
      reads this
    {
      && (!old(threeReady) ==> unchanged(this))
      && (old(threeReady) ==>
            && sphere == Some(Mesh(old(meshCount), FlatColour(FallbackColour)))
            && sceneGraph == [sphere.value] && (old(sphere).Some? ==> old(sphere).value !in sceneGraph)
            && threeReady && meshCount == old(meshCount) + 1
            && data == old(data).(loading := false)
            && Drag() == old(Drag()))
    }

    /**
     * `loadDefaultTexture`: without Three.js nothing happens; otherwise the
     * old sphere is replaced by a flat blue one and `loading` is cleared.
     */
    method LoadDefaultTexture()
      requires Valid()
      modifies this
      ensures Valid()
      ensures FellBack()
    {
      if !threeReady {
        return;
      }
      if sphere.Some? {
        RemoveOnly(sphere.value);
        sceneGraph := Remove(sceneGraph, sphere.value);
        sphere := None;
      }
      var mesh := Mesh(meshCount, FlatColour(FallbackColour));
      meshCount := meshCount + 1;
      sphere := Some(mesh);
      sceneGraph := sceneGraph + [mesh];
      data := data.(loading := false);
    }

    /**
     * `onSceneSelect`: choosing the current index, or an index with no
     * catalog entry, changes nothing; any other index becomes current,
     * `loading` is set and its scene is loaded.
     */
    method OnSceneSelect(index: int, pick: nat) returns (requested: Option<string>)
      requires Valid() && pick < |DefaultTextures|
      modifies this
      ensures Valid()
      ensures index == old(data.currentSceneIndex) ==> unchanged(this) && requested == None
      ensures index != old(data.currentSceneIndex) && !(0 <= index < |old(data.naviData)|) ==> unchanged(this) && requested == None
      ensures index != old(data.currentSceneIndex) && 0 <= index < |old(data.naviData)| ==>
                && Graph() == old(Graph()) && Drag() == old(Drag())
                && data == old(data).(currentSceneIndex := index, loading := true,
                                          currentScene := if old(threeReady) then Some(old(data.naviData)[index]) else old(data.currentScene))
                && requested == if old(threeReady) then Some(TextureUrl(old(data.naviData)[index], DefaultTextures, pick)) else None
    {
      if index == data.currentSceneIndex {
        return None;
      }
      if 0 <= index < |data.naviData| {
        data := data.(currentSceneIndex := index, loading := true);
        requested := LoadScene(data.naviData[index], pick);
      } else {
        requested := None;
      }
    }

    /** `onRetry`: with a house id the catalog is reloaded; without one the page's own `onLoad` only navigates back. */
    method OnRetry() returns (requested: Option<string>)
      requires Valid()
      modifies this
      ensures Valid()
      ensures !Truthy(old(data.houseId)) ==> unchanged(this) && requested == None
      ensures Truthy(old(data.houseId)) ==>
                && data == old(data).(naviData := DemoScenes(), currentSceneIndex := 0, showSceneSelector := true,
                                          currentScene := if old(threeReady) then Some(DemoScenes()[0]) else old(data.currentScene),
                                          loading := true, error := None)
                && Graph() == old(Graph()) && Drag() == old(Drag())
                && requested == (if old(threeReady) then Some(DefaultTextures[0]) else None)
    {
      if !Truthy(data.houseId) {
        return None;
      }
      data := data.(loading := true, error := None);
      requested := LoadHouseInfo();
    }

    /** `onTouchStart`: dragging starts from the touch point. */
    method OnTouchStart(x: real, y: real)
      modifies this
      ensures Drag() == old(Drag()).(isDragging := true, prevX := x, prevY := y)
      ensures data == old(data) && Graph() == old(Graph())
    {
      isDragging := true;
      prevX := x;
      prevY := y;
    }

    /**
     * `onTouchMove`: while dragging, the longitude falls by a tenth of the
     * horizontal move and the latitude rises by a tenth of the vertical
     * one (unclamped); the touch point becomes the new reference.
     */
    method OnTouchMove(x: real, y: real)
      modifies this
      ensures !old(isDragging) ==> unchanged(this)
      ensures old(isDragging) ==>
                && Drag() == DragState(true, x, y, old(lon) - (x - old(prevX)) * 0.1, old(lat) + (y - old(prevY)) * 0.1)
                && data == old(data) && Graph() == old(Graph())
    {
      if !isDragging {
        return;
      }
      var deltaX := x - prevX;
      var deltaY := y - prevY;
      lon := lon - deltaX * 0.1;
      lat := lat + deltaY * 0.1;
      prevX := x;
      prevY := y;
    }

    method OnTouchEnd()
      modifies this
      ensures Drag() == old(Drag()).(isDragging := false)
      ensures data == old(data) && Graph() == old(Graph())
    {
      isDragging := false;
    }

    /**
     * `updateCameraRotation`, which the render loop runs every frame:
     * with Three.js set up the latitude is clamped to [-85, 85].
     */
    method UpdateCameraRotation()
      modifies this
      ensures threeReady ==> -LatLimit <= lat <= LatLimit
      ensures !old(threeReady) ==> unchanged(this)
      ensures old(threeReady) ==> Drag() == old(Drag()).(lat := ClampLat(old(lat)))
      ensures data == old(data) && Graph() == old(Graph())
    {
      if !threeReady {
        return;
      }
      lat := ClampLat(lat);
    }

    /** `onUnload`: the renderer, scene and `THREE` are dropped; `this.sphere` is kept. */
    method OnUnload()
      requires Valid()
      modifies this
      ensures Valid()
      ensures Graph() == old(Graph()).(threeReady := false, sceneGraph := [])
      ensures data == old(data) && Drag() == old(Drag())
    {
      threeReady := false;
      sceneGraph := [];
    }
  }
}
