/**
 * The panorama viewer with the house's own VR scenes (`packageA/pages/house-tour`).
 * Scenes come from the backend, images are downloaded before they are
 * decoded, and an assistant chat answers questions about the room.
 */
module HouseTourVr {
  import opened Wrappers
  import opened Text
  import opened Panorama
  import opened Markup

  const FileHost := "https://files.homesee.xyz"
  const DefaultTextures: seq<string> := [
    "https://files.homesee.xyz/api/files/download/客厅.jpg",
    "https://files.homesee.xyz/api/files/download/卧室.jpg",
    "https://files.homesee.xyz/api/files/download/厨房.jpg"]
  const CanvasError := "Canvas初始化失败"
  const NetworkApology := "抱歉，网络连接似乎有点问题。"
  const MockReplyPrefix := "收到您的问题："

  function DemoScenes(): seq<SceneEntry> {
    DemoCatalog(DefaultTextures)
  }

  // ---------------------------------------------------------------------
  // URLs of scene images

  /**
   * `ensureHttps`: an empty URL gives `''`; an `http…` URL has its first
   * `http://` rewritten to `https://`; a path is put on the file host.
   */
  function EnsureHttps(url: Option<string>): (r: string)
    ensures !Truthy(url) ==> r == ""
    ensures Truthy(url) && !StartsWith(url.value, "http") ==> StartsWith(r, FileHost + "/")
  {
    if !Truthy(url) then ""
    else if StartsWith(url.value, "http") then ReplaceFirst(url.value, "http://", "https://")
    else if StartsWith(url.value, "/") then FileHost + url.value
    else FileHost + "/" + url.value
  }

  /** A plain `http://` URL is upgraded: same address, secure scheme. */
  lemma EnsureHttpsUpgrades(u: string)
    requires StartsWith(u, "http://")
    ensures EnsureHttps(Some(u)) == "https://" + u[7..]
  {
    assert OccursAt(u, "http://", 0);
    assert IndexOf(u, "http://") == Some(0);
  }

  /**
   * An `https://` URL stays an `https://` URL, and one that does not
   * mention `http://` anywhere is returned unchanged.
   */
  lemma EnsureHttpsKeepsSecure(u: string)
    requires StartsWith(u, "https://")
    ensures StartsWith(EnsureHttps(Some(u)), "https://")
    ensures !Contains(u, "http://") ==> EnsureHttps(Some(u)) == u
  {
    assert u[..8] == "https://";
    assert forall i :: 1 <= i < 8 ==> u[i] != 'h';
    match IndexOf(u, "http://")
    case None =>
    case Some(k) =>
      assert u[k..k + 7] == "http://";
      assert u[k] == u[k..k + 7][0] == 'h';
      assert u[k + 4] == u[k..k + 7][4] == ':';
      assert u[4] == 's';
      assert k >= 8;
      var r := u[..k] + "https://" + u[k + 7..];
      assert r[..8] == u[..8];
  }

  /**
   * A path that is not a URL becomes a file-host URL ending in that path,
   * joined to the host by exactly one slash whether or not it starts with one.
   */
  lemma EnsureHttpsPutsPathOnHost(u: string)
    requires u != "" && !StartsWith(u, "http")
    ensures var r := EnsureHttps(Some(u));
            StartsWith(r, FileHost + "/") && |u| <= |r| && r[|r| - |u|..] == u
    ensures EnsureHttps(Some(u)) == FileHost + "/" + (if StartsWith(u, "/") then u[1..] else u)
  {
    if StartsWith(u, "/") {
      var r := FileHost + u;
      assert r[..|FileHost| + 1] == FileHost + "/";
      assert r[|r| - |u|..] == u;
      assert u == "/" + u[1..];
    } else {
      var r := FileHost + "/" + u;
      assert r[..|FileHost| + 1] == FileHost + "/";
      assert r[|r| - |u|..] == u;
    }
  }

  // ---------------------------------------------------------------------
  // The backend's scene list

  /** One element of `/api/vr-scenes/{houseId}`'s `data`. */
  datatype BackendScene = BackendScene(id: Option<int>, sceneName: Option<string>, imageUrl: Option<string>)

  /** The resolved body; `None` stands for a rejected request or an empty body. */
  datatype VrResponse = VrResponse(success: bool, data: Option<seq<BackendScene>>)

  /** The catalog entry built from a backend scene. */
  function ToEntry(b: BackendScene): SceneEntry
    requires b.id.Some?
  {
    var u := EnsureHttps(b.imageUrl);
    SceneEntry(PhotoKey(IntToString(b.id.value)), b.sceneName, None, Some(u), Some(u))
  }

  /** `map(...)`; `None` when an id is missing and `scene.id.toString()` throws. */
  function MapScenes(list: seq<BackendScene>): (r: Option<seq<SceneEntry>>)
    ensures r.Some? <==> forall i :: 0 <= i < |list| ==> list[i].id.Some?
    ensures r.Some? ==> |r.value| == |list| && forall i :: 0 <= i < |list| ==> r.value[i] == ToEntry(list[i])
  {
    if list == [] then Some([])
    else if list[0].id.None? then None
    else match MapScenes(list[1..])
      case None => None
      case Some(rest) => Some([ToEntry(list[0])] + rest)
  }

  predicate Usable(res: Option<VrResponse>) {
    res.Some? && res.value.success && res.value.data.Some? && |res.value.data.value| > 0
  }

  /**
   * The catalog `loadVrScenes` installs: the backend's scenes one for one
   * and in order when there are any, otherwise (also after an error) the
   * demo scenes. It is never empty.
   */
  function VrCatalog(res: Option<VrResponse>): (r: seq<SceneEntry>)
    ensures r != []
    ensures Usable(res) && MapScenes(res.value.data.value).Some? ==>
              |r| == |res.value.data.value| && forall i :: 0 <= i < |r| ==> r[i] == ToEntry(res.value.data.value[i])
    ensures !Usable(res) || MapScenes(res.value.data.value).None? ==> r == DemoScenes()
  {
    if Usable(res) && MapScenes(res.value.data.value).Some? then MapScenes(res.value.data.value).value
    else DemoScenes()
  }

  // ---------------------------------------------------------------------
  // The assistant's reply

  /** The length of a `<[^>]+>` tag at the start of `s`, 0 if there is none. */
  function TagLength(s: string): (n: nat)
    ensures n == 0 || 3 <= n <= |s|
  {
    if s != [] && s[0] == '<' then
      match CharIndex(s, '>')
      case Some(j) => if j >= 2 then j + 1 else 0
      case None => 0
    else 0
  }

  /** `s.replace(/<[^>]+>/g, '')` */
  function RemoveTags(s: string): (r: string)
    ensures forall i :: 0 <= i < |r| ==> r[i] in s
    ensures s != [] && s[0] != '<' ==> r != [] && r[0] == s[0]
    decreases |s|
  {
    if s == [] then []
    else if TagLength(s) > 0 then RemoveTags(s[TagLength(s)..])
    else [s[0]] + RemoveTags(s[1..])
  }

  /**
   * No `<[^>]+>` tag occurs in `r`: a `<` that has a `>` somewhere after
   * it is immediately followed by one.
   */
  predicate NoTag(r: string) {
    forall i, j :: 0 <= i < j < |r| && r[i] == '<' && r[j] == '>' ==> r[i + 1] == '>'
  }

  lemma {:induction false} RemoveTagsLeavesNoTag(s: string)
    ensures NoTag(RemoveTags(s))
    decreases |s|
  {
    if s == [] {
    } else if TagLength(s) > 0 {
      RemoveTagsLeavesNoTag(s[TagLength(s)..]);
    } else {
      var rest := RemoveTags(s[1..]);
      RemoveTagsLeavesNoTag(s[1..]);
      var r := [s[0]] + rest;
      forall i, j | 0 <= i < j < |r| && r[i] == '<' && r[j] == '>'
        ensures r[i + 1] == '>'
      {
        if i == 0 {
          assert rest[j - 1] == '>' && rest[j - 1] in s[1..];
          match CharIndex(s, '>')
          case None =>
            assert false;
          case Some(k) =>
            assert k == 1;
            assert s[1..][0] == '>';
        } else {
          assert rest[i - 1] == '<' && rest[j - 1] == '>';
        }
      }
    }
  }

  lemma NoTagSlice(s: string, a: nat, b: nat)
    requires NoTag(s) && a <= b <= |s|
    ensures NoTag(s[a..b])
  {
    var t := s[a..b];
    forall i, j | 0 <= i < j < |t| && t[i] == '<' && t[j] == '>'
      ensures t[i + 1] == '>'
    {
      assert s[a + i] == '<' && s[a + j] == '>';
    }
  }

  /**
   * The displayed reply: line breaks and paragraph ends become newlines,
   * every other tag is removed, and the result is trimmed.
   */
  function StripReply(message: string): string {
    Trim(RemoveTags(ReplaceParagraphEnds(ReplaceBreaks(message))))
  }

  /** The displayed reply holds no tag and neither starts nor ends with white space. */
  lemma StripReplyIsClean(message: string)
    ensures var r := StripReply(message);
            NoTag(r) && (r == [] || (!IsWhitespace(r[0]) && !IsWhitespace(r[|r| - 1])))
  {
    var y := ReplaceParagraphEnds(ReplaceBreaks(message));
    var x := RemoveTags(y);
    RemoveTagsLeavesNoTag(y);
    InfixKeepsNoTag(x, Trim(x));
    assert StripReply(message) == Trim(x);
  }

  /** Any piece cut out of a tag-free string is tag-free, the trimmed string among them. */
  lemma InfixKeepsNoTag(x: string, r: string)
    requires NoTag(x) && exists k: nat :: OccursAt(x, r, k)
    ensures NoTag(r)
  {
    var k: nat :| OccursAt(x, r, k);
    NoTagSlice(x, k, k + |r|);
    assert x[k..k + |r|] == r;
  }

  /** Text without markup before the rest is kept by tag removal. */
  lemma {:induction false} TagsKeepPlain(a: string, b: string)
    requires '<' !in a
    ensures RemoveTags(a + b) == a + RemoveTags(b)
    decreases |a|
  {
    if a != [] {
      var s := a + b;
      assert s[0] == a[0] != '<';
      assert s[1..] == a[1..] + b;
      TagsKeepPlain(a[1..], b);
      assert RemoveTags(s) == [a[0]] + RemoveTags(s[1..]);
      assert a == [a[0]] + a[1..];
    } else {
      assert a + b == b;
    }
  }

  /** Without a `>` there is no tag, so every `<` is kept as text. */
  lemma {:induction false} NoCloseKeepsAll(s: string)
    requires '>' !in s
    ensures RemoveTags(s) == s
    decreases |s|
  {
    if s != [] {
      assert CharIndex(s, '>').None?;
      assert '>' !in s[1..];
      NoCloseKeepsAll(s[1..]);
      assert s == [s[0]] + s[1..];
    }
  }

  /** A whole `<[^>]+>` tag in front of the rest is removed, and only it. */
  lemma TagRemoved(t: string, b: string)
    requires t != [] && TagLength(t) == |t|
    ensures RemoveTags(t + b) == RemoveTags(b)
  {
    var s := t + b;
    var j := CharIndex(t, '>').value;
    assert j + 1 == |t| && s[j] == '>';
    assert forall k :: 0 <= k < j ==> s[k] == t[k];
    assert CharIndex(s, '>') == Some(j);
    assert TagLength(s) == |t| && s[|t|..] == b;
  }

  /** A reply without markup is shown as it came, only trimmed. */
  lemma StripReplyOfPlainText(message: string)
    requires '<' !in message
    ensures StripReply(message) == Trim(message)
  {
    var e: string := [];
    assert message + e == message;
    BreaksKeepPlain(message, e);
    ParagraphEndsKeepPlain(message, e);
    TagsKeepPlain(message, e);
  }

  /**
   * A line break between two pieces of plain text is shown as a newline,
   * and both pieces are kept.
   */
  lemma StripReplyOfBreak(a: string, b: string)
    requires '<' !in a && '<' !in b
    ensures StripReply(a + "<br>" + b) == Trim(a + "\n" + b)
  {
    var e: string := [];
    assert a + "<br>" + b == a + ("<br>" + b);
    BreaksKeepPlain(a, "<br>" + b);
    BreakBecomesNewline(b);
    BreaksKeepPlain(b, e);
    assert b + e == b;
    var x := a + "\n" + b;
    assert ReplaceBreaks(a + "<br>" + b) == x;
    assert '<' !in x;
    assert x + e == x;
    ParagraphEndsKeepPlain(x, e);
    TagsKeepPlain(x, e);
  }

  datatype Role = User | Assistant
  datatype ChatMessage = ChatMessage(role: Role, content: string)

  /**
   * What the chat request came to: a successful response carrying
   * `message` (`None` when it is not a string, so `.replace` throws), a
   * response without `success`, or a rejected request.
   */
  datatype AiReply = Answered(message: Option<string>) | Unanswered | Failed

  /** The assistant message that follows the user's `text`. */
  function ReplyText(reply: AiReply, text: string): string {
    match reply
    case Answered(Some(m)) => StripReply(m)
    case Answered(None) => NetworkApology
    case Unanswered => MockReplyPrefix + text
    case Failed => NetworkApology
  }

  /** The chat side of the page  */
  datatype ChatState = ChatState(inputText: string, messages: seq<ChatMessage>, aiLoading: bool, scrollToMessageId: string)

  /** How `wx.downloadFile` ended: `success` with a status code, or `fail`. */
  datatype DownloadOutcome = Downloaded(statusCode: int) | DownloadFailed

  /** The backend's scene list is used: it is non-empty and every scene has an id. */
  predicate FromBackend(vr: Option<VrResponse>) {
    Usable(vr) && MapScenes(vr.value.data.value).Some?
  }

  /**
   * The page data after `loadVrScenes`: the catalog at index 0, its first
   * entry current once Three.js is set up; the backend path always sets
   * `loading`, the demo path shows the scene selector.
   */
  function ScenesLoaded(d: PageData, threeReady: bool, vr: Option<VrResponse>): (r: PageData)
    ensures r.naviData == VrCatalog(vr) && r.currentSceneIndex == 0
    ensures r.houseId == d.houseId && r.error == d.error
    ensures threeReady ==> r.loading && r.currentScene == Some(r.naviData[0])
  {
    var c := VrCatalog(vr);
    d.(naviData := c, currentSceneIndex := 0,
       showSceneSelector := if FromBackend(vr) then d.showSceneSelector else true,
       currentScene := if threeReady then Some(c[0]) else d.currentScene,
       loading := threeReady || d.loading || FromBackend(vr))
  }

  class TourVrPage {
    /** The scene part of the page data, written by `setData`. */
    var data: PageData
    /** The assistant part of the page data. */
    var chat: ChatState

    /** `this.scene`, `this.THREE` and `this.renderer` are set. */
    var threeReady: bool
    var sceneGraph: seq<Mesh>
    var sphere: Option<Mesh>
    var meshCount: nat

    var isDragging: bool
    var prevX: real
    var prevY: real
    var lon: real
    var lat: real

    function Drag(): DragState
      reads this
    {
      DragState(isDragging, prevX, prevY, lon, lat)
    }

    function Graph(): GraphState
      reads this
    {
      GraphState(threeReady, sceneGraph, sphere, meshCount)
    }

    /** The scene holds at most one mesh, the current sphere; without Three.js there is no scene. */
    ghost predicate Valid()
      reads this
    {
      && (threeReady ==> sceneGraph == [] || (sphere.Some? && sceneGraph == [sphere.value]))
      && (!threeReady ==> sceneGraph == [])
      && (sphere.Some? ==> sphere.value.serial < meshCount)
    }

    /** The page's initial `data`. */
    constructor()
      ensures Valid()
      ensures data == PageData(Some(""), [], 0, None, true, None, false)
      ensures chat == ChatState("", [], false, "")
      ensures Graph() == GraphState(false, [], None, 0)
      ensures !isDragging
    {
      data := PageData(Some(""), [], 0, None, true, None, false);
      chat := ChatState("", [], false, "");
      threeReady := false;
      sceneGraph := [];
      sphere := None;
      meshCount := 0;
      isDragging := false;
      prevX := 0.0;
      prevY := 0.0;
      lon := 0.0;
      lat := 0.0;
    }

    /**
     * `onLoad`: records the house id and sets up Three.js; with an id the
     * house and its scenes are fetched (the room request rejecting ends the
     * loading with nothing shown), without one the demo scenes are shown.
     */
    method OnLoad(id: Option<string>, altId: Option<string>, canvasFound: bool,
                  roomResolved: bool, vr: Option<VrResponse>, pick: nat) returns (requested: Option<string>)
      requires Valid() && pick < |DefaultTextures|
      modifies this
      ensures Valid()
      ensures chat == old(chat)
      ensures var hid := if Truthy(id) then id else altId;
              && (!canvasFound ==>
                    && data == old(data).(houseId := hid, loading := false, error := Some(CanvasError))
                    && Graph() == old(Graph()) && Drag() == old(Drag()) && requested == None)
              && (canvasFound ==>
                    && Graph() == old(Graph()).(threeReady := true, sceneGraph := [])
                    && Drag() == DragState(false, 0.0, 0.0, 0.0, 0.0))
              && (canvasFound && !Truthy(hid) ==>
                    && data == old(data).(houseId := hid, naviData := DemoScenes(), currentSceneIndex := 0,
                                          showSceneSelector := true, currentScene := Some(DemoScenes()[0]), loading := false)
                    && requested == Some(DefaultTextures[0]))
              && (canvasFound && Truthy(hid) && !roomResolved ==>
                    data == old(data).(houseId := hid, loading := false) && requested == None)
              && (canvasFound && Truthy(hid) && roomResolved ==>
                    && data == ScenesLoaded(old(data).(houseId := hid, loading := true), true, vr)
                    && requested == Some(TextureUrl(VrCatalog(vr)[0], DefaultTextures, pick)))
    {
      var hid := if Truthy(id) then id else altId;
      data := data.(houseId := hid, loading := true);
      if !canvasFound {
        data := data.(error := Some(CanvasError), loading := false);
        return None;
      }
      InitThree();
      if Truthy(hid) {
        requested := LoadHouseInfo(roomResolved, vr, pick);
      } else {
        requested := CreateDemoScenes();
        data := data.(loading := false);
      }
    }

    /**
     * `onRetry`: with a house id, loading restarts with the error cleared and
     * the house is fetched again; without one, `onLoad` runs again on the
     * page's own options (`id`, `altId`), this page being the current one.
     */
    method OnRetry(id: Option<string>, altId: Option<string>, canvasFound: bool,
                   roomResolved: bool, vr: Option<VrResponse>, pick: nat) returns (requested: Option<string>)
      requires Valid() && pick < |DefaultTextures|
      modifies this
      ensures Valid()
      ensures chat == old(chat)
      ensures Truthy(old(data.houseId)) ==>
                && Graph() == old(Graph()) && Drag() == old(Drag())
                && (!roomResolved ==> data == old(data).(loading := false, error := None) && requested == None)
                && (roomResolved ==>
                      && data == ScenesLoaded(old(data).(loading := true, error := None), old(threeReady), vr)
                      && requested == if old(threeReady) then Some(TextureUrl(VrCatalog(vr)[0], DefaultTextures, pick)) else None)
      ensures var hid := if Truthy(id) then id else altId;
              && (!Truthy(old(data.houseId)) && !canvasFound ==>
                    && data == old(data).(houseId := hid, loading := false, error := Some(CanvasError))
                    && Graph() == old(Graph()) && Drag() == old(Drag()) && requested == None)
              && (!Truthy(old(data.houseId)) && canvasFound ==>
                    && Graph() == old(Graph()).(threeReady := true, sceneGraph := [])
                    && Drag() == DragState(false, 0.0, 0.0, 0.0, 0.0))
              && (!Truthy(old(data.houseId)) && canvasFound && !Truthy(hid) ==>
                    && data == old(data).(houseId := hid, naviData := DemoScenes(), currentSceneIndex := 0,
                                          showSceneSelector := true, currentScene := Some(DemoScenes()[0]), loading := false)
                    && requested == Some(DefaultTextures[0]))
              && (!Truthy(old(data.houseId)) && canvasFound && Truthy(hid) && !roomResolved ==>
                    data == old(data).(houseId := hid, loading := false) && requested == None)
              && (!Truthy(old(data.houseId)) && canvasFound && Truthy(hid) && roomResolved ==>
                    && data == ScenesLoaded(old(data).(houseId := hid, loading := true), true, vr)
                    && requested == Some(TextureUrl(VrCatalog(vr)[0], DefaultTextures, pick)))
    {
      if Truthy(data.houseId) {
        data := data.(loading := true, error := None);
        requested := LoadHouseInfo(roomResolved, vr, pick);
      } else {
        requested := OnLoad(id, altId, canvasFound, roomResolved, vr, pick);
      }
    }

    /** `initThree`: a new, empty scene, the drag state reset, and the first frame drawn. */
    method InitThree()
      requires Valid()
      modifies this
      ensures Valid()
      ensures data == old(data) && chat == old(chat)
      ensures Graph() == old(Graph()).(threeReady := true, sceneGraph := [])
      ensures Drag() == DragState(false, 0.0, 0.0, 0.0, 0.0)
    {
      threeReady := true;
      sceneGraph := [];
      isDragging := false;
      prevX := 0.0;
      prevY := 0.0;
      lon := 0.0;
      lat := 0.0;
      UpdateCameraRotation();
    }

    /**
     * `loadHouseInfo`: the room lookup, then the scene list; `roomResolved`
     * says whether the room request resolved, and a rejection ends loading.
     */
    method LoadHouseInfo(roomResolved: bool, vr: Option<VrResponse>, pick: nat) returns (requested: Option<string>)
      requires Valid() && pick < |DefaultTextures|
      modifies this
      ensures Valid()
      ensures chat == old(chat) && Drag() == old(Drag())
      ensures Graph() == old(Graph())
      ensures !roomResolved ==> data == old(data).(loading := false) && requested == None
      ensures roomResolved ==>
                && data == ScenesLoaded(old(data), old(threeReady), vr)
                && requested == if old(threeReady) then Some(TextureUrl(VrCatalog(vr)[0], DefaultTextures, pick)) else None
    {
      if !roomResolved {
        data := data.(loading := false);
        return None;
      }
      requested := LoadVrScenes(vr, pick);
    }

    /**
     * `loadVrScenes`: a non-empty list from the backend becomes the
     * catalog and its first scene is loaded; otherwise, or when mapping
     * the list throws, the demo scenes are used.
     */
    method LoadVrScenes(vr: Option<VrResponse>, pick: nat) returns (requested: Option<string>)
      requires Valid() && pick < |DefaultTextures|
      modifies this
      ensures Valid()
      ensures chat == old(chat) && Drag() == old(Drag()) && Graph() == old(Graph())
      ensures data == ScenesLoaded(old(data), old(threeReady), vr)
      ensures requested == if old(threeReady) then Some(TextureUrl(VrCatalog(vr)[0], DefaultTextures, pick)) else None
    {
      if Usable(vr) {
        match MapScenes(vr.value.data.value)
        case Some(scenes) =>
          data := data.(naviData := scenes, currentSceneIndex := 0, loading := true);
          requested := LoadScene(scenes[0], pick);
          return;
        case None =>
      }
      requested := CreateDemoScenes();
    }

    /** `createDemoScenes`: install the demo catalog at index 0 and load its first scene. */
    method CreateDemoScenes() returns (requested: Option<string>)
      requires Valid()
      modifies this
      ensures Valid()
      ensures data == old(data).(naviData := DemoScenes(), currentSceneIndex := 0, showSceneSelector := true,
                                     currentScene := if old(threeReady) then Some(DemoScenes()[0]) else old(data.currentScene),
                                     loading := old(threeReady) || old(data.loading))
      ensures chat == old(chat) && Graph() == old(Graph()) && Drag() == old(Drag())
      ensures requested == if old(threeReady) then Some(DefaultTextures[0]) else None
    {
      data := data.(naviData := DemoScenes(), currentSceneIndex := 0, showSceneSelector := true);
      // the demo entries carry a url, so no default texture is drawn
      requested := LoadScene(DemoScenes()[0], 0);
    }

    /**
     * `loadScene`: before Three.js is set up, nothing happens. Otherwise
     * the entry becomes current, `loading` is set, and the returned URL is
     * downloaded.
     */
    method LoadScene(entry: SceneEntry, pick: nat) returns (requested: Option<string>)
      requires Valid() && pick < |DefaultTextures|
      modifies this
      ensures Valid()
      ensures !old(threeReady) ==> unchanged(this) && requested == None
      ensures old(threeReady) ==>
                && data == old(data).(currentScene := Some(entry), loading := true)
                && chat == old(chat) && Graph() == old(Graph()) && Drag() == old(Drag())
                && requested == Some(TextureUrl(entry, DefaultTextures, pick))
    {
      if !threeReady {
        return None;
      }
      data := data.(currentScene := Some(entry), loading := true);
      requested := Some(TextureUrl(entry, DefaultTextures, pick));
    }

    /**
     * The download's `success`/`fail`: a 200 response goes on to decoding
     * the file; any other status or a failure falls back.
     */
    method OnDownload(outcome: DownloadOutcome) returns (decodeStarted: bool)
      modifies this
      ensures decodeStarted <==> outcome == Downloaded(200)
      ensures decodeStarted ==> unchanged(this)
      ensures !decodeStarted ==> data == old(data).(loading := false)
      ensures chat == old(chat) && Graph() == old(Graph()) && Drag() == old(Drag())
    {
      if outcome == Downloaded(200) {
        return true;
      }
      LoadDefaultTexture();
      return false;
    }

    /**
     * The decoded image's `onload`: the old sphere is removed, a sphere
     * textured with `source` added, the view reset and `loading` cleared.
     * After `onUnload` the callback stops with a TypeError at the first
     * use of `this.scene`.
     */
    method OnImageLoad(source: string)
      requires Valid()
      modifies this
      ensures Valid()
      ensures chat == old(chat)
      ensures old(threeReady) ==>
                && sphere == Some(Mesh(old(meshCount), Textured(source)))
                && sceneGraph == [sphere.value] && (old(sphere).Some? ==> old(sphere).value !in sceneGraph)
                && threeReady && meshCount == old(meshCount) + 1
                && data == old(data).(loading := false)
                && Drag() == old(Drag()).(lon := 0.0, lat := 0.0)
      ensures !old(threeReady) && old(sphere).Some? ==> unchanged(this)
      ensures !old(threeReady) && old(sphere).None? ==>
                && Graph() == old(Graph()).(sphere := Some(Mesh(old(meshCount), Textured(source))), meshCount := old(meshCount) + 1)
                && data == old(data) && Drag() == old(Drag())
    {
      if sphere.Some? {
        if !threeReady {
          return;
        }
        sceneGraph := Remove(sceneGraph, sphere.value);
      }
      var mesh := Mesh(meshCount, Textured(source));
      meshCount := meshCount + 1;
      sphere := Some(mesh);
      if !threeReady {
        return;
      }
      sceneGraph := sceneGraph + [mesh];
      lon := 0.0;
      lat := 0.0;
      UpdateCameraRotation();
      data := data.(loading := false);
    }

    /** The decoded image's `onerror`. */
    method OnImageError()
      modifies this
      ensures data == old(data).(loading := false)
      ensures chat == old(chat) && Graph() == old(Graph()) && Drag() == old(Drag())
    {
      LoadDefaultTexture();
    }

    /** `loadDefaultTexture`: only `loading` is cleared; the scene keeps whatever it shows. */
    method LoadDefaultTexture()
      modifies this
      ensures data == old(data).(loading := false)
      ensures chat == old(chat) && Graph() == old(Graph()) && Drag() == old(Drag())
    {
      data := data.(loading := false);
    }

    /**
     * `onSceneSelect`: choosing the current index, or an index with no
     * catalog entry, changes nothing; any other index becomes current,
     * `loading` is set and its scene is loaded.
     */
    method OnSceneSelect(index: int, pick: nat) returns (requested: Option<string>)
      requires Valid() && pick < |DefaultTextures|
      modifies this
      ensures Valid()
      ensures index == old(data.currentSceneIndex) ==> unchanged(this) && requested == None
      ensures index != old(data.currentSceneIndex) && !(0 <= index < |old(data.naviData)|) ==> unchanged(this) && requested == None
      ensures index != old(data.currentSceneIndex) && 0 <= index < |old(data.naviData)| ==>
                && chat == old(chat) && Graph() == old(Graph()) && Drag() == old(Drag())
                && data == old(data).(currentSceneIndex := index, loading := true,
                                          currentScene := if old(threeReady) then Some(old(data.naviData)[index]) else old(data.currentScene))
                && requested == if old(threeReady) then Some(TextureUrl(old(data.naviData)[index], DefaultTextures, pick)) else None
    {
      if index == data.currentSceneIndex {
        return None;
      }
      if 0 <= index < |data.naviData| {
        data := data.(currentSceneIndex := index, loading := true);
        requested := LoadScene(data.naviData[index], pick);
      } else {
        requested := None;
      }
    }

    /** `onTouchStart`: dragging starts from the touch point. */
    method OnTouchStart(x: real, y: real)
      modifies this
      ensures Drag() == old(Drag()).(isDragging := true, prevX := x, prevY := y)
      ensures data == old(data) && chat == old(chat) && Graph() == old(Graph())
    {
      isDragging := true;
      prevX := x;
      prevY := y;
    }

    /**
     * `onTouchMove`: while dragging, the longitude falls by a tenth of the
     * horizontal move and the latitude rises by a tenth of the vertical
     * one (unclamped); the touch point becomes the new reference.
     */
    method OnTouchMove(x: real, y: real)
      modifies this
      ensures !old(isDragging) ==> unchanged(this)
      ensures old(isDragging) ==>
                && Drag() == DragState(true, x, y, old(lon) - (x - old(prevX)) * 0.1, old(lat) + (y - old(prevY)) * 0.1)
                && data == old(data) && chat == old(chat) && Graph() == old(Graph())
    {
      if !isDragging {
        return;
      }
      var deltaX := x - prevX;
      var deltaY := y - prevY;
      lon := lon - deltaX * 0.1;
      lat := lat + deltaY * 0.1;
      prevX := x;
      prevY := y;
    }

    method OnTouchEnd()
      modifies this
      ensures Drag() == old(Drag()).(isDragging := false)
      ensures data == old(data) && chat == old(chat) && Graph() == old(Graph())
    {
      isDragging := false;
    }

    /** `updateCameraRotation`, run every frame: with Three.js set up the latitude is clamped to [-85, 85]. */
    method UpdateCameraRotation()
      modifies this
      ensures threeReady ==> -LatLimit <= lat <= LatLimit
      ensures !old(threeReady) ==> unchanged(this)
      ensures old(threeReady) ==> Drag() == old(Drag()).(lat := ClampLat(old(lat)))
      ensures data == old(data) && chat == old(chat) && Graph() == old(Graph())
    {
      if !threeReady {
        return;
      }
      lat := ClampLat(lat);
    }

    /** `onUnload`: the renderer, scene and `THREE` are dropped; `this.sphere` is kept. */
    method OnUnload()
      requires Valid()
      modifies this
      ensures Valid()
      ensures Graph() == old(Graph()).(threeReady := false, sceneGraph := [])
      ensures data == old(data) && chat == old(chat) && Drag() == old(Drag())
    {
      threeReady := false;
      sceneGraph := [];
    }

    /** `onInput`: the typed text becomes the input that `sendMessage` reads. */
    method OnInput(value: string)
      modifies this
      ensures chat == old(chat).(inputText := value)
      ensures data == old(data) && Graph() == old(Graph()) && Drag() == old(Drag())
    {
      chat := chat.(inputText := value);
    }

    /**
     * `sendMessage`: blank input, or a question still being answered,
     * changes nothing. Otherwise the trimmed question and then the reply
     * are appended, the input is cleared, the view scrolls to the last
     * message and `aiLoading` ends false.
     */
    method SendMessage(reply: AiReply)
      modifies this
      ensures var text := Trim(old(chat.inputText));
              (text == "" || old(chat.aiLoading)) ==> unchanged(this)
      ensures var text := Trim(old(chat.inputText));
              !(text == "" || old(chat.aiLoading)) ==>
                && chat.messages == old(chat.messages) + [ChatMessage(User, text), ChatMessage(Assistant, ReplyText(reply, text))]
                && chat.inputText == "" && !chat.aiLoading
                && chat.scrollToMessageId == "msg-" + IntToString(|chat.messages| - 1)
      ensures data == old(data) && Graph() == old(Graph()) && Drag() == old(Drag())
    {
      var text := Trim(chat.inputText);
      if text == "" || chat.aiLoading {
        return;
      }
      var newMessages := chat.messages + [ChatMessage(User, text)];
      chat := chat.(messages := newMessages, inputText := "", aiLoading := true, scrollToMessageId := "msg-" + IntToString(|newMessages| - 1));
      var answer := ReplyText(reply, text);
      var updated := newMessages + [ChatMessage(Assistant, answer)];
      chat := chat.(messages := updated, scrollToMessageId := "msg-" + IntToString(|updated| - 1), aiLoading := false);
    }
  }
}
