/**
 * The home tab: the signed-in user's name, avatar and menu, their viewing
 * appointments with status texts, the feature cards that lead to the
 * other pages, and the header that changes once the page is scrolled.
 */
module Home {
  import opened Wrappers
  import opened Text
  import Files

  const DefaultAvatar := "/models/image/default-avatar.png"
  const DefaultName := "用户"
  const AppointmentsPrefix := "/api/viewing-appointment/user/"
  const ScrollThreshold: real := 50.0
  const TabPages := ["home", "house-selection", "smart-matching"]

  /** The stored `user` record, as far as this page reads it. */
  datatype User = User(id: int, realName: Option<string>, username: Option<string>, avatar: Option<string>)

  /** The name in the header: the real name, else the username, else 用户. */
  function DisplayName(user: User): (r: string)
    ensures r != ""
    ensures Truthy(user.realName) ==> r == user.realName.value
    ensures !Truthy(user.realName) && Truthy(user.username) ==> r == user.username.value
    ensures !Truthy(user.realName) && !Truthy(user.username) ==> r == DefaultName
  {
    Or(user.realName, Or(user.username, DefaultName))
  }

  /** `getAvatarUrl`: the shared resolution of a stored file name, with the bundled default image. */
  function AvatarUrl(user: Option<User>): string {
    if user.None? then DefaultAvatar else Files.Resolve(user.value.avatar, DefaultAvatar)
  }

  /** Without a user or an avatar the default image is shown; an avatar is shown from its URL. */
  lemma AvatarUrlSpec(user: Option<User>)
    ensures user.None? || !Truthy(user.value.avatar) ==> AvatarUrl(user) == DefaultAvatar
    ensures user.Some? && Truthy(user.value.avatar) ==>
              StartsWith(AvatarUrl(user), "http")
              && |user.value.avatar.value| <= |AvatarUrl(user)|
              && AvatarUrl(user)[|AvatarUrl(user)| - |user.value.avatar.value|..] == user.value.avatar.value
  {
    if user.Some? && Truthy(user.value.avatar) {
      Files.ResolveIdempotent(user.value.avatar, DefaultAvatar);
      Files.ResolveEndsWithName(user.value.avatar, DefaultAvatar);
    }
  }

  const UnknownStatus := "未知状态"
  const UnknownClass := "status-unknown"

  /** `getAppointmentStatusText` */
  function StatusText(status: Option<int>): string {
    match status
    case Some(0) => "待确认"
    case Some(1) => "已确认"
    case Some(2) => "已完成"
    case Some(3) => "已取消"
    case Some(4) => "已过期"
    case Some(5) => "用户爽约"
    case _ => UnknownStatus
  }

  /** `getStatusClass` */
  function StatusClass(status: Option<int>): string {
    match status
    case Some(0) => "status-pending"
    case Some(1) => "status-confirmed"
    case Some(2) => "status-completed"
    case Some(3) => "status-cancelled"
    case Some(4) => "status-expired"
    case Some(5) => "status-missed"
    case _ => UnknownClass
  }

  /**
   * Both maps know exactly the statuses 0 to 5, give every one of them its
   * own text and class, and send every other status to the unknown entry.
   */
  lemma StatusMapsSpec(a: Option<int>, b: Option<int>)
    ensures StatusText(a) != UnknownStatus <==> a.Some? && 0 <= a.value <= 5
    ensures StatusClass(a) != UnknownClass <==> a.Some? && 0 <= a.value <= 5
    ensures StatusText(a) != UnknownStatus && StatusText(a) == StatusText(b) ==> a == b
    ensures StatusClass(a) != UnknownClass && StatusClass(a) == StatusClass(b) ==> a == b
  {
  }

  /** `typeText`: only type 1 is an on-site viewing. */
  function TypeText(aptType: Option<int>): (r: string)
    ensures r == "现场看房" <==> aptType == Some(1)
    ensures r != "现场看房" ==> r == "视频看房"
  {
    if aptType == Some(1) then "现场看房" else "视频看房"
  }

  /** `formatDate`: 未设置 for a missing time, else the locale rendering `localeDate` of the time. */
  function FormatTime(time: Option<string>, localeDate: string -> string): (r: string)
    ensures !Truthy(time) ==> r == "未设置"
    ensures Truthy(time) ==> r == localeDate(time.value)
  {
    if !Truthy(time) then "未设置" else localeDate(time.value)
  }

  /** An appointment as the server lists it. */
  datatype Visit = Visit(id: int, status: Option<int>, aptType: Option<int>, appointmentTime: Option<string>)

  /** An appointment with the texts the page shows beside it. */
  datatype Shown = Shown(visit: Visit, statusText: string, statusClass: string, typeText: string, formattedTime: string)

  function Show(v: Visit, localeDate: string -> string): Shown {
    Shown(v, StatusText(v.status), StatusClass(v.status), TypeText(v.aptType), FormatTime(v.appointmentTime, localeDate))
  }

  /** A member of a reply object: left out, an array of appointments, or some other value. */
  datatype Member = Absent | Items(items: seq<Visit>) | Scalar

  /** The reply of the appointments request: an array, an object, or a falsy value. */
  datatype ListReply = Array(items: seq<Visit>) | Object(data: Member, content: Member) | Falsy

  /** The list `fetchUserAppointments` shows from a reply of any shape. */
  function ExtractList(res: ListReply): seq<Visit> {
    match res
    case Array(items) => items
    case Falsy => []
    case Object(data, content) =>
      if data.Items? then data.items
      else if content.Items? then content.items
      else []
  }

  /**
   * The list comes from the first of the reply, its `data` and its
   * `content` that is an array; when none is, the list is empty.
   */
  lemma ExtractListSpec(res: ListReply)
    ensures res.Array? ==> ExtractList(res) == res.items
    ensures res.Object? && res.data.Items? ==> ExtractList(res) == res.data.items
    ensures res.Object? && !res.data.Items? && res.content.Items? ==> ExtractList(res) == res.content.items
    ensures ExtractList(res) != [] ==> res.Array? || (res.Object? && (res.data.Items? || res.content.Items?))
  {
  }

  /** The processed list: every appointment, in order, with its texts. */
  function ShowAll(visits: seq<Visit>, localeDate: string -> string): (r: seq<Shown>)
    ensures |r| == |visits|
    ensures forall i :: 0 <= i < |r| ==> r[i] == Show(visits[i], localeDate)
  {
    seq(|visits|, i requires 0 <= i < |visits| => Show(visits[i], localeDate))
  }

  /** Where a feature card leads. */
  datatype Navigation = Stay | SwitchTab(url: string) | NavigateTo(url: string)

  /** `navigateToFeature`: tab pages are switched to, other pages opened, an empty page does nothing. */
  function FeatureNavigation(page: Option<string>): Navigation {
    if !Truthy(page) then Stay
    else
      var url := "/pages/" + page.value + "/" + page.value;
      if page.value in TabPages then SwitchTab(url) else NavigateTo(url)
  }

  /** The URL names the page twice, and only the three tab pages are switched to. */
  lemma FeatureNavigationSpec(page: Option<string>)
    ensures FeatureNavigation(page).Stay? <==> !Truthy(page)
    ensures FeatureNavigation(page).SwitchTab? <==> Truthy(page) && page.value in TabPages
    ensures !FeatureNavigation(page).Stay? ==>
              var url, p := FeatureNavigation(page).url, page.value;
              |url| == 8 + 2 * |p| && url[..7] == "/pages/" && url[7..7 + |p|] == p && url[7 + |p|] == '/' && url[8 + |p|..] == p
  {
    if Truthy(page) {
      var p := page.value;
      var url := "/pages/" + p + "/" + p;
      assert url[..7] == "/pages/" && url[7..7 + |p|] == p && url[7 + |p|] == '/' && url[8 + |p|..] == p;
    }
  }

  /** A reply to the appointments request. */
  datatype Reply = Threw | Answered(res: ListReply)

  datatype HomeData = HomeData(
    user: Option<User>,
    isLoggedIn: bool,
    showUserMenu: bool,
    isScrolled: bool,
    appointments: seq<Shown>,
    loadingAppointments: bool,
    avatarUrl: string,
    displayName: string)

  const InitialData := HomeData(None, false, false, false, [], false, DefaultAvatar, "")

  class HomePage {
    var data: HomeData

    constructor()
      ensures data == InitialData
    {
      data := InitialData;
    }

    /**
     * `checkLoginStatus` (on load and on every show): a stored user signs
     * the page in and requests their appointments; without one the page is
     * signed out and its list cleared.
     */
    method CheckLoginStatus(stored: Option<User>) returns (fetch: Option<string>)
      modifies this
      ensures stored.Some? ==>
                && data == old(data).(user := stored, isLoggedIn := true, displayName := DisplayName(stored.value),
                                      avatarUrl := AvatarUrl(stored), loadingAppointments := true)
                && fetch == Some(AppointmentsPrefix + IntToString(stored.value.id))
      ensures stored.None? ==>
                && data == old(data).(user := None, isLoggedIn := false, displayName := "", avatarUrl := DefaultAvatar, appointments := [])
                && fetch.None?
    {
      if stored.Some? {
        data := data.(user := stored, isLoggedIn := true, displayName := DisplayName(stored.value), avatarUrl := AvatarUrl(stored));
        data := data.(loadingAppointments := true);
        fetch := Some(AppointmentsPrefix + IntToString(stored.value.id));
      } else {
        data := data.(user := None, isLoggedIn := false, displayName := "", avatarUrl := DefaultAvatar, appointments := []);
        fetch := None;
      }
    }

    /** `fetchUserAppointments` after the reply: the list is replaced on a reply and loading always ends. */
    method EndFetchAppointments(reply: Reply, localeDate: string -> string)
      modifies this
      ensures reply.Answered? ==> data == old(data).(appointments := ShowAll(ExtractList(reply.res), localeDate), loadingAppointments := false)
      ensures reply.Threw? ==> data == old(data).(loadingAppointments := false)
    {
      if reply.Answered? {
        data := data.(appointments := ShowAll(ExtractList(reply.res), localeDate));
      }
      data := data.(loadingAppointments := false);
    }

    /** `toggleUserMenu`: only a signed-in user has a menu. */
    method ToggleUserMenu()
      modifies this
      ensures old(data).isLoggedIn ==> data == old(data).(showUserMenu := !old(data).showUserMenu)
      ensures !old(data).isLoggedIn ==> data == old(data)
    {
      if data.isLoggedIn {
        data := data.(showUserMenu := !data.showUserMenu);
      }
    }

    method CloseUserMenu()
      modifies this
      ensures data == old(data).(showUserMenu := false)
    {
      data := data.(showUserMenu := false);
    }

    /**
     * `logout`, after the stored user and token are removed: the page is
     * signed out with its menu closed and its list cleared; the name and
     * avatar shown are left as they were.
     */
    method Logout()
      modifies this
      ensures data == old(data).(user := None, isLoggedIn := false, showUserMenu := false, appointments := [])
    {
      data := data.(user := None, isLoggedIn := false, showUserMenu := false, appointments := []);
    }

    /** `onPageScroll`: the header is in its scrolled style exactly past 50 pixels. */
    method OnPageScroll(scrollTop: real)
      modifies this
      ensures data == old(data).(isScrolled := scrollTop > ScrollThreshold)
    {
      data := data.(isScrolled := scrollTop > ScrollThreshold);
    }
  }
}
