/**
 * The maintenance page: the signed-in tenant's repair requests with a
 * status text and colour for each, loaded one request at a time.
 */
module Maintenance {
  import opened Wrappers
  import opened Text
  import opened Calendar

  const RequestsPrefix := "/api/maintenance/user/"
  const LoadFailed := "加载失败"
  const UnknownText := "未知"
  const UnknownColor := "#999"

  /** `statusMap[status] || '未知'` */
  function StatusText(status: Option<int>): string {
    match status
    case Some(0) => "待处理"
    case Some(1) => "处理中"
    case Some(2) => "已完成"
    case _ => UnknownText
  }

  /** `statusColorMap[status] || '#999'` */
  function StatusColor(status: Option<int>): string {
    match status
    case Some(0) => "#ff9800"
    case Some(1) => "#2196f3"
    case Some(2) => "#4caf50"
    case _ => UnknownColor
  }

  /**
   * The two maps know the same statuses, 0 to 2, give each a text and a
   * colour of its own, and fall back to 未知 in grey together.
   */
  lemma StatusMapsSpec(a: Option<int>, b: Option<int>)
    ensures StatusText(a) != UnknownText <==> a.Some? && 0 <= a.value <= 2
    ensures StatusColor(a) != UnknownColor <==> a.Some? && 0 <= a.value <= 2
    ensures StatusText(a) != UnknownText && StatusText(a) == StatusText(b) ==> a == b
    ensures StatusColor(a) != UnknownColor && StatusColor(a) == StatusColor(b) ==> a == b
  {
  }

  /** `formatDate`: the empty string for a missing time, else the date `date` denotes as `YYYY-MM-DD`. */
  function FormatDate(text: Option<string>, date: string -> Option<DateParts>): string {
    if !Truthy(text) then "" else Ymd(date(text.value))
  }

  /** Only a missing time gives the empty string; a valid date reads back as its year, month (1-based) and day. */
  lemma FormatDateSpec(text: Option<string>, date: string -> Option<DateParts>)
    ensures FormatDate(text, date) == "" <==> !Truthy(text)
    ensures Truthy(text) && date(text.value).Some? && Plausible(date(text.value).value) ==>
              var r, d := FormatDate(text, date), date(text.value).value;
              |r| == 10 && AllDigits(r[..4]) && AllDigits(r[5..7]) && AllDigits(r[8..])
              && DigitsValue(r[..4]) == d.year && DigitsValue(r[5..7]) == d.monthIndex + 1 && DigitsValue(r[8..]) == d.day
  {
    if Truthy(text) {
      match date(text.value)
      case None =>
      case Some(d) =>
        if Plausible(d) {
          YmdReadsBack(d);
        }
    }
  }

  /** A repair request as the server lists it. */
  datatype Item = Item(id: int, status: Option<int>, createTime: Option<string>)

  /** A request with the texts the page shows beside it. */
  datatype Shown = Shown(item: Item, statusText: string, statusColor: string, formattedTime: string)

  function Show(item: Item, date: string -> Option<DateParts>): Shown {
    Shown(item, StatusText(item.status), StatusColor(item.status), FormatDate(item.createTime, date))
  }

  /** Every request, in order, with its texts. */
  function ShowAll(items: seq<Item>, date: string -> Option<DateParts>): (r: seq<Shown>)
    ensures |r| == |items|
    ensures forall i :: 0 <= i < |r| ==> r[i] == Show(items[i], date)
  {
    seq(|items|, i requires 0 <= i < |items| => Show(items[i], date))
  }

  /** The `content` of a reply object: falsy, an array of requests, or some other truthy value. */
  datatype Content = NoContent | Items(items: seq<Item>) | Other

  /**
   * The reply: an array, an object, or `null`/`undefined`. A non-null falsy
   * value (`''`, `0`, `false`) has no `content`, so it is an `Object(NoContent)`.
   */
  datatype ListReply = Array(items: seq<Item>) | Object(content: Content) | Nullish

  /**
   * `Array.isArray(res) ? res : (res.content || [])`, followed by `map`:
   * `None` when reading `content` of a `null` reply, or mapping over a
   * content that is not an array, throws.
   */
  function Extract(res: ListReply): (r: Option<seq<Item>>)
    ensures res.Array? ==> r == Some(res.items)
    ensures res.Object? && res.content.Items? ==> r == Some(res.content.items)
    ensures res.Object? && res.content.NoContent? ==> r == Some([])
    ensures r.None? <==> res.Nullish? || (res.Object? && res.content.Other?)
  {
    match res
    case Array(items) => Some(items)
    case Nullish => None
    case Object(content) =>
      match content
      case Items(items) => Some(items)
      case NoContent => Some([])
      case Other => None
  }

  /** The stored user; only the id is read. */
  datatype User = User(id: int)

  datatype Reply = Threw | Answered(res: ListReply)

  datatype MaintenanceData = MaintenanceData(requests: seq<Shown>, loading: bool, userInfo: Option<User>)

  const InitialData := MaintenanceData([], false, None)

  class MaintenancePage {
    var data: MaintenanceData

    constructor()
      ensures data == InitialData
    {
      data := InitialData;
    }

    /**
     * `loadRequests` up to the request: nothing happens while a load is
     * under way; otherwise loading starts and the user's requests are
     * asked for. Without a user, reading its id throws and the load fails
     * at once.
     */
    method BeginLoad() returns (fetch: Option<string>, toast: Option<string>)
      modifies this
      ensures old(data).loading ==> fetch.None? && toast.None? && data == old(data)
      ensures !old(data).loading && old(data).userInfo.Some? ==>
                fetch == Some(RequestsPrefix + IntToString(old(data).userInfo.value.id)) && toast.None?
                && data == old(data).(loading := true)
      ensures !old(data).loading && old(data).userInfo.None? ==> fetch.None? && toast == Some(LoadFailed) && data == old(data)
    {
      fetch, toast := None, None;
      if data.loading {
        return;
      }
      data := data.(loading := true);
      if data.userInfo.None? {
        data := data.(loading := false);
        toast := Some(LoadFailed);
        return;
      }
      fetch := Some(RequestsPrefix + IntToString(data.userInfo.value.id));
    }

    /**
     * `loadRequests` after the reply: a usable reply replaces the list; a
     * failure shows a toast; either way loading ends.
     */
    method EndLoad(reply: Reply, date: string -> Option<DateParts>) returns (toast: Option<string>)
      modifies this
      ensures !data.loading
      ensures reply.Answered? && Extract(reply.res).Some? ==>
                toast.None? && data == old(data).(requests := ShowAll(Extract(reply.res).value, date), loading := false)
      ensures reply.Threw? || Extract(reply.res).None? ==> toast == Some(LoadFailed) && data == old(data).(loading := false)
    {
      if reply.Answered? && Extract(reply.res).Some? {
        data := data.(requests := ShowAll(Extract(reply.res).value, date), loading := false);
        toast := None;
      } else {
        data := data.(loading := false);
        toast := Some(LoadFailed);
      }
    }

    /**
     * `checkLogin`: a stored user is kept and their requests loaded;
     * without one the page asks the visitor to sign in.
     */
    method CheckLogin(stored: Option<User>) returns (fetch: Option<string>, promptLogin: bool)
      modifies this
      ensures stored.None? ==> promptLogin && fetch.None? && data == old(data)
      ensures stored.Some? && !old(data).loading ==>
                !promptLogin && fetch == Some(RequestsPrefix + IntToString(stored.value.id))
                && data == old(data).(userInfo := stored, loading := true)
      ensures stored.Some? && old(data).loading ==> !promptLogin && fetch.None? && data == old(data).(userInfo := stored)
    {
      if stored.None? {
        return None, true;
      }
      promptLogin := false;
      data := data.(userInfo := stored);
      var toast;
      fetch, toast := BeginLoad();
    }

    /** `onShow`: a page that knows its user reloads. */
    method OnShow() returns (fetch: Option<string>)
      modifies this
      ensures old(data).userInfo.None? || old(data).loading ==> fetch.None? && data == old(data)
      ensures old(data).userInfo.Some? && !old(data).loading ==>
                fetch == Some(RequestsPrefix + IntToString(old(data).userInfo.value.id)) && data == old(data).(loading := true)
    {
      fetch := None;
      if data.userInfo.Some? {
        var toast;
        fetch, toast := BeginLoad();
      }
    }
  }
}
