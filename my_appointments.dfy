/**
 * The tenant's "my appointments" page: the viewing appointments with
 * their status badges, and the current lease, which is the first contract
 * that is signed or running, with the room it is for.
 */
module MyAppointments {
  import opened Wrappers
  import opened Text
  import opened Calendar

  const RoomInfoPrefix := "/api/room-info/"
  const AppointmentsPrefix := "/api/viewing-appointment/user/"
  const LeasePrefix := "/api/admin/tenant/tenant/"

  /** The two lists `fetchData` requests for a user: the viewing appointments, then the lease. */
  function FetchUrls(u: User): seq<string> {
    [AppointmentsPrefix + IntToString(u.id), LeasePrefix + IntToString(u.id)]
  }

  /** A status badge: its text, its CSS class when it has one, and its colour. */
  datatype Badge = Badge(text: string, cls: Option<string>, color: string)

  const UnknownBadge := Badge("未知", None, "#999")

  /** `statusMap[status]` for viewing appointments. */
  function StatusBadge(status: Option<int>): Option<Badge> {
    match status
    case Some(0) => Some(Badge("待确认", Some("status-pending"), "#D97706"))
    case Some(1) => Some(Badge("已确认", Some("status-blue"), "#2563EB"))
    case Some(2) => Some(Badge("已完成", Some("status-green"), "#059669"))
    case Some(3) => Some(Badge("已取消", Some("status-red"), "#DC2626"))
    case Some(4) => Some(Badge("已过期", Some("status-gray"), "#6B7280"))
    case Some(5) => Some(Badge("爽约", Some("status-red"), "#DC2626"))
    case _ => None
  }

  /** `leaseStatusMap[status]` for contracts. */
  function LeaseBadge(status: Option<int>): Option<Badge> {
    match status
    case Some(0) => Some(Badge("待签约", None, "#D97706"))
    case Some(1) => Some(Badge("已签约", None, "#059669"))
    case Some(2) => Some(Badge("履行中", None, "#059669"))
    case Some(3) => Some(Badge("已到期", None, "#6B7280"))
    case Some(4) => Some(Badge("提前解约", None, "#DC2626"))
    case Some(5) => Some(Badge("已退租", None, "#6B7280"))
    case _ => None
  }

  predicate KnownStatus(status: Option<int>) {
    status.Some? && 0 <= status.value <= 5
  }

  /**
   * Both maps cover exactly the statuses 0 to 5, every badge in them has
   * a non-empty text, only the appointment badges carry a class, and any
   * other status falls back to 未知 in grey.
   */
  lemma BadgesSpec(status: Option<int>)
    ensures StatusBadge(status).Some? <==> KnownStatus(status)
    ensures LeaseBadge(status).Some? <==> KnownStatus(status)
    ensures StatusBadge(status).Some? ==> StatusBadge(status).value.text != "" && StatusBadge(status).value.cls.Some?
    ensures LeaseBadge(status).Some? ==> LeaseBadge(status).value.text != "" && LeaseBadge(status).value.cls.None?
    ensures !KnownStatus(status) ==> StatusBadge(status).GetOr(UnknownBadge) == UnknownBadge == LeaseBadge(status).GetOr(UnknownBadge)
  {
  }

  /** `typeText`: only type 1 is an on-site viewing. */
  function TypeText(appointmentType: Option<int>): (r: string)
    ensures r == "现场看房" <==> appointmentType == Some(1)
    ensures r != "现场看房" ==> r == "视频看房"
  {
    if appointmentType == Some(1) then "现场看房" else "视频看房"
  }

  const PaymentMap := ["月付", "季付", "半年付", "年付"]

  /** `paymentMap[cycle] || '未知'` */
  function PaymentMethod(cycle: Option<int>): (r: string)
    ensures cycle.Some? && 0 <= cycle.value < |PaymentMap| ==> r == PaymentMap[cycle.value]
    ensures !(cycle.Some? && 0 <= cycle.value < |PaymentMap|) ==> r == "未知"
    ensures r != "未知" <==> r in PaymentMap
  {
    if cycle.Some? && 0 <= cycle.value < |PaymentMap| then PaymentMap[cycle.value] else "未知"
  }

  /**
   * `formatDate`: `-` for a missing or empty text, otherwise the date the
   * text denotes (`date` is `new Date(text)`) as `YYYY-MM-DD`.
   */
  function FormatDate(text: Option<string>, date: string -> Option<DateParts>): string {
    if !Truthy(text) then "-" else Ymd(date(text.value))
  }

  /** Only a missing date reads `-`; a valid date reads back as its year, month (1-based) and day. */
  lemma FormatDateSpec(text: Option<string>, date: string -> Option<DateParts>)
    ensures FormatDate(text, date) == "-" <==> !Truthy(text)
    ensures Truthy(text) && date(text.value).Some? && Plausible(date(text.value).value) ==>
              var r, d := FormatDate(text, date), date(text.value).value;
              |r| == 10 && AllDigits(r[..4]) && AllDigits(r[5..7]) && AllDigits(r[8..])
              && DigitsValue(r[..4]) == d.year && DigitsValue(r[5..7]) == d.monthIndex + 1 && DigitsValue(r[8..]) == d.day
  {
    if Truthy(text) {
      match date(text.value)
      case None =>
        assert FormatDate(text, date) == "NaN-NaN-NaN";
      case Some(d) =>
        if Plausible(d) {
          YmdReadsBack(d);
        } else {
          var y := IntToString(d.year);
          assert y != [] && FormatDate(text, date)[|y|] == '-';
        }
    }
  }

  /** A viewing appointment as the server lists it. */
  datatype Visit = Visit(id: int, status: Option<int>, appointmentType: Option<int>, preferredDate: Option<string>)

  /** An appointment with the texts the page shows beside it. */
  datatype Shown = Shown(visit: Visit, statusInfo: Badge, typeText: string, formattedDate: string)

  function Show(v: Visit, date: string -> Option<DateParts>): Shown {
    Shown(v, StatusBadge(v.status).GetOr(UnknownBadge), TypeText(v.appointmentType), FormatDate(v.preferredDate, date))
  }

  /** The list `fetchAppointments` shows: every appointment, in order, with its texts. */
  function ShowAll(visits: seq<Visit>, date: string -> Option<DateParts>): (r: seq<Shown>)
    ensures |r| == |visits|
    ensures forall i :: 0 <= i < |r| ==> r[i] == Show(visits[i], date)
  {
    seq(|visits|, i requires 0 <= i < |visits| => Show(visits[i], date))
  }

  /** A contract as the server lists it. */
  datatype Contract = Contract(
    contractStatus: Option<int>,
    paymentCycle: Option<int>,
    contractStartDate: Option<string>,
    contractEndDate: Option<string>,
    roomId: Option<int>)

  /** Signed (1) or running (2). */
  predicate Active(c: Contract) {
    c.contractStatus == Some(1) || c.contractStatus == Some(2)
  }

  /** `contracts.find(Active)` */
  function FindActive(contracts: seq<Contract>): Option<Contract> {
    if contracts == [] then None
    else if Active(contracts[0]) then Some(contracts[0])
    else FindActive(contracts[1..])
  }

  /**
   * The lease found is the first active contract: it is in the list, it is
   * active and every contract before it is not; nothing is found exactly
   * when no contract is active.
   */
  lemma {:induction false} FindActiveSpec(contracts: seq<Contract>)
    ensures FindActive(contracts).None? <==> forall c :: c in contracts ==> !Active(c)
    ensures FindActive(contracts).Some? ==>
              exists i :: 0 <= i < |contracts| && contracts[i] == FindActive(contracts).value && Active(contracts[i])
                          && forall j :: 0 <= j < i ==> !Active(contracts[j])
  {
    if contracts != [] {
      FindActiveSpec(contracts[1..]);
      if !Active(contracts[0]) {
        assert forall c :: c in contracts ==> c == contracts[0] || c in contracts[1..];
        if FindActive(contracts).Some? {
          var i :| 0 <= i < |contracts[1..]| && contracts[1..][i] == FindActive(contracts).value && Active(contracts[1..][i])
                   && forall j :: 0 <= j < i ==> !Active(contracts[1..][j]);
          assert contracts[i + 1] == contracts[1..][i];
          assert forall j :: 1 <= j < i + 1 ==> contracts[j] == contracts[1..][j - 1];
        }
      }
    }
  }

  /** The lease as the page shows it. */
  datatype Lease = Lease(contract: Contract, statusInfo: Badge, paymentMethod: string, formattedStart: string, formattedEnd: string)

  function ShowLease(c: Contract, date: string -> Option<DateParts>): Lease {
    Lease(c, LeaseBadge(c.contractStatus).GetOr(UnknownBadge), PaymentMethod(c.paymentCycle),
          FormatDate(c.contractStartDate, date), FormatDate(c.contractEndDate, date))
  }

  /** The stored user; only the id is read. */
  datatype User = User(id: int)

  /**
   * A reply: `None` is a `null` or `undefined` body, and reading from it
   * throws; a non-null falsy body (`''`, `0`, `false`) has no fields, so it is
   * a body whose `success` is false.
   */
  datatype Reply<T> = Threw | Answered(body: Option<T>)

  datatype VisitsBody = VisitsBody(success: bool, appointments: Option<seq<Visit>>)
  datatype LeaseBody = LeaseBody(success: bool, contracts: Option<seq<Contract>>)
  datatype RoomBody = RoomBody(success: bool, room: Option<map<string, string>>)

  datatype PageData = PageData(
    userInfo: Option<User>,
    activeLease: Option<Lease>,
    houseDetails: Option<map<string, string>>,
    appointments: seq<Shown>,
    loading: bool)

  const InitialData := PageData(None, None, None, [], true)

  class MyAppointmentsPage {
    var data: PageData

    constructor()
      ensures data == InitialData
    {
      data := InitialData;
    }

    /**
     * `fetchData` up to the requests: loading starts, and both lists are
     * requested when there is a user.
     */
    method BeginFetch() returns (urls: seq<string>)
      modifies this
      ensures data == old(data).(loading := true)
      ensures data.userInfo.None? ==> urls == []
      ensures data.userInfo.Some? ==> urls == FetchUrls(data.userInfo.value)
    {
      data := data.(loading := true);
      urls := [];
      if data.userInfo.Some? {
        var id := IntToString(data.userInfo.value.id);
        urls := [AppointmentsPrefix + id, LeasePrefix + id];
      }
    }

    /** Both requests have settled. */
    method EndFetch()
      modifies this
      ensures data == old(data).(loading := false)
    {
      data := data.(loading := false);
    }

    /**
     * `checkLogin`: with a stored user the page keeps it and fetches;
     * without one it stops loading and fetches nothing.
     */
    method CheckLogin(stored: Option<User>) returns (urls: seq<string>)
      modifies this
      ensures stored.None? ==> urls == [] && data == old(data).(loading := false)
      ensures stored.Some? ==> data == old(data).(userInfo := stored, loading := true) && urls == FetchUrls(stored.value)
    {
      if stored.None? {
        data := data.(loading := false);
        return [];
      }
      data := data.(userInfo := stored);
      urls := BeginFetch();
    }

    /** `onShow`: a page that knows its user refetches; otherwise nothing happens. */
    method OnShow() returns (urls: seq<string>)
      modifies this
      ensures old(data).userInfo.None? ==> urls == [] && data == old(data)
      ensures old(data).userInfo.Some? ==> data == old(data).(loading := true) && urls == FetchUrls(old(data).userInfo.value)
    {
      urls := [];
      if data.userInfo.Some? {
        urls := BeginFetch();
      }
    }

    /** `fetchAppointments` after the reply: a successful reply replaces the list, anything else leaves it. */
    method EndAppointments(reply: Reply<VisitsBody>, date: string -> Option<DateParts>)
      modifies this
      ensures reply.Answered? && reply.body.Some? && reply.body.value.success ==>
                data == old(data).(appointments := ShowAll(reply.body.value.appointments.GetOr([]), date))
      ensures !(reply.Answered? && reply.body.Some? && reply.body.value.success) ==> data == old(data)
    {
      if reply.Answered? && reply.body.Some? && reply.body.value.success {
        data := data.(appointments := ShowAll(reply.body.value.appointments.GetOr([]), date));
      }
    }

    /**
     * `fetchActiveLease` after the reply: the first active contract becomes
     * the lease, and its room is requested when it names one; a reply
     * without contracts or without an active one clears the lease; a
     * failed request leaves it.
     */
    method EndLease(reply: Reply<LeaseBody>, date: string -> Option<DateParts>) returns (roomUrl: Option<string>)
      modifies this
      ensures reply.Threw? || reply.body.None? ==> roomUrl.None? && data == old(data)
      ensures reply.Answered? && reply.body.Some? ==>
                var b := reply.body.value;
                var contracts := if b.success then b.contracts.GetOr([]) else [];
                var found := FindActive(contracts);
                && data == old(data).(activeLease := if found.Some? then Some(ShowLease(found.value, date)) else None)
                && (roomUrl.Some? <==> found.Some? && found.value.roomId.Some? && found.value.roomId.value != 0)
                && (roomUrl.Some? ==> roomUrl == Some(RoomInfoPrefix + IntToString(found.value.roomId.value)))
    {
      roomUrl := None;
      if reply.Threw? || reply.body.None? {
        return;
      }
      var b := reply.body.value;
      if b.success && b.contracts.Some? && |b.contracts.value| > 0 {
        var active := FindActive(b.contracts.value);
        if active.Some? {
          data := data.(activeLease := Some(ShowLease(active.value, date)));
          if active.value.roomId.Some? && active.value.roomId.value != 0 {
            roomUrl := Some(RoomInfoPrefix + IntToString(active.value.roomId.value));
          }
        } else {
          data := data.(activeLease := None);
        }
      } else {
        data := data.(activeLease := None);
      }
    }

    /** `fetchHouseDetails` after the reply: the room is kept when the reply has one. */
    method EndHouseDetails(reply: Reply<RoomBody>)
      modifies this
      ensures reply.Answered? && reply.body.Some? && reply.body.value.success && reply.body.value.room.Some? ==>
                data == old(data).(houseDetails := reply.body.value.room)
      ensures !(reply.Answered? && reply.body.Some? && reply.body.value.success && reply.body.value.room.Some?) ==>
                data == old(data)
    {
      if reply.Answered? && reply.body.Some? && reply.body.value.success && reply.body.value.room.Some? {
        data := data.(houseDetails := reply.body.value.room);
      }
    }
  }
}
