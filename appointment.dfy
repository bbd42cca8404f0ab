/**
 * The viewing-appointment form: the tenant picks a date, a time slot and
 * a kind of viewing, fills in contact details, and the page checks the
 * form, builds the request body and tracks the submission.
 */
module Appointment {
  import opened Wrappers
  import opened Text
  import Login

  const TimeSlots := ["09:00-10:00", "10:00-11:00", "11:00-12:00", "14:00-15:00", "15:00-16:00", "16:00-17:00", "17:00-18:00"]

  /** The picker's kinds of viewing: the value sent and its caption. */
  datatype Choice = Choice(value: string, caption: string)

  const AppointmentTypes := [Choice("1", "现场看房"), Choice("2", "视频看房")]

  const RoomInfoPrefix := "/api/room-info/"
  const CreatePath := "/api/viewing-appointment/create"

  const NoDate := "请选择期望看房日期"
  const NoSlot := "请选择期望时间段"
  const NoTenantCount := "请输入租客人数"
  const NoMoveInDate := "请选择期望入住日期"
  const NoName := "请输入联系人姓名"
  const NoPhone := "请输入联系电话"
  const BadPhone := "手机号格式不正确"
  const BookingFailed := "预约失败"
  const SubmitFailed := "提交失败，请重试"

  /** The stored `user` record, as far as this page reads it. */
  datatype User = User(id: Option<int>, realName: Option<string>, username: Option<string>, phone: Option<string>)

  datatype AppointmentData = AppointmentData(
    houseId: string,
    houseInfo: Option<map<string, string>>,
    loading: bool,
    submitting: bool,
    minDate: string,
    showSuccessModal: bool,
    appointmentNumber: Option<string>,
    preferredDate: string,
    preferredTimeSlot: string,
    appointmentType: string,
    tenantCount: string,
    expectedMoveInDate: string,
    contactName: string,
    contactPhone: string,
    wechatId: string,
    rentalIntention: string)

  const InitialData := AppointmentData("", None, false, false, "", false, None, "", "", "1", "", "", "", "", "", "")

  /** `validateForm`: the first failing guard's message, `None` for `null`. */
  function Validation(d: AppointmentData): Option<string> {
    if d.preferredDate == "" then Some(NoDate)
    else if d.preferredTimeSlot == "" then Some(NoSlot)
    else if d.tenantCount == "" then Some(NoTenantCount)
    else if d.expectedMoveInDate == "" then Some(NoMoveInDate)
    else if Blank(d.contactName) then Some(NoName)
    else if Blank(d.contactPhone) then Some(NoPhone)
    else if !Login.ValidPhone(d.contactPhone) then Some(BadPhone)
    else None
  }

  /** The guards that come before a message all pass when it is reported. */
  predicate PickersSet(d: AppointmentData) {
    d.preferredDate != "" && d.preferredTimeSlot != "" && d.tenantCount != "" && d.expectedMoveInDate != ""
  }

  /**
   * The form passes exactly when the four pickers are set, the name and
   * phone are not blank once trimmed, and the phone as typed, untrimmed,
   * fits the mobile pattern; each message is reported exactly when its
   * guard is the first to fail.
   */
  lemma ValidationSpec(d: AppointmentData)
    ensures Validation(d).None? <==> PickersSet(d) && !Blank(d.contactName) && !Blank(d.contactPhone) && Login.ValidPhone(d.contactPhone)
    ensures Validation(d) == Some(NoDate) <==> d.preferredDate == ""
    ensures Validation(d) == Some(NoSlot) <==> d.preferredDate != "" && d.preferredTimeSlot == ""
    ensures Validation(d) == Some(NoTenantCount) <==> d.preferredDate != "" && d.preferredTimeSlot != "" && d.tenantCount == ""
    ensures Validation(d) == Some(NoMoveInDate) <==>
              d.preferredDate != "" && d.preferredTimeSlot != "" && d.tenantCount != "" && d.expectedMoveInDate == ""
    ensures Validation(d) == Some(NoName) <==> PickersSet(d) && Blank(d.contactName)
    ensures Validation(d) == Some(NoPhone) <==> PickersSet(d) && !Blank(d.contactName) && Blank(d.contactPhone)
    ensures Validation(d) == Some(BadPhone) <==>
              PickersSet(d) && !Blank(d.contactName) && !Blank(d.contactPhone) && !Login.ValidPhone(d.contactPhone)
  {
  }

  /** A phone padded with spaces is not blank but still fails the pattern. */
  lemma PaddedPhoneRejected(d: AppointmentData)
    requires d.preferredDate != "" && d.preferredTimeSlot != "" && d.tenantCount != "" && d.expectedMoveInDate != ""
    requires !Blank(d.contactName) && !Blank(d.contactPhone)
    requires |d.contactPhone| > 0 && d.contactPhone[0] == ' '
    ensures Validation(d) == Some(BadPhone)
  {
  }

  /** The request body of `submitAppointment`; `None` is `null`, or NaN for a number. */
  datatype Payload = Payload(
    roomId: string,
    userId: Option<int>,
    preferredDate: string,
    preferredTimeSlot: string,
    appointmentType: Option<int>,
    contactName: string,
    contactPhone: string,
    wechatId: Option<string>,
    tenantCount: Option<int>,
    expectedMoveInDate: Option<string>,
    rentalIntention: Option<string>)

  /** `s || null` for a string field. */
  function OrNull(s: string): (r: Option<string>)
    ensures r.None? <==> s == ""
    ensures r.Some? ==> r.value == s
  {
    if s == "" then None else Some(s)
  }

  function BuildPayload(d: AppointmentData, user: User): Payload {
    Payload(d.houseId, user.id, d.preferredDate, d.preferredTimeSlot, ParseInt(d.appointmentType),
            d.contactName, d.contactPhone, OrNull(d.wechatId), ParseInt(d.tenantCount),
            OrNull(d.expectedMoveInDate), OrNull(d.rentalIntention))
  }

  /**
   * The body sends the form as typed, except that the optional texts go
   * as `null` when empty and the kind of viewing and the number of
   * tenants go as numbers.
   */
  lemma PayloadSpec(d: AppointmentData, user: User)
    ensures var p := BuildPayload(d, user);
            && p.roomId == d.houseId && p.userId == user.id
            && p.preferredDate == d.preferredDate && p.preferredTimeSlot == d.preferredTimeSlot
            && p.contactName == d.contactName && p.contactPhone == d.contactPhone
            && (p.wechatId.None? <==> d.wechatId == "")
            && (p.expectedMoveInDate.None? <==> d.expectedMoveInDate == "")
            && (p.rentalIntention.None? <==> d.rentalIntention == "")
            && (d.tenantCount != "" && AllDigits(d.tenantCount) ==> p.tenantCount == Some(DigitsValue(d.tenantCount)))
  {
    if d.tenantCount != "" && AllDigits(d.tenantCount) {
      ParseIntOfDigits(d.tenantCount);
    }
  }

  /** Every kind of viewing the picker offers is sent as the number 1 or 2. */
  lemma ChoiceSentAsNumber(d: AppointmentData, user: User, i: int)
    requires 0 <= i < |AppointmentTypes| && d.appointmentType == AppointmentTypes[i].value
    ensures BuildPayload(d, user).appointmentType == Some(i + 1)
  {
    var v := d.appointmentType;
    assert |v| == 1 && v[0] == (if i == 0 then '1' else '2');
    SingleDigitParse(v);
    assert DigitValue(v[0]) == i + 1;
  }

  /** `parseInt` of one digit is that digit's value. */
  lemma SingleDigitParse(v: string)
    requires |v| == 1 && IsDigit(v[0])
    ensures ParseInt(v) == Some(DigitValue(v[0]))
  {
    ParseIntOfDigits(v);
    assert v[..0] == [];
  }

  /** The prefilled contact: the real name, else the username, else nothing; the phone, else nothing. */
  function PrefillName(user: User): (r: string)
    ensures Truthy(user.realName) ==> r == user.realName.value
    ensures !Truthy(user.realName) && Truthy(user.username) ==> r == user.username.value
    ensures !Truthy(user.realName) && !Truthy(user.username) ==> r == ""
  {
    Or(user.realName, Or(user.username, ""))
  }

  /** A reply to loading the room: `None` is a `null` or `undefined` body; like any falsy body, it is not a success. */
  datatype RoomReply = RoomThrew | RoomAnswered(body: Option<RoomBody>)
  datatype RoomBody = RoomBody(success: bool, room: Option<map<string, string>>)

  /**
   * A reply to creating the appointment: `None` is a `null` or `undefined`
   * body; a non-null falsy body is a `CreateBody` whose `success` is false.
   */
  datatype CreateReply = CreateThrew | CreateAnswered(body: Option<CreateBody>)
  datatype CreateBody = CreateBody(success: bool, appointmentNumber: Option<string>, message: Option<string>)

  /** What `submitAppointment` does before awaiting the server. */
  datatype Start = Invalid(message: string) | NeedsLogin | Sending(payload: Payload)

  /** The text inputs and pickers that store their value as typed. */
  datatype Input = PreferredDate | TenantCount | MoveInDate | ContactName | ContactPhone | WechatId | RentalIntention

  function WithInput(d: AppointmentData, field: Input, value: string): AppointmentData {
    match field
    case PreferredDate => d.(preferredDate := value)
    case TenantCount => d.(tenantCount := value)
    case MoveInDate => d.(expectedMoveInDate := value)
    case ContactName => d.(contactName := value)
    case ContactPhone => d.(contactPhone := value)
    case WechatId => d.(wechatId := value)
    case RentalIntention => d.(rentalIntention := value)
  }

  class AppointmentPage {
    var data: AppointmentData

    constructor()
      ensures data == InitialData
    {
      data := InitialData;
    }

    /** `prefillUserInfo`: a stored user fills the contact name and phone. */
    method Prefill(stored: Option<User>)
      modifies this
      ensures stored.None? ==> data == old(data)
      ensures stored.Some? ==> data == old(data).(contactName := PrefillName(stored.value), contactPhone := Or(stored.value.phone, ""))
    {
      if stored.Some? {
        data := data.(contactName := PrefillName(stored.value), contactPhone := Or(stored.value.phone, ""));
      }
    }

    /**
     * `onLoad`: without a house id nothing is loaded and the page is left
     * as it was; with one the minimum date is today's (`today` is the
     * current time in ISO form), the room is requested and the contact is
     * prefilled.
     */
    method OnLoad(houseId: Option<string>, today: string, stored: Option<User>) returns (fetch: Option<string>)
      modifies this
      ensures !Truthy(houseId) ==> fetch.None? && data == old(data)
      ensures Truthy(houseId) ==> fetch == Some(RoomInfoPrefix + houseId.value)
      ensures Truthy(houseId) && stored.None? ==>
                data == old(data).(houseId := houseId.value, minDate := FirstPiece(today, 'T'), loading := true)
      ensures Truthy(houseId) && stored.Some? ==>
                data == old(data).(houseId := houseId.value, minDate := FirstPiece(today, 'T'), loading := true,
                                   contactName := PrefillName(stored.value), contactPhone := Or(stored.value.phone, ""))
    {
      if !Truthy(houseId) {
        return None;
      }
      data := data.(houseId := houseId.value, minDate := FirstPiece(today, 'T'), loading := true);
      fetch := Some(RoomInfoPrefix + houseId.value);
      Prefill(stored);
    }

    /** `loadHouseInfo` after the reply: the room is kept on success and loading always ends. */
    method EndLoadHouseInfo(reply: RoomReply)
      modifies this
      ensures reply.RoomAnswered? && reply.body.Some? && reply.body.value.success ==>
                data == old(data).(houseInfo := reply.body.value.room, loading := false)
      ensures !(reply.RoomAnswered? && reply.body.Some? && reply.body.value.success) ==>
                data == old(data).(loading := false)
    {
      if reply.RoomAnswered? && reply.body.Some? && reply.body.value.success {
        data := data.(houseInfo := reply.body.value.room);
      }
      data := data.(loading := false);
    }

    method OnInput(field: Input, value: string)
      modifies this
      ensures data == WithInput(old(data), field, value)
    {
      data := WithInput(data, field, value);
    }

    /** `onTimeChange`: the picker reports an index into the slots it shows. */
    method OnTimeChange(index: int)
      requires 0 <= index < |TimeSlots|
      modifies this
      ensures data == old(data).(preferredTimeSlot := TimeSlots[index])
    {
      data := data.(preferredTimeSlot := TimeSlots[index]);
    }

    /** `onTypeChange`: the picker reports an index into the kinds it shows. */
    method OnTypeChange(index: int)
      requires 0 <= index < |AppointmentTypes|
      modifies this
      ensures data == old(data).(appointmentType := AppointmentTypes[index].value)
    {
      data := data.(appointmentType := AppointmentTypes[index].value);
    }

    /**
     * `submitAppointment` up to the request: an invalid form or a missing
     * user stops with the page unchanged; otherwise the body is built and
     * the page is submitting.
     */
    method BeginSubmit(stored: Option<User>) returns (start: Start)
      modifies this
      ensures Validation(old(data)).Some? ==> start == Invalid(Validation(old(data)).value) && data == old(data)
      ensures Validation(old(data)).None? && stored.None? ==> start == NeedsLogin && data == old(data)
      ensures Validation(old(data)).None? && stored.Some? ==>
                start == Sending(BuildPayload(old(data), stored.value)) && data == old(data).(submitting := true)
    {
      var error := Validation(data);
      if error.Some? {
        return Invalid(error.value);
      }
      if stored.None? {
        return NeedsLogin;
      }
      start := Sending(BuildPayload(data, stored.value));
      data := data.(submitting := true);
    }

    /**
     * `submitAppointment` after the reply: success opens the modal with the
     * appointment number; a refusal or a failure gives a toast; in every
     * case submitting ends. A `null` or `undefined` body (`None`) makes
     * reading its message throw, which ends in the failure toast; any other
     * falsy body has no `success` and no `message`, so it is a refusal
     * without a message.
     */
    method EndSubmit(reply: CreateReply) returns (toast: Option<string>)
      modifies this
      ensures !data.submitting
      ensures reply.CreateAnswered? && reply.body.Some? && reply.body.value.success ==>
                toast.None? && data == old(data).(showSuccessModal := true, appointmentNumber := reply.body.value.appointmentNumber, submitting := false)
      ensures reply.CreateAnswered? && reply.body.Some? && !reply.body.value.success ==>
                toast == Some(Or(reply.body.value.message, BookingFailed)) && data == old(data).(submitting := false)
      ensures reply.CreateThrew? || (reply.CreateAnswered? && reply.body.None?) ==>
                toast == Some(SubmitFailed) && data == old(data).(submitting := false)
    {
      toast := None;
      match reply {
        case CreateThrew =>
          toast := Some(SubmitFailed);
        case CreateAnswered(body) =>
          if body.None? {
            toast := Some(SubmitFailed);
          } else if body.value.success {
            data := data.(showSuccessModal := true, appointmentNumber := body.value.appointmentNumber);
          } else {
            toast := Some(Or(body.value.message, BookingFailed));
          }
      }
      data := data.(submitting := false);
    }
  }
}
