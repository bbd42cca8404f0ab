/**
 * The profile page: the signed-in user's record as the server keeps it,
 * and the edit form built from it, which the user changes field by field
 * and saves back.
 */
module UserProfile {
  import opened Wrappers
  import opened Text

  const UserPrefix := "/api/user/"
  const UpdatePrefix := "/api/user/update/"
  const FetchFailed := "获取信息失败"
  const NetworkError := "网络错误"
  const Saved := "保存成功"
  const SaveFailed := "保存失败"

  /** A value in the user record: a string, a number, `null`, `undefined`, or a boolean. */
  datatype Value = Str(s: string) | Num(n: int) | Null | Undefined | Bool(b: bool)

  predicate TruthyValue(v: Value) {
    match v
    case Str(s) => s != ""
    case Num(n) => n != 0
    case Null => false
    case Undefined => false
    case Bool(b) => b
  }

  /** `${v}` */
  function ValueText(v: Value): string {
    match v
    case Str(s) => s
    case Num(n) => IntToString(n)
    case Null => "null"
    case Undefined => "undefined"
    case Bool(b) => if b then "true" else "false"
  }

  /** A user record: its fields by name. */
  type Record = map<string, Value>

  /** `record.key`, `undefined` when absent. */
  function Get(record: Record, key: string): Value {
    if key in record then record[key] else Undefined
  }

  /** The text fields of the edit form, each filled with `user.field || ''`. */
  const TextFields := ["username", "realName", "idCard", "email", "wechat", "qq", "job", "company",
                       "monthlyIncome", "rentalBudgetMin", "rentalBudgetMax", "preferredDistricts", "houseRequirements"]

  /** `v || ''` */
  function OrEmpty(v: Value): (r: Value)
    ensures TruthyValue(v) ==> r == v
    ensures !TruthyValue(v) ==> r == Str("")
  {
    if TruthyValue(v) then v else Str("")
  }

  /** `v || 0` */
  function OrZero(v: Value): (r: Value)
    ensures TruthyValue(v) ==> r == v
    ensures !TruthyValue(v) ==> r == Num(0)
  {
    if TruthyValue(v) then v else Num(0)
  }

  /** `formatDateForInput`: the empty string stays empty; otherwise the part before the first `T`. */
  function FormatDateForInput(s: string): (r: string)
    ensures s == "" ==> r == ""
    ensures r <= s && 'T' !in r
    ensures |r| < |s| ==> s[|r|] == 'T'
  {
    if s == "" then "" else FirstPiece(s, 'T')
  }

  /** A date already cut at its `T` is left alone. */
  lemma FormatDateForInputIdempotent(s: string)
    ensures FormatDateForInput(FormatDateForInput(s)) == FormatDateForInput(s)
  {
    var r := FormatDateForInput(s);
    if r != "" {
      assert CharIndex(r, 'T').None?;
    }
  }

  /** The birthday field: a date string cut at its `T`, anything falsy the empty string. */
  function BirthdayField(v: Value): Value {
    if v.Str? && v.s != "" then Str(FormatDateForInput(v.s)) else Str("")
  }

  /** The form `initEditForm` builds from a user record. */
  function EditFormOf(user: Record): Record {
    (map k | k in TextFields :: OrEmpty(Get(user, k)))["gender" := OrZero(Get(user, "gender"))]["birthday" := BirthdayField(Get(user, "birthday"))]
  }

  /**
   * The form has exactly the fifteen fields; none of them is `null` or
   * `undefined`: a missing text is the empty string and a missing gender
   * is 0; a present value is taken over as it is, except the birthday,
   * which keeps its date part.
   */
  lemma EditFormSpec(user: Record)
    ensures var form := EditFormOf(user);
            && form.Keys == (set k | k in TextFields) + {"gender", "birthday"}
            && (forall k :: k in form ==> form[k] != Null && form[k] != Undefined)
            && (forall k :: k in TextFields && TruthyValue(Get(user, k)) ==> form[k] == user[k])
            && (forall k :: k in TextFields && !TruthyValue(Get(user, k)) ==> form[k] == Str(""))
            && form["gender"] == (if TruthyValue(Get(user, "gender")) then user["gender"] else Num(0))
            && (var b := Get(user, "birthday");
                (b.Str? && b.s != "" ==> form["birthday"] == Str(FormatDateForInput(b.s)))
                && (!(b.Str? && b.s != "") ==> form["birthday"] == Str("")))
  {
    SpecialKeys();
  }

  /** The gender and birthday are not among the text fields. */
  lemma SpecialKeys()
    ensures "gender" !in TextFields && "birthday" !in TextFields
  {
  }

  lemma TextFieldStable(user: Record, k: string)
    requires k in TextFields
    ensures EditFormOf(user + EditFormOf(user))[k] == EditFormOf(user)[k]
  {
    SpecialKeys();
    var form := EditFormOf(user);
    assert Get(user + form, k) == form[k];
  }

  /** Building the form from a record that already holds the form gives the same form. */
  lemma EditFormIdempotent(user: Record)
    ensures EditFormOf(user + EditFormOf(user)) == EditFormOf(user)
  {
    SpecialKeys();
    var form := EditFormOf(user);
    var again := EditFormOf(user + form);
    forall k | k in TextFields
      ensures again[k] == form[k]
    {
      TextFieldStable(user, k);
    }
    assert Get(user + form, "gender") == form["gender"];
    var b := Get(user, "birthday");
    if b.Str? && b.s != "" {
      FormatDateForInputIdempotent(b.s);
    }
    assert Get(user + form, "birthday") == form["birthday"];
    assert again.Keys == form.Keys;
  }

  /** `{...user, ...update}`: every field of the update wins, every other field of the user stays. */
  lemma MergeSpec(user: Record, update: Record)
    ensures (user + update).Keys == user.Keys + update.Keys
    ensures forall k :: k in update ==> (user + update)[k] == update[k]
    ensures forall k :: k in user && k !in update ==> (user + update)[k] == user[k]
  {
  }

  /** A reply from the server; `user` is `None` when the reply has none. */
  datatype Reply = Threw | Answered(success: bool, user: Option<Record>, message: Option<string>)

  datatype ProfileData = ProfileData(
    user: Option<Record>,
    loading: bool,
    isEditing: bool,
    editingField: string,
    saveLoading: bool,
    editForm: Record)

  const InitialData := ProfileData(None, true, false, "", false, EditFormOf(map[]))

  class UserProfilePage {
    var data: ProfileData

    constructor()
      ensures data == InitialData
    {
      data := InitialData;
    }

    /** `initEditForm`: without a user nothing changes. */
    method InitEditForm()
      modifies this
      ensures old(data).user.None? ==> data == old(data)
      ensures old(data).user.Some? ==> data == old(data).(editForm := EditFormOf(old(data).user.value))
    {
      if data.user.Some? {
        data := data.(editForm := EditFormOf(data.user.value));
      }
    }

    /**
     * `fetchUserInfo` up to the request: without a stored user the page
     * redirects to sign-in and stops loading; otherwise it asks for the
     * user by id and is loading.
     */
    method BeginFetch(storedId: Option<Value>) returns (fetch: Option<string>, toLogin: bool)
      modifies this
      ensures storedId.None? ==> toLogin && fetch.None? && data == old(data).(loading := false)
      ensures storedId.Some? ==> !toLogin && fetch == Some(UserPrefix + ValueText(storedId.value)) && data == old(data).(loading := true)
    {
      data := data.(loading := true);
      if storedId.None? {
        data := data.(loading := false);
        return None, true;
      }
      fetch, toLogin := Some(UserPrefix + ValueText(storedId.value)), false;
    }

    /**
     * `fetchUserInfo` after the reply: on success the user is shown, stored
     * and the form rebuilt from it; otherwise a toast; loading ends.
     */
    method EndFetch(reply: Reply) returns (store: Option<Record>, toast: Option<string>)
      modifies this
      ensures !data.loading
      ensures reply.Answered? && reply.success ==>
                store == reply.user && toast.None?
                && data == old(data).(user := reply.user, loading := false,
                                      editForm := if reply.user.Some? then EditFormOf(reply.user.value) else old(data).editForm)
      ensures reply.Answered? && !reply.success ==> store.None? && toast == Some(FetchFailed) && data == old(data).(loading := false)
      ensures reply.Threw? ==> store.None? && toast == Some(NetworkError) && data == old(data).(loading := false)
    {
      store, toast := None, None;
      if reply.Threw? {
        toast := Some(NetworkError);
      } else if reply.success {
        data := data.(user := reply.user, loading := false);
        store := reply.user;
        InitEditForm();
      } else {
        toast := Some(FetchFailed);
      }
      data := data.(loading := false);
    }

    /** `startEditField` */
    method StartEditField(field: string)
      modifies this
      ensures data == old(data).(isEditing := true, editingField := field)
    {
      data := data.(isEditing := true, editingField := field);
    }

    /** `handleInput`: the named form field takes the typed text. */
    method HandleInput(field: string, value: string)
      modifies this
      ensures data == old(data).(editForm := old(data).editForm[field := Str(value)])
    {
      data := data.(editForm := data.editForm[field := Str(value)]);
    }

    /** `cancelEdit`: editing stops and the form is rebuilt from the user, dropping the typed changes. */
    method CancelEdit()
      modifies this
      ensures old(data).user.None? ==> data == old(data).(isEditing := false, editingField := "")
      ensures old(data).user.Some? ==> data == old(data).(isEditing := false, editingField := "", editForm := EditFormOf(old(data).user.value))
    {
      data := data.(isEditing := false, editingField := "");
      InitEditForm();
    }

    /**
     * `saveUserInfo` up to the request: the form is sent to the user's
     * update address; without a user, reading its id throws and the save
     * fails at once.
     */
    method BeginSave() returns (url: Option<string>, body: Record, toast: Option<string>)
      modifies this
      ensures old(data).user.Some? ==>
                url == Some(UpdatePrefix + ValueText(Get(old(data).user.value, "id"))) && body == old(data).editForm
                && toast.None? && data == old(data).(saveLoading := true)
      ensures old(data).user.None? ==> url.None? && toast == Some(SaveFailed) && data == old(data).(saveLoading := false)
    {
      data := data.(saveLoading := true);
      body := data.editForm;
      if data.user.None? {
        data := data.(saveLoading := false);
        return None, body, Some(SaveFailed);
      }
      url, toast := Some(UpdatePrefix + ValueText(Get(data.user.value, "id"))), None;
    }

    /**
     * `saveUserInfo` after the reply: on success the reply's fields are
     * merged over the user, editing stops, the merged user is stored and
     * the form rebuilt from it; otherwise a toast; saving ends in every case.
     */
    method EndSave(reply: Reply) returns (store: Option<Record>, toast: string)
      modifies this
      ensures !data.saveLoading
      ensures reply.Answered? && reply.success ==>
                var merged := old(data).user.GetOr(map[]) + reply.user.GetOr(map[]);
                store == Some(merged) && toast == Saved
                && data == old(data).(user := Some(merged), isEditing := false, editingField := "",
                                      editForm := EditFormOf(merged), saveLoading := false)
      ensures reply.Answered? && !reply.success ==>
                store.None? && toast == Or(reply.message, SaveFailed) && data == old(data).(saveLoading := false)
      ensures reply.Threw? ==> store.None? && toast == SaveFailed && data == old(data).(saveLoading := false)
    {
      store := None;
      if reply.Threw? {
        toast := SaveFailed;
      } else if reply.success {
        var merged := data.user.GetOr(map[]) + reply.user.GetOr(map[]);
        toast := Saved;
        data := data.(user := Some(merged), isEditing := false, editingField := "");
        store := Some(merged);
        InitEditForm();
      } else {
        toast := Or(reply.message, SaveFailed);
      }
      data := data.(saveLoading := false);
    }
  }
}
