/**
 * The login page: one form that switches between signing in and
 * registering, validated on the client before anything is sent, and the
 * redirect that sends each kind of user to their own home tab.
 */
module Login {
  import opened Wrappers
  import opened Text

  const HomeTab := "/pages/home/home"
  const LandlordTab := "/pages/landlord/landlord"
  const AdminTab := "/pages/admin/admin"
  const LoginPath := "/api/user/login"
  const RegisterPath := "/api/user/register"

  const MissingCredentials := "请填写手机号和密码"
  const MissingFields := "请填写所有必填字段"
  const BadPhone := "请输入正确的手机号"
  const ShortPassword := "密码长度不能少于6位"
  const Mismatch := "两次输入的密码不一致"
  const Registered := "注册成功，请登录"
  const LoginFailed := "登录失败"
  const RegisterFailed := "注册失败"
  const NetworkError := "网络错误，请稍后重试"

  const MinPasswordLength := 6

  datatype Form = Form(username: string, phone: string, password: string, confirmPassword: string, realName: string)

  const EmptyForm := Form("", "", "", "", "")

  /** The input a change event names in its `data-field`. */
  datatype Field = Username | Phone | Password | ConfirmPassword | RealName

  function FieldOf(form: Form, field: Field): string {
    match field
    case Username => form.username
    case Phone => form.phone
    case Password => form.password
    case ConfirmPassword => form.confirmPassword
    case RealName => form.realName
  }

  /** `formData.<field> = value` */
  function WithField(form: Form, field: Field, value: string): (r: Form)
    ensures FieldOf(r, field) == value
    ensures forall other :: other != field ==> FieldOf(r, other) == FieldOf(form, other)
  {
    match field
    case Username => form.(username := value)
    case Phone => form.(phone := value)
    case Password => form.(password := value)
    case ConfirmPassword => form.(confirmPassword := value)
    case RealName => form.(realName := value)
  }

  /**
   * The pattern `^1[3-9]\d{9}$`: eleven ASCII digits, the first `1` and the
   * second from 3 to 9.
   */
  predicate ValidPhone(s: string) {
    |s| == 11 && s[0] == '1' && '3' <= s[1] <= '9' && AllDigits(s[2..])
  }

  /**
   * The phone pattern accepts exactly the eleven-digit strings whose value
   * lies from 13000000000 up to but excluding 20000000000.
   */
  lemma ValidPhoneRange(s: string)
    ensures ValidPhone(s) <==> |s| == 11 && AllDigits(s) && 13000000000 <= DigitsValue(s) < 20000000000
  {
    if |s| == 11 && AllDigits(s) {
      assert IsDigit(s[0]) && IsDigit(s[1]);
      assert AllDigits(s[2..]) by {
        forall i | 0 <= i < |s| - 2 ensures IsDigit(s[2..][i]) {
          assert s[2..][i] == s[i + 2];
        }
      }
      PhoneValue(s);
    }
    if ValidPhone(s) {
      assert AllDigits(s) by {
        forall i | 0 <= i < |s| ensures IsDigit(s[i]) {
          if i >= 2 {
            assert s[i] == s[2..][i - 2];
          }
        }
      }
    }
  }

  /** An eleven-digit string lies in `[13, 20) * 10^9` exactly when its first two digits read 13 to 19. */
  lemma PhoneValue(s: string)
    requires |s| == 11 && AllDigits(s) && AllDigits(s[2..])
    ensures 13000000000 <= DigitsValue(s) < 20000000000 <==> 13 <= DigitValue(s[0]) * 10 + DigitValue(s[1]) <= 19
  {
    var head, tail := s[..2], s[2..];
    assert s == head + tail;
    assert AllDigits(head);
    DigitsValueAppend(head, tail);
    DigitsValueBound(tail);
    assert |tail| == 9 && Pow10(9) == 1000000000;
    assert head[..1] == [s[0]] && head[1] == s[1];
    assert DigitsValue([s[0]]) == DigitValue(s[0]) by {
      assert [s[0]][..0] == [];
    }
    var h := DigitsValue(head);
    assert h == DigitValue(s[0]) * 10 + DigitValue(s[1]);
    Scale(h, DigitsValue(tail));
  }

  /** `h * 10^9 + r` with `r < 10^9` lies in `[13, 20) * 10^9` exactly when `13 <= h <= 19`. */
  lemma Scale(h: nat, r: nat)
    requires r < 1000000000
    ensures 13000000000 <= h * 1000000000 + r < 20000000000 <==> 13 <= h <= 19
  {
    if h <= 12 {
      assert h * 1000000000 <= 12000000000;
    } else if h >= 20 {
      assert h * 1000000000 >= 20000000000;
    } else {
      assert 13000000000 <= h * 1000000000 <= 19000000000;
    }
  }

  /**
   * `validateForm`: the first failing check's message, or `None` when the
   * form may be sent.
   */
  function Validation(isLogin: bool, form: Form): Option<string> {
    if isLogin then
      if form.phone == "" || form.password == "" then Some(MissingCredentials)
      else if !ValidPhone(form.phone) then Some(BadPhone)
      else None
    else
      if form.username == "" || form.phone == "" || form.password == "" || form.confirmPassword == "" || form.realName == "" then Some(MissingFields)
      else if !ValidPhone(form.phone) then Some(BadPhone)
      else if |form.password| < MinPasswordLength then Some(ShortPassword)
      else None
  }

  /** The five fields registration asks for are all filled in. */
  predicate AllFilled(form: Form) {
    form.username != "" && form.phone != "" && form.password != "" && form.confirmPassword != "" && form.realName != ""
  }

  /**
   * Signing in needs a phone and a password and a phone that fits the
   * pattern; registering needs all five fields, a phone that fits the
   * pattern and a password of at least six characters. The checks are
   * made in that order, and each message is reported exactly when its
   * check is the first to fail.
   */
  lemma ValidationSpec(isLogin: bool, form: Form)
    ensures isLogin ==> (Validation(isLogin, form).None? <==> form.phone != "" && form.password != "" && ValidPhone(form.phone))
    ensures !isLogin ==> (Validation(isLogin, form).None? <==>
              AllFilled(form) && ValidPhone(form.phone) && |form.password| >= MinPasswordLength)
    ensures Validation(isLogin, form) == Some(MissingCredentials) <==> isLogin && (form.phone == "" || form.password == "")
    ensures Validation(isLogin, form) == Some(MissingFields) <==> !isLogin && !AllFilled(form)
    ensures Validation(isLogin, form) == Some(BadPhone) <==>
              (if isLogin then form.phone != "" && form.password != "" else AllFilled(form)) && !ValidPhone(form.phone)
    ensures Validation(isLogin, form) == Some(ShortPassword) <==>
              !isLogin && AllFilled(form) && ValidPhone(form.phone) && |form.password| < MinPasswordLength
  {
  }

  /** A form that passes validation carries an eleven-digit phone number. */
  lemma ValidFormHasMobileNumber(isLogin: bool, form: Form)
    requires Validation(isLogin, form).None?
    ensures |form.phone| == 11 && AllDigits(form.phone)
    ensures 13000000000 <= DigitsValue(form.phone) < 20000000000
  {
    ValidPhoneRange(form.phone);
  }

  /** `redirectByUserType`: tenants and unknown types go home, landlords and administrators to their own tab. */
  function Redirect(userType: Option<int>): (url: string)
    ensures userType == Some(2) <==> url == LandlordTab
    ensures userType == Some(3) <==> url == AdminTab
    ensures userType != Some(2) && userType != Some(3) <==> url == HomeTab
  {
    if userType == Some(2) then LandlordTab
    else if userType == Some(3) then AdminTab
    else HomeTab
  }

  /** The stored `user` record. */
  datatype Account = Account(id: Option<int>, userType: Option<int>)

  /** `onLoad`: a stored user with an id is sent straight to their tab. */
  function Resume(stored: Option<Account>): (r: Option<string>)
    ensures r.Some? <==> stored.Some? && stored.value.id.Some? && stored.value.id.value != 0
    ensures r.Some? ==> r.value == Redirect(stored.value.userType)
  {
    if stored.Some? && stored.value.id.Some? && stored.value.id.value != 0 then Some(Redirect(stored.value.userType)) else None
  }

  /** What the submit button sends. */
  datatype Submission =
    | SignIn(phone: string, password: string)
    | SignUp(username: string, phone: string, password: string, realName: string)

  /** A reply to either request: a rejection carries `error.data?.message`. */
  datatype Reply =
    | Threw(message: Option<string>)
    | Answered(success: bool, message: Option<string>, user: Account)

  datatype LoginData = LoginData(isLogin: bool, loading: bool, errorMessage: string, form: Form)

  class LoginPage {
    var data: LoginData

    constructor()
      ensures data == LoginData(true, false, "", EmptyForm)
    {
      data := LoginData(true, false, "", EmptyForm);
    }

    /** `toggleForm`: switch mode, clear the message and every field. */
    method ToggleForm()
      modifies this
      ensures data == old(data).(isLogin := !old(data).isLogin, errorMessage := "", form := EmptyForm)
    {
      data := data.(isLogin := !data.isLogin, errorMessage := "", form := EmptyForm);
    }

    /** `onInputChange` */
    method OnInputChange(field: Field, value: string)
      modifies this
      ensures data == old(data).(form := WithField(old(data).form, field, value))
    {
      data := data.(form := WithField(data.form, field, value));
    }

    /**
     * `handleSubmit` up to the request: an invalid form only shows its
     * message; a valid one starts loading, except that a registration
     * whose passwords differ stops again with its own message before any
     * request is sent.
     */
    method BeginSubmit() returns (sent: Option<Submission>)
      modifies this
      ensures var v, f := Validation(old(data).isLogin, old(data).form), old(data).form;
              && (v.Some? ==> sent.None? && data == old(data).(errorMessage := v.value))
              && (v.None? && old(data).isLogin ==>
                    sent == Some(SignIn(f.phone, f.password)) && data == old(data).(loading := true, errorMessage := ""))
              && (v.None? && !old(data).isLogin && f.password != f.confirmPassword ==>
                    sent.None? && data == old(data).(loading := false, errorMessage := Mismatch))
              && (v.None? && !old(data).isLogin && f.password == f.confirmPassword ==>
                    sent == Some(SignUp(f.username, f.phone, f.password, f.realName)) && data == old(data).(loading := true, errorMessage := ""))
    {
      var v := Validation(data.isLogin, data.form);
      if v.Some? {
        data := data.(errorMessage := v.value);
        return None;
      }
      data := data.(loading := true, errorMessage := "");
      var f := data.form;
      if data.isLogin {
        sent := Some(SignIn(f.phone, f.password));
      } else if f.password != f.confirmPassword {
        data := data.(errorMessage := Mismatch, loading := false);
        sent := None;
      } else {
        sent := Some(SignUp(f.username, f.phone, f.password, f.realName));
      }
    }

    /**
     * The reply to signing in: on success the user is to be stored and
     * sent to their tab (the page keeps loading); otherwise the message
     * is shown and loading stops.
     */
    method EndSignIn(reply: Reply) returns (store: Option<Account>, redirect: Option<string>)
      modifies this
      ensures reply.Answered? && reply.success ==>
                store == Some(reply.user) && redirect == Some(Redirect(reply.user.userType)) && data == old(data)
      ensures reply.Answered? && !reply.success ==>
                store.None? && redirect.None? && data == old(data).(errorMessage := Or(reply.message, LoginFailed), loading := false)
      ensures reply.Threw? ==>
                store.None? && redirect.None? && data == old(data).(errorMessage := Or(reply.message, NetworkError), loading := false)
    {
      store, redirect := None, None;
      match reply
      case Threw(message) =>
        data := data.(errorMessage := Or(message, NetworkError), loading := false);
      case Answered(success, message, user) =>
        if success {
          store, redirect := Some(user), Some(Redirect(user.userType));
        } else {
          data := data.(errorMessage := Or(message, LoginFailed), loading := false);
        }
    }

    /** The reply to registering: on success the page returns to sign-in mode with a cleared form. */
    method EndSignUp(reply: Reply)
      modifies this
      ensures reply.Answered? && reply.success ==> data == LoginData(true, false, Registered, EmptyForm)
      ensures reply.Answered? && !reply.success ==> data == old(data).(errorMessage := Or(reply.message, RegisterFailed), loading := false)
      ensures reply.Threw? ==> data == old(data).(errorMessage := Or(reply.message, NetworkError), loading := false)
    {
      match reply
      case Threw(message) =>
        data := data.(errorMessage := Or(message, NetworkError), loading := false);
      case Answered(success, message, _) =>
        if success {
          data := LoginData(true, false, Registered, EmptyForm);
        } else {
          data := data.(errorMessage := Or(message, RegisterFailed), loading := false);
        }
    }
  }
}
