/** The change-password dialog's submit logic (components/ChangePasswordModal.tsx). */
module ChangePasswordModal {
  import opened Wrappers
  import opened Types
  import opened KvStore
  import StorageService
  import AuthApi
  import WritingPhase

  datatype Fields = Fields(oldPassword: string, newPassword: string, confirmPassword: string)

  /** What validation decides: return silently, show an error, or call `changePassword`. */
  datatype Check = Ignored | Rejected(error: string) | Send(username: string, oldPassword: string, newPassword: string)

  function MismatchMessage(lang: Lang): (r: string)
    ensures r == "新密码两次输入不一致" <==> lang == Cn
  {
    assert "New passwords do not match"[0] != "新密码两次输入不一致"[0];
    match lang
    case Cn => "新密码两次输入不一致"
    case En => "New passwords do not match"
  }

  function LengthMessage(lang: Lang): (r: string)
    ensures r == "新密码长度至少为 6 位" <==> lang == Cn
  {
    assert "New password must be at least 6 characters"[0] != "新密码长度至少为 6 位"[0];
    match lang
    case Cn => "新密码长度至少为 6 位"
    case En => "New password must be at least 6 characters"
  }

  function FailureMessage(lang: Lang): (r: string)
    ensures r == "修改失败，请检查原密码" <==> lang == Cn
  {
    assert "Failed to change password"[0] != "修改失败，请检查原密码"[0];
    match lang
    case Cn => "修改失败，请检查原密码"
    case En => "Failed to change password"
  }

  /** The checks of `handleSubmit`, in their order: all filled, the two new entries agree, at least 6 long. */
  function Validate(username: string, f: Fields, lang: Lang): (r: Check)
    ensures f.oldPassword == "" || f.newPassword == "" || f.confirmPassword == "" ==> r == Ignored
    ensures r.Ignored? ==> f.oldPassword == "" || f.newPassword == "" || f.confirmPassword == ""
    ensures r == Rejected(MismatchMessage(lang)) <==>
              f.oldPassword != "" && f.newPassword != "" && f.confirmPassword != "" && f.newPassword != f.confirmPassword
    ensures r == Rejected(LengthMessage(lang)) <==>
              f.oldPassword != "" && f.newPassword != "" && f.confirmPassword != "" && f.newPassword == f.confirmPassword
              && WritingPhase.Utf16Length(f.newPassword) < 6
    ensures r.Send? <==>
              f.oldPassword != "" && f.newPassword != "" && f.newPassword == f.confirmPassword
              && WritingPhase.Utf16Length(f.newPassword) >= 6
    ensures r.Send? ==> r == Send(username, f.oldPassword, f.newPassword)
  {
    assert MismatchMessage(lang) != LengthMessage(lang) by {
      assert |MismatchMessage(lang)| < |LengthMessage(lang)|;
    }
    if f.oldPassword == "" || f.newPassword == "" || f.confirmPassword == "" then Ignored
    else if f.newPassword != f.confirmPassword then Rejected(MismatchMessage(lang))
    else if WritingPhase.Utf16Length(f.newPassword) < 6 then Rejected(LengthMessage(lang))
    else Send(username, f.oldPassword, f.newPassword)
  }

  /** The dialog's visible state. */
  datatype Dialog = Dialog(error: string, success: bool, loading: bool)

  /**
   * `handleSubmit` from validation to the end; `outcome` is how
   * `changePassword` settled (`None`: resolved; `Some(m)`: rejected with message `m`).
   */
  function Submit(d: Dialog, username: string, f: Fields, lang: Lang, outcome: Option<string>): (r: Dialog)
    ensures Validate(username, f, lang).Ignored? ==> r == d
    ensures Validate(username, f, lang).Rejected? ==> r == d.(error := Validate(username, f, lang).error)
    ensures Validate(username, f, lang).Send? ==> !r.loading
    ensures Validate(username, f, lang).Send? && outcome.None? ==> r.success && r.error == ""
    ensures Validate(username, f, lang).Send? && outcome.Some? ==>
              r.success == d.success && r.error == (if outcome.value != "" then outcome.value else FailureMessage(lang))
  {
    match Validate(username, f, lang)
    case Ignored => d
    case Rejected(m) => d.(error := m)
    case Send(_, _, _) =>
      match outcome
      case None => Dialog("", true, false)
      case Some(m) => Dialog(if m != "" then m else FailureMessage(lang), d.success, false)
  }

  /** The request the dialog's call puts on the wire. */
  function Request(c: Check): AuthApi.AuthRequest
    requires c.Send?
  {
    AuthApi.AuthRequest(Some("change-password"), Present(c.username), Absent, Present(c.oldPassword), Present(c.newPassword))
  }

  /**
   * Against the auth handler: a wrong old password ends with the server's
   * "Incorrect old password" in the dialog and the store untouched.
   */
  lemma WrongOldPasswordShown(d: Dialog, username: string, f: Fields, lang: Lang, store: Store)
    requires username != ""
    requires Validate(username, f, lang).Send?
    requires UserKey(username) in store && PasswordOf(store[UserKey(username)]) != Present(f.oldPassword)
    ensures var step := AuthApi.HandleAuth(Request(Validate(username, f, lang)), store);
            var outcome := StorageService.ChangePasswordOutcome(StorageService.Delivered(step.response));
            && step.store == store
            && Submit(d, username, f, lang, outcome).error == "Incorrect old password"
  {
  }
}
