/**
 * The sign-in / sign-up page: its redirect for a signed-in visitor, the
 * fields it keeps, and what one press of the submit button does.
 */
module AuthScreen {
  import opened Wrappers
  import opened Text
  import opened Session

  /** The page's effect: a signed-in visitor is sent to the requester dashboard. */
  function AuthRedirect(user: Option<UserId>): (r: Option<string>)
    ensures r.Some? <==> user.Some?
    ensures r.Some? ==> r.value == DashboardPath
  {
    if user.Some? then Some(DashboardPath) else None
  }

  /** What `signIn` or `signUp` gave back: a result whose `error` may be set, or a rejection. */
  datatype AuthReply = Replied(error: Option<string>) | Threw

  /** The call the handler made to the authentication context. */
  datatype AuthCall =
    | NoCall
    | SignInCall(email: string, password: string)
    | SignUpCall(email: string, password: string, fullName: string, asPandit: bool)

  datatype Notice = Notice(title: string, description: string, destructive: bool)

  /** The notice for a call that threw instead of replying. */
  const UnexpectedErrorNotice := Notice("An error occurred", "Please try again later.", true)

  /** The visible effects of one submission. */
  datatype SubmitResult = SubmitResult(call: AuthCall, notice: Notice, navigateTo: Option<string>)

  /**
   * `handleSubmit` for the given form fields. In sign-in mode the reply is
   * `signIn`'s; in sign-up mode it is `signUp`'s, and it is not consulted
   * when the name is blank, since no call is made.
   */
  function Submission(isLogin: bool, email: string, password: string, fullName: string, isPandit: bool,
                      reply: AuthReply): (r: SubmitResult)
    ensures r.navigateTo.Some? <==> isLogin && reply == Replied(None)
    ensures r.navigateTo.Some? ==> r.navigateTo.value == DashboardPath
    ensures isLogin ==> r.call == SignInCall(email, password)
    ensures !isLogin ==> r.call == NoCall || r.call == SignUpCall(email, password, fullName, isPandit)
    ensures !r.notice.destructive <==> r.call != NoCall && reply == Replied(None)
    ensures r.call != NoCall && reply.Replied? && reply.error.Some? ==> r.notice.description == reply.error.value
    ensures r.call != NoCall && reply.Threw? ==> r.notice == UnexpectedErrorNotice
  {
    if isLogin then
      match reply
      case Threw => SubmitResult(SignInCall(email, password), UnexpectedErrorNotice, None)
      case Replied(Some(message)) => SubmitResult(SignInCall(email, password), Notice("Sign in failed", message, true), None)
      case Replied(None) =>
        SubmitResult(SignInCall(email, password), Notice("Welcome back!", "You have been signed in successfully.", false),
                     Some(DashboardPath))
    else if Trim(fullName) == "" then
      SubmitResult(NoCall, Notice("Full name required", "Please enter your full name.", true), None)
    else
      var call := SignUpCall(email, password, fullName, isPandit);
      match reply
      case Threw => SubmitResult(call, UnexpectedErrorNotice, None)
      case Replied(Some(message)) => SubmitResult(call, Notice("Sign up failed", message, true), None)
      case Replied(None) =>
        SubmitResult(call, Notice("Account created!", "Please check your email to verify your account.", false), None)
  }

  /** A failed sign-in shows the provider's message verbatim and stays on the page. */
  lemma SignInErrorShowsMessage(email: string, password: string, fullName: string, isPandit: bool, message: string)
    ensures var r := Submission(true, email, password, fullName, isPandit, Replied(Some(message)));
      r.notice.description == message && r.notice.destructive && r.navigateTo == None
  {
  }

  /**
   * A failed sign-up (a taken email, a weak password, ...) shows the
   * provider's message verbatim and stays on the page.
   */
  lemma SignUpErrorShowsMessage(email: string, password: string, fullName: string, isPandit: bool, message: string)
    requires !IsBlank(fullName)
    ensures var r := Submission(false, email, password, fullName, isPandit, Replied(Some(message)));
      r.call == SignUpCall(email, password, fullName, isPandit)
      && r.notice.description == message && r.notice.destructive && r.navigateTo == None
  {
    TrimEmptyIffBlank(fullName);
  }

  /** A call that throws, in either mode, shows the generic destructive notice and stays on the page. */
  lemma ThrownCallShowsGenericNotice(isLogin: bool, email: string, password: string, fullName: string, isPandit: bool)
    requires isLogin || !IsBlank(fullName)
    ensures var r := Submission(isLogin, email, password, fullName, isPandit, Threw);
      r.call != NoCall && r.notice == Notice("An error occurred", "Please try again later.", true)
      && r.navigateTo == None
  {
    TrimEmptyIffBlank(fullName);
  }

  /**
   * Sign-up calls `signUp` exactly when the name has a non-whitespace
   * character, and then passes the name as typed, untrimmed.
   */
  lemma SignUpNeedsNonBlankName(email: string, password: string, fullName: string, isPandit: bool, reply: AuthReply)
    ensures var r := Submission(false, email, password, fullName, isPandit, reply);
      (r.call == NoCall <==> IsBlank(fullName))
      && (!IsBlank(fullName) ==> r.call == SignUpCall(email, password, fullName, isPandit))
  {
    TrimEmptyIffBlank(fullName);
  }

  /** Creating an account never navigates, even when it succeeds. */
  lemma SignUpNeverNavigates(email: string, password: string, fullName: string, isPandit: bool, reply: AuthReply)
    ensures Submission(false, email, password, fullName, isPandit, reply).navigateTo == None
  {
  }

  /** The form state of the page. */
  class AuthForm {
    var isLogin: bool
    var email: string
    var password: string
    var fullName: string
    var isPandit: bool
    var showPassword: bool
    var loading: bool
    /** Every value written to `loading`, in order. */
    ghost var loadingWrites: seq<bool>

    /** The submit button is disabled while loading, so between handlers nothing is in flight. */
    ghost predicate Valid()
      reads this
    {
      !loading
    }

    constructor ()
      ensures Valid()
      ensures isLogin && email == "" && password == "" && fullName == "" && !isPandit && !showPassword
      ensures loadingWrites == []
    {
      isLogin, email, password, fullName := true, "", "", "";
      isPandit, showPassword, loading := false, false, false;
      loadingWrites := [];
    }

    /** The link under the form switches between signing in and creating an account. */
    method ToggleMode()
      modifies this`isLogin
      ensures isLogin == !old(isLogin)
    {
      isLogin := !isLogin;
    }

    /** The account-type radio group. */
    method ChooseAccountType(value: string)
      modifies this`isPandit
      ensures isPandit <==> value == "pandit"
    {
      isPandit := value == "pandit";
    }

    method ToggleShowPassword()
      modifies this`showPassword
      ensures showPassword == !old(showPassword)
    {
      showPassword := !showPassword;
    }

    method EditEmail(value: string)
      modifies this`email
      ensures email == value
    {
      email := value;
    }

    method EditPassword(value: string)
      modifies this`password
      ensures password == value
    {
      password := value;
    }

    method EditFullName(value: string)
      modifies this`fullName
      ensures fullName == value
    {
      fullName := value;
    }

    /** The radio group shows 'pandit' exactly when `isPandit` is set. */
    function AccountTypeValue(): (v: string)
      reads this
      ensures v == "pandit" <==> isPandit
    {
      if isPandit then "pandit" else "user"
    }

    /**
     * `handleSubmit`: turns `loading` on, runs `Submission`, and turns it off
     * again on every path. The blank-name path writes `false` twice, once
     * itself and once in `finally`.
     */
    method HandleSubmit(reply: AuthReply) returns (result: SubmitResult)
      requires Valid()
      modifies this`loading, this`loadingWrites
      ensures Valid()
      ensures result == Submission(isLogin, email, password, fullName, isPandit, reply)
      ensures loadingWrites == old(loadingWrites) +
        if !isLogin && Trim(fullName) == "" then [true, false, false] else [true, false]
    {
      loading := true;
      loadingWrites := loadingWrites + [true];
      if !isLogin && Trim(fullName) == "" {
        loading := false;
        loadingWrites := loadingWrites + [false];
      }
      result := Submission(isLogin, email, password, fullName, isPandit, reply);
      loading := false;
      loadingWrites := loadingWrites + [false];
    }
  }
}
