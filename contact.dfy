/** The contact page's form: the e-mail check, the ordered validation in the
    submit handler, and how each step leaves the form's state. The e-mail
    service call is replaced by its outcome. */
module Contact {
  import opened Wrappers
  import opened Text

  // ---------------------------------------------------------------------
  // The e-mail check

  /** A character of the class `[^\s@]`. */
  predicate IsEmailChar(c: char) {
    !IsWhitespace(c) && c != '@'
  }

  predicate AllEmailChars(s: string) {
    forall i :: 0 <= i < |s| ==> IsEmailChar(s[i])
  }

  /** `s` matches `/^[^\s@]+@[^\s@]+\.[^\s@]+$/` with its '@' at `at` and the
      literal '.' at `dot`. */
  ghost predicate EmailSplit(s: string, at: int, dot: int) {
    && 0 < at && at + 1 < dot && dot + 1 < |s|
    && s[at] == '@' && s[dot] == '.'
    && AllEmailChars(s[..at]) && AllEmailChars(s[at + 1..dot]) && AllEmailChars(s[dot + 1..])
  }

  /** The regular expression of the page, as a specification. */
  ghost predicate MatchesEmailPattern(s: string) {
    exists at, dot :: EmailSplit(s, at, dot)
  }

  /** `[^\s@]+\.[^\s@]+`: e-mail characters only, among them a '.' with at
      least one character on each side. */
  predicate IsDomain(d: string) {
    AllEmailChars(d) && |d| >= 3 && '.' in d[1..|d| - 1]
  }

  /** The check as a left-to-right scan: e-mail characters up to the first
      '@' (at least one of them, or `started`), then a domain. */
  predicate ScanLocal(s: string, started: bool)
    decreases |s|
  {
    && s != []
    && if s[0] == '@' then started && IsDomain(s[1..])
       else IsEmailChar(s[0]) && ScanLocal(s[1..], true)
  }

  predicate IsValidEmail(s: string) {
    ScanLocal(s, false)
  }

  /** Where the first '@' can sit for a scan started in a given state. */
  ghost predicate LocalSplitAt(s: string, started: bool, at: int) {
    0 <= at < |s| && s[at] == '@' && (started || at > 0) && AllEmailChars(s[..at]) && IsDomain(s[at + 1..])
  }

  lemma {:induction false} ScanLocalFindsSplit(s: string, started: bool)
    requires ScanLocal(s, started)
    ensures exists at :: LocalSplitAt(s, started, at)
  {
    if s[0] == '@' {
      assert s[..0] == [];
      assert LocalSplitAt(s, started, 0);
    } else {
      ScanLocalFindsSplit(s[1..], true);
      var at :| LocalSplitAt(s[1..], true, at);
      assert s[..at + 1] == [s[0]] + s[1..][..at];
      assert s[at + 1 + 1..] == s[1..][at + 1..];
      assert LocalSplitAt(s, started, at + 1);
    }
  }

  lemma {:induction false} SplitPassesScanLocal(s: string, started: bool, at: int)
    requires LocalSplitAt(s, started, at)
    ensures ScanLocal(s, started)
    decreases at
  {
    if at > 0 {
      assert s[..at][0] == s[0];
      assert s[1..][..at - 1] == s[..at][1..];
      assert s[1..][at - 1 + 1..] == s[at + 1..];
      SplitPassesScanLocal(s[1..], true, at - 1);
    }
  }

  /** A domain is exactly a `[^\s@]+\.[^\s@]+` match. */
  lemma DomainSplit(d: string)
    ensures IsDomain(d) <==>
      exists k :: 0 < k < |d| - 1 && d[k] == '.' && AllEmailChars(d[..k]) && AllEmailChars(d[k + 1..])
  {
    if IsDomain(d) {
      var j :| 0 <= j < |d| - 2 && d[1..|d| - 1][j] == '.';
      var k := j + 1;
      assert d[k] == '.';
      assert forall i :: 0 <= i < k ==> d[..k][i] == d[i];
      assert forall i :: k < i < |d| ==> d[k + 1..][i - k - 1] == d[i];
    }
    if exists k :: 0 < k < |d| - 1 && d[k] == '.' && AllEmailChars(d[..k]) && AllEmailChars(d[k + 1..]) {
      var k :| 0 < k < |d| - 1 && d[k] == '.' && AllEmailChars(d[..k]) && AllEmailChars(d[k + 1..]);
      assert d[1..|d| - 1][k - 1] == '.';
      forall i | 0 <= i < |d|
        ensures IsEmailChar(d[i])
      {
        if i < k {
          assert d[..k][i] == d[i];
        } else if i > k {
          assert d[k + 1..][i - k - 1] == d[i];
        }
      }
    }
  }

  /** The scan accepts exactly the strings the regular expression matches. */
  lemma EmailCheckMatchesPattern(s: string)
    ensures IsValidEmail(s) <==> MatchesEmailPattern(s)
  {
    if IsValidEmail(s) {
      ScanLocalFindsSplit(s, false);
      var at :| LocalSplitAt(s, false, at);
      var d := s[at + 1..];
      DomainSplit(d);
      var k :| 0 < k < |d| - 1 && d[k] == '.' && AllEmailChars(d[..k]) && AllEmailChars(d[k + 1..]);
      assert d[..k] == s[at + 1..at + 1 + k];
      assert d[k + 1..] == s[at + 1 + k + 1..];
      assert EmailSplit(s, at, at + 1 + k);
    }
    if MatchesEmailPattern(s) {
      var at, dot :| EmailSplit(s, at, dot);
      var d := s[at + 1..];
      var k := dot - at - 1;
      assert d[..k] == s[at + 1..dot];
      assert d[k + 1..] == s[dot + 1..];
      DomainSplit(d);
      SplitPassesScanLocal(s, false, at);
    }
  }

  const EmailRequired := "Email address is required"
  const EmailInvalid := "Please enter a valid email address"
  const NameMissingError := "Please enter your name"
  const MessageMissingError := "Please enter a message"
  const SendFailedError := "Failed to send message. Please try again."
  const RecipientName := "Ali Khries"

  /** The error `validateEmail` leaves shown for a value; "" when accepted. */
  function EmailError(value: string): string {
    if value == "" then EmailRequired
    else if !IsValidEmail(value) then EmailInvalid
    else ""
  }

  /** No error is shown exactly for a non-empty value the regular expression
      matches; an empty value is reported as missing, not as malformed. */
  lemma EmailErrorMeaning(value: string)
    ensures EmailError(value) == "" <==> value != "" && MatchesEmailPattern(value)
    ensures value == "" ==> EmailError(value) == EmailRequired
    ensures value != "" && !MatchesEmailPattern(value) ==> EmailError(value) == EmailInvalid
  {
    EmailCheckMatchesPattern(value);
  }

  // ---------------------------------------------------------------------
  // The submit handler's validation order

  datatype SubmitCheck = NameMissing | EmailRejected | MessageMissing | Ready

  /** Name, then e-mail, then message; the first failure decides. A field
      fails `trim()` exactly when it is all white space (`BlankIffAllWhitespace`). */
  function CheckSubmission(name: string, email: string, message: string): SubmitCheck {
    if AllWhitespace(name) then NameMissing
    else if EmailError(email) != "" then EmailRejected
    else if AllWhitespace(message) then MessageMissing
    else Ready
  }

  /** A form is sent only when the name and the message are not blank after
      trimming and the e-mail is accepted; a failure is reported only once
      every earlier field has passed. */
  lemma CheckSubmissionOrder(name: string, email: string, message: string)
    ensures CheckSubmission(name, email, message) == Ready <==>
      !IsBlank(name) && email != "" && MatchesEmailPattern(email) && !IsBlank(message)
    ensures CheckSubmission(name, email, message) == NameMissing <==> IsBlank(name)
    ensures CheckSubmission(name, email, message) == EmailRejected <==>
      !IsBlank(name) && (email == "" || !MatchesEmailPattern(email))
    ensures CheckSubmission(name, email, message) == MessageMissing <==>
      !IsBlank(name) && email != "" && MatchesEmailPattern(email) && IsBlank(message)
  {
    BlankIffAllWhitespace(name);
    BlankIffAllWhitespace(message);
    EmailErrorMeaning(email);
  }

  /** The template parameters handed to the e-mail service. */
  datatype TemplateParams = TemplateParams(fromName: string, fromEmail: string, message: string, toName: string)

  class ContactForm {
    var name: string
    var email: string
    var message: string
    var emailError: string
    var isSubmitting: bool
    var submitSuccess: bool
    var submitError: string

    constructor()
      ensures name == "" && email == "" && message == "" && emailError == ""
      ensures !isSubmitting && !submitSuccess && submitError == ""
    {
      name, email, message, emailError := "", "", "", "";
      isSubmitting, submitSuccess, submitError := false, false, "";
    }

    /** `validateEmail`: reports whether the value is accepted and shows the
        matching error. */
    method ValidateEmail(value: string) returns (valid: bool)
      modifies this`emailError
      ensures emailError == EmailError(value)
      ensures valid <==> emailError == ""
    {
      if value == "" {
        emailError := EmailRequired;
        return false;
      }
      if !IsValidEmail(value) {
        emailError := EmailInvalid;
        return false;
      }
      emailError := "";
      valid := true;
    }

    method ChangeName(value: string)
      modifies this`name
      ensures name == value
    {
      name := value;
    }

    method ChangeMessage(value: string)
      modifies this`message
      ensures message == value
    {
      message := value;
    }

    /** Typing in the e-mail field re-validates only while an error is shown. */
    method ChangeEmail(value: string)
      modifies this`email, this`emailError
      ensures email == value
      ensures old(emailError) == "" ==> emailError == ""
      ensures old(emailError) != "" ==> emailError == EmailError(value)
    {
      var wasShowingError := emailError != "";
      email := value;
      if wasShowingError {
        var _ := ValidateEmail(value);
      }
    }

    /** Leaving the e-mail field always re-validates it. */
    method BlurEmail()
      modifies this`emailError
      ensures emailError == EmailError(email)
    {
      var _ := ValidateEmail(email);
    }

    /** `handleSubmit` up to the e-mail service call: validates in order and,
        when every field passes, enters the in-flight state and returns the
        request to send. No field is changed. The submit button is disabled
        while a send is in flight, so this never runs then. */
    method Submit() returns (request: Option<TemplateParams>)
      requires !isSubmitting
      modifies this`emailError, this`isSubmitting, this`submitError
      ensures request.Some? <==> CheckSubmission(old(name), old(email), old(message)) == Ready
      ensures request.Some? ==> request.value == TemplateParams(old(name), old(email), old(message), RecipientName)
      ensures CheckSubmission(old(name), old(email), old(message)) == NameMissing ==>
        submitError == NameMissingError && emailError == old(emailError) && isSubmitting == old(isSubmitting)
      ensures CheckSubmission(old(name), old(email), old(message)) == EmailRejected ==>
        submitError == old(submitError) && emailError == EmailError(old(email)) && isSubmitting == old(isSubmitting)
      ensures CheckSubmission(old(name), old(email), old(message)) == MessageMissing ==>
        submitError == MessageMissingError && emailError == "" && isSubmitting == old(isSubmitting)
      ensures CheckSubmission(old(name), old(email), old(message)) == Ready ==>
        submitError == "" && emailError == "" && isSubmitting
    {
      var fromName, fromEmail, text := name, email, message;
      var check := CheckSubmission(fromName, fromEmail, text);
      if check == NameMissing {
        submitError := NameMissingError;
        return None;
      }
      var emailOk := ValidateEmail(fromEmail);
      if !emailOk {
        return None;
      }
      if check == MessageMissing {
        submitError := MessageMissingError;
        return None;
      }
      submitError := "";
      isSubmitting := true;
      request := Some(TemplateParams(fromName, fromEmail, text, RecipientName));
    }

    /** The end of `handleSubmit` once the service has answered: success
        clears the fields and shows the banner, failure keeps them and shows
        an error; either way the form leaves the in-flight state. */
    method FinishSend(delivered: bool)
      modifies this`name, this`email, this`message, this`submitSuccess, this`submitError, this`isSubmitting
      ensures !isSubmitting
      ensures delivered ==> name == "" && email == "" && message == ""
                            && submitSuccess && submitError == old(submitError)
      ensures !delivered ==> name == old(name) && email == old(email) && message == old(message)
                             && submitSuccess == old(submitSuccess) && submitError == SendFailedError
    {
      if delivered {
        name, email, message := "", "", "";
        submitSuccess := true;
      } else {
        submitError := SendFailedError;
      }
      isSubmitting := false;
    }

    /** The whole handler with the service's answer as a parameter: nothing is
        sent unless every check passes, and a send always ends the in-flight
        state. Like `Submit`, it only runs while no send is in flight. */
    method HandleSubmit(delivered: bool) returns (sent: Option<TemplateParams>)
      requires !isSubmitting
      modifies this`name, this`email, this`message, this`emailError, this`isSubmitting,
               this`submitSuccess, this`submitError
      ensures sent.Some? <==> CheckSubmission(old(name), old(email), old(message)) == Ready
      ensures sent.None? ==> name == old(name) && email == old(email) && message == old(message)
                             && submitSuccess == old(submitSuccess) && isSubmitting == old(isSubmitting)
      ensures sent.None? ==>
        var check := CheckSubmission(old(name), old(email), old(message));
        && (check == NameMissing ==> submitError == NameMissingError && emailError == old(emailError))
        && (check == EmailRejected ==> submitError == old(submitError) && emailError == EmailError(old(email)))
        && (check == MessageMissing ==> submitError == MessageMissingError && emailError == "")
      ensures sent.Some? ==> !isSubmitting && emailError == ""
      ensures sent.Some? && delivered ==> name == "" && email == "" && message == ""
                                          && submitSuccess && submitError == ""
      ensures sent.Some? && !delivered ==> name == old(name) && email == old(email) && message == old(message)
                                           && submitSuccess == old(submitSuccess) && submitError == SendFailedError
    {
      sent := Submit();
      if sent.Some? {
        FinishSend(delivered);
      }
    }

    /** The success banner's timeout. */
    method DismissSuccess()
      modifies this`submitSuccess
      ensures !submitSuccess
    {
      submitSuccess := false;
    }
  }
}
