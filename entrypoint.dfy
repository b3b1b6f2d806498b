/**
  The submission form (`Entrypoint`): email and topic checks, the request body, what
  the form does with the server's reply, and the Reset button. The HTTP call is not
  modelled: `Submit` returns the request it would send and `Settle` takes the reply.
 */
module Entrypoint {

  import opened Json
  import opened JsText

  // ---------------------------------------------------------------------------
  // validateEmail

  /** The character class `[^\s@]`. */
  predicate EmailChar(c: char) {
    c != '@' && !IsSpace(c)
  }

  /** Every character is in `[^\s@]`. */
  predicate AllEmailChars(x: string) {
    forall k :: 0 <= k < |x| ==> EmailChar(x[k])
  }

  /** `[^\s@]+`. */
  predicate Run(x: string) {
    |x| > 0 && AllEmailChars(x)
  }

  /** The regular expression `^[^\s@]+@[^\s@]+\.[^\s@]+$` as a split of the whole
      string: a run, '@', a run, '.', a run. */
  ghost predicate MatchesEmailPattern(t: string) {
    exists i, j :: 0 < i && i + 1 < j && j + 1 < |t| && t[i] == '@' && t[j] == '.'
                   && Run(t[..i]) && Run(t[i + 1..j]) && Run(t[j + 1..])
  }

  /** The domain has a '.' with at least one character on either side. */
  predicate HasInnerDot(d: string) {
    exists k :: 0 < k < |d| - 1 && d[k] == '.'
  }

  /** An address split at its first '@' into a non-empty local part and a domain; both
      are free of white space and '@', and the domain has an inner '.'. */
  predicate EmailShape(t: string) {
    match IndexOf(t, '@')
    case None => false
    case Some(i) => i > 0 && AllEmailChars(t[..i]) && AllEmailChars(t[i + 1..]) && HasInnerDot(t[i + 1..])
  }

  lemma ShapeMatchesPattern(t: string)
    requires EmailShape(t)
    ensures MatchesEmailPattern(t)
  {
    var i := IndexOf(t, '@').value;
    var d := t[i + 1..];
    var k :| 0 < k < |d| - 1 && d[k] == '.';
    var j := i + 1 + k;
    assert t[i + 1..j] == d[..k];
    assert t[j + 1..] == d[k + 1..];
    assert Run(t[..i]);
    assert Run(t[i + 1..j]) && Run(t[j + 1..]);
  }

  lemma PatternHasShape(t: string)
    requires MatchesEmailPattern(t)
    ensures EmailShape(t)
  {
    var i, j :| 0 < i && i + 1 < j && j + 1 < |t| && t[i] == '@' && t[j] == '.'
                && Run(t[..i]) && Run(t[i + 1..j]) && Run(t[j + 1..]);
    assert '@' !in t[..i] by {
      forall k | 0 <= k < i ensures t[..i][k] != '@' {
        assert EmailChar(t[..i][k]);
      }
    }
    assert IndexOf(t, '@') == Some(i);
    var d := t[i + 1..];
    forall k | 0 <= k < |d| ensures EmailChar(d[k]) {
      if k < j - i - 1 {
        assert d[k] == t[i + 1..j][k];
      } else if k > j - i - 1 {
        assert d[k] == t[j + 1..][k - (j - i)];
      }
    }
    assert d[j - i - 1] == '.';
  }

  lemma EmailShapeIsPattern(t: string)
    ensures EmailShape(t) <==> MatchesEmailPattern(t)
  {
    if EmailShape(t) {
      ShapeMatchesPattern(t);
    }
    if MatchesEmailPattern(t) {
      PatternHasShape(t);
    }
  }

  /** `validateEmail(e)`: the trimmed input matches `^[^\s@]+@[^\s@]+\.[^\s@]+$`. */
  function ValidateEmail(e: string): (ok: bool)
    ensures ok <==> MatchesEmailPattern(Trim(e))
  {
    EmailShapeIsPattern(Trim(e));
    EmailShape(Trim(e))
  }

  const InvalidEmailMessage: string := "Please enter a valid email address."
  const MissingTopicMessage: string := "Please add a topic."

  /** The checks `handleSubmit` makes before sending, in order: the email first, then
      the topic. The result is the message of the first check that fails, if any. */
  function CheckInput(email: string, topic: string): Option<string> {
    if !ValidateEmail(email) then Some(InvalidEmailMessage)
    else if Trim(topic) == "" then Some(MissingTopicMessage)
    else None
  }

  /** A request goes out exactly when the email is valid and the topic is not all white
      space; otherwise the message names the first check that failed. */
  lemma CheckInputOutcomes(email: string, topic: string)
    ensures CheckInput(email, topic).None? <==> ValidateEmail(email) && !AllSpace(topic)
    ensures CheckInput(email, topic) == Some(InvalidEmailMessage) <==> !ValidateEmail(email)
    ensures CheckInput(email, topic) == Some(MissingTopicMessage) <==> ValidateEmail(email) && AllSpace(topic)
  {
    TrimEmptyIffAllSpace(topic);
  }

  // ---------------------------------------------------------------------------
  // The reply

  predicate IsTruthy(v: Option<Value>) {
    v.Some? && Truthy(v.value)
  }

  /** The position of the first truthy operand of `a || b || …`, if any. */
  function FirstTruthyIndex(operands: seq<Option<Value>>): (r: Option<nat>)
    ensures r.None? <==> forall k :: 0 <= k < |operands| ==> !IsTruthy(operands[k])
    ensures r.Some? ==> r.value < |operands| && IsTruthy(operands[r.value])
                        && forall k :: 0 <= k < r.value ==> !IsTruthy(operands[k])
    decreases |operands|
  {
    if operands == [] then None
    else if IsTruthy(operands[0]) then Some(0)
    else match FirstTruthyIndex(operands[1..])
      case None => None
      case Some(i) => Some(i + 1)
  }

  /** `a || b || … || fallback`: the first truthy operand, else the fallback. */
  function FirstTruthy(operands: seq<Option<Value>>, fallback: Value): Value {
    match FirstTruthyIndex(operands)
    case None => fallback
    case Some(i) => operands[i].value
  }

  /** `data?.user_id || data?.userId || data?.id || null`. */
  function UserIdOf(data: map<string, Value>): (r: Value)
    ensures Truthy(r) <==> TruthyField(data, "user_id") || TruthyField(data, "userId") || TruthyField(data, "id")
    ensures !Truthy(r) ==> r == Null
    ensures TruthyField(data, "user_id") ==> r == data["user_id"]
    ensures !TruthyField(data, "user_id") && TruthyField(data, "userId") ==> r == data["userId"]
    ensures !TruthyField(data, "user_id") && !TruthyField(data, "userId") && TruthyField(data, "id") ==>
              r == data["id"]
  {
    var operands := [Get(data, "user_id"), Get(data, "userId"), Get(data, "id")];
    assert IsTruthy(operands[0]) <==> TruthyField(data, "user_id");
    assert IsTruthy(operands[1]) <==> TruthyField(data, "userId");
    assert IsTruthy(operands[2]) <==> TruthyField(data, "id");
    FirstTruthy(operands, Null)
  }

  /** `data?.request_id || data?.requestId || null`. */
  function RequestIdOf(data: map<string, Value>): (r: Value)
    ensures Truthy(r) <==> TruthyField(data, "request_id") || TruthyField(data, "requestId")
    ensures !Truthy(r) ==> r == Null
    ensures TruthyField(data, "request_id") ==> r == data["request_id"]
    ensures !TruthyField(data, "request_id") && TruthyField(data, "requestId") ==> r == data["requestId"]
  {
    var operands := [Get(data, "request_id"), Get(data, "requestId")];
    assert IsTruthy(operands[0]) <==> TruthyField(data, "request_id");
    assert IsTruthy(operands[1]) <==> TruthyField(data, "requestId");
    FirstTruthy(operands, Null)
  }

  const SubmittedMessage: string := "Request submitted successfully."
  const NetworkErrorMessage: string := "Network error."

  /** The HTTP outcome: a 2xx reply with its body's fields, or a failure with the body's
      `message` of the error response (absent without a response) and the error's own
      `message`. */
  datatype Reply =
    | Replied(data: map<string, Value>)
    | Failed(responseMessage: Option<Value>, errorMessage: Option<Value>)

  /** The status line shown after the reply: success exactly for a 2xx reply. Its
      message is the reply's own `message` when truthy, else the default; for a failure
      it is the response's `message`, else the error's `message`, else "Network error.". */
  function ReplyStatus(reply: Reply): (st: Status)
    ensures st.kind == Succeeded <==> reply.Replied?
    ensures Truthy(st.msg)
    ensures reply.Replied? ==>
              st.msg == if TruthyField(reply.data, "message") then reply.data["message"] else Str(SubmittedMessage)
    ensures reply.Failed? ==>
              st.msg == if IsTruthy(reply.responseMessage) then reply.responseMessage.value
                        else if IsTruthy(reply.errorMessage) then reply.errorMessage.value
                        else Str(NetworkErrorMessage)
  {
    match reply
    case Replied(data) =>
      Status(Succeeded, FirstTruthy([Get(data, "message")], Str(SubmittedMessage)))
    case Failed(responseMessage, errorMessage) =>
      var operands := [responseMessage, errorMessage];
      assert operands[0] == responseMessage && operands[1] == errorMessage;
      Status(Failure, FirstTruthy(operands, Str(NetworkErrorMessage)))
  }

  /** What the parent's `onSuccess(userId, requestId)` is called with. */
  datatype Notice = Notice(userId: Value, requestId: Option<Value>)

  /** The `onSuccess` call a reply leads to: only for a success that names a truthy user
      id under one of its three keys, and then with a truthy user id and a request id
      that is present (possibly null). */
  function ReplyNotice(reply: Reply): (n: Option<Notice>)
    ensures n.Some? <==> reply.Replied? && (TruthyField(reply.data, "user_id")
                           || TruthyField(reply.data, "userId") || TruthyField(reply.data, "id"))
    ensures n.Some? ==> Truthy(n.value.userId) && n.value.requestId.Some?
    ensures n.Some? ==> n.value.userId == UserIdOf(reply.data) && n.value.requestId == Some(RequestIdOf(reply.data))
  {
    if reply.Replied? && Truthy(UserIdOf(reply.data)) then
      Some(Notice(UserIdOf(reply.data), Some(RequestIdOf(reply.data))))
    else None
  }

  // ---------------------------------------------------------------------------
  // The form

  datatype StatusKind = Succeeded | Failure
  datatype Status = Status(kind: StatusKind, msg: Value)

  /** The body of `POST /movie`. */
  datatype MovieRequest = MovieRequest(email: string, topic: string)

  datatype FormState = FormState(email: string, topic: string, loading: bool, status: Option<Status>, locked: bool)

  class SubmissionForm {
    var email: string
    var topic: string
    var loading: bool
    var status: Option<Status>
    var locked: bool

    function State(): FormState
      reads this
    {
      FormState(email, topic, loading, status, locked)
    }

    constructor ()
      ensures State() == FormState("", "", false, None, false)
    {
      email, topic, loading, status, locked := "", "", false, None, false;
    }

    /** Typing in the email field; the field is disabled while the form is locked. */
    method EditEmail(value: string)
      modifies this
      ensures State() == if old(locked) then old(State()) else old(State()).(email := value)
    {
      if !locked {
        email := value;
      }
    }

    /** Typing in the topic field; the field is disabled while the form is locked. */
    method EditTopic(value: string)
      modifies this
      ensures State() == if old(locked) then old(State()) else old(State()).(topic := value)
    {
      if !locked {
        topic := value;
      }
    }

    /** Submitting the form (`handleSubmit`). The submit button is disabled while
        loading or locked, so nothing happens then. Otherwise the status is cleared and
        the inputs checked; a failed check shows its message and sends nothing; when both
        pass the form is loading and sends the trimmed email and topic. */
    method Submit() returns (request: Option<MovieRequest>)
      modifies this
      ensures old(loading || locked) ==> request == None && State() == old(State())
      ensures !old(loading || locked) && CheckInput(old(email), old(topic)).Some? ==>
                request == None
                && State() == old(State()).(status := Some(Status(Failure, Str(CheckInput(old(email), old(topic)).value))))
      ensures !old(loading || locked) && CheckInput(old(email), old(topic)).None? ==>
                request == Some(MovieRequest(Trim(old(email)), Trim(old(topic))))
                && State() == old(State()).(status := None, loading := true)
    {
      if loading || locked {
        return None;
      }
      var problem := CheckInput(email, topic);
      var sent := MovieRequest(Trim(email), Trim(topic));
      if problem.Some? {
        Show(Some(Status(Failure, Str(problem.value))));
        return None;
      }
      Show(None);
      Begin();
      request := Some(sent);
    }

    /** Sets the status line. */
    method Show(st: Option<Status>)
      modifies this
      ensures State() == old(State()).(status := st)
    {
      status := st;
    }

    /** Marks the request as in flight. */
    method Begin()
      modifies this
      ensures State() == old(State()).(loading := true)
    {
      loading := true;
    }

    /** The reply to the request in flight (`call_axios_api` after the `await`). A success
        shows the server's message or the default one, locks the form, and yields the
        `onSuccess` call when the reply names a truthy user id; a failure shows the first
        of the response's message, the error's message and "Network error.". Either way
        loading ends. An exception thrown by `onSuccess` is caught, so it cannot change
        this outcome. */
    method Settle(reply: Reply) returns (notice: Option<Notice>)
      requires loading
      modifies this
      ensures State() == old(State()).(
                status := Some(ReplyStatus(reply)), loading := false,
                locked := old(locked) || reply.Replied?)
      ensures notice == ReplyNotice(reply)
    {
      status := Some(ReplyStatus(reply));
      if reply.Replied? {
        locked := true;
      }
      notice := ReplyNotice(reply);
      loading := false;
    }

    /** The Reset button: both fields and the status cleared, the form unlocked, and the
        parent told `onSuccess(null)`. Loading is left as it is. */
    method Reset() returns (notice: Notice)
      modifies this
      ensures State() == old(State()).(email := "", topic := "", status := None, locked := false)
      ensures notice == Notice(Null, None)
    {
      email, topic, status, locked := "", "", None, false;
      notice := Notice(Null, None);
    }
  }
}
