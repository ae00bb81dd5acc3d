/** The pure decision logic of the homework bot: the status catalog, the
    notification formatter, the response validator, the configuration check
    and the choice of the `from_date` sent to the review API. */
module Homework {
  import opened Wrappers
  import opened PyValue

  /** What a cycle of the bot can raise. */
  datatype Error =
    | Raised(cause: PyError)     // a built-in exception from `[]` or `.get`
    | BotError(message: string)  // the bot's own exception, with its text
    | JsonDecodeError            // the reply body is not JSON
    | TelegramError              // `Bot.send_message` raised

  const KeyNotFound := "Ключ словаря не найден!"
  const UnknownStatus := "Неизвестный статус домашки!"
  const EmptyList := "Список домашек пуст!"
  const EndpointUnavailable := "Эндпоинт недоступен!"
  const RequestFailed := "Сбой при запросе к эндпоинту!"

  /** The verdict texts of the three known review statuses. */
  const ApprovedVerdict := "Работа проверена: ревьюеру всё понравилось. Ура!"
  const ReviewingVerdict := "Работа взята на проверку ревьюером."
  const RejectedVerdict := "Работа проверена: у ревьюера есть замечания."

  const HomeworkStatuses: map<string, string> := map[
    "approved" := ApprovedVerdict,
    "reviewing" := ReviewingVerdict,
    "rejected" := RejectedVerdict
  ]

  /** The notification template is Lead + name + Separator + verdict. */
  const Lead := "Изменился статус проверки работы \""
  const Separator := "\". "

  // ---------------------------------------------------------------------
  // Status catalog
  // ---------------------------------------------------------------------

  /** `HOMEWORK_STATUSES[status]` guarded by `status in HOMEWORK_STATUSES`:
      a list or dict status is unhashable, any other value outside the
      catalog is an unknown status. */
  function Verdict(status: Value): (r: Result<string, Error>)
    ensures r.Success? <==> status.Str? && status.s in {"approved", "reviewing", "rejected"}
    ensures status == Str("approved") ==> r == Success(ApprovedVerdict)
    ensures status == Str("reviewing") ==> r == Success(ReviewingVerdict)
    ensures status == Str("rejected") ==> r == Success(RejectedVerdict)
    ensures (status.List? || status.Dict?) ==> r == Failure(Raised(TypeError))
    ensures r.Failure? && !status.List? && !status.Dict? ==> r == Failure(BotError(UnknownStatus))
  {
    match status
    case List(_) => Failure(Raised(TypeError))
    case Dict(_) => Failure(Raised(TypeError))
    case Str(s) => if s in HomeworkStatuses then Success(HomeworkStatuses[s]) else Failure(BotError(UnknownStatus))
    case _ => Failure(BotError(UnknownStatus))
  }

  /** The catalog holds exactly three statuses and no two share a verdict. */
  lemma CatalogIsClosed()
    ensures HomeworkStatuses.Keys == {"approved", "reviewing", "rejected"}
    ensures forall s1, s2 :: s1 in HomeworkStatuses && s2 in HomeworkStatuses && s1 != s2 ==>
              HomeworkStatuses[s1] != HomeworkStatuses[s2]
  {
  }

  // ---------------------------------------------------------------------
  // Notification formatter
  // ---------------------------------------------------------------------

  /** A record `parse_status` accepts: a dict with both keys whose status is
      a string of the catalog. */
  predicate Notifiable(homework: Value) {
    && homework.Dict?
    && "homework_name" in homework.entries
    && "status" in homework.entries
    && homework.entries["status"].Str?
    && homework.entries["status"].s in HomeworkStatuses
  }

  /** The rendered notification; it shows the name right after the lead and
      ends with the verdict. */
  function Notification(name: string, verdict: string): (m: string)
    ensures |m| == |Lead| + |name| + |Separator| + |verdict|
    ensures m[..|Lead|] == Lead
    ensures m[|Lead|..|Lead| + |name|] == name
    ensures m[|m| - |verdict| - |Separator|..] == Separator + verdict
  {
    Lead + name + Separator + verdict
  }

  function Lift(r: Result<Value, PyError>): Result<Value, Error> {
    match r
    case Success(v) => Success(v)
    case Failure(e) => Failure(Raised(e))
  }

  /** `parse_status(homework)`. */
  function ParseStatus(homework: Value): (r: Result<string, Error>)
    ensures r.Success? <==> Notifiable(homework)
    ensures r.Success? ==> r.value == Notification(ToStr(homework.entries["homework_name"]),
                                                    HomeworkStatuses[homework.entries["status"].s])
    ensures !homework.Dict? ==> r == Failure(Raised(TypeError))
    ensures homework.Dict? && "homework_name" !in homework.entries ==>
              r == Failure(Raised(KeyError(Str("homework_name"))))
    ensures homework.Dict? && "homework_name" in homework.entries && "status" !in homework.entries ==>
              r == Failure(Raised(KeyError(Str("status"))))
    ensures homework.Dict? && "homework_name" in homework.entries && "status" in homework.entries
            && homework.entries["status"].Str? && homework.entries["status"].s !in HomeworkStatuses ==>
              r == Failure(BotError(UnknownStatus))
  {
    var name :- Lift(Item(homework, "homework_name"));
    var status :- Lift(Item(homework, "status"));
    var verdict :- Verdict(status);
    Success(Notification(ToStr(name), verdict))
  }

  /** Reads a notification back: the homework name and the status code. */
  function ReadNotification(m: string): Option<(string, string)> {
    if |m| < |Lead| || m[..|Lead|] != Lead then None
    else if EndsWithVerdict(m, "approved") then Some((NameIn(m, "approved"), "approved"))
    else if EndsWithVerdict(m, "reviewing") then Some((NameIn(m, "reviewing"), "reviewing"))
    else if EndsWithVerdict(m, "rejected") then Some((NameIn(m, "rejected"), "rejected"))
    else None
  }

  predicate EndsWithVerdict(m: string, status: string)
    requires status in HomeworkStatuses
  {
    var tail := Separator + HomeworkStatuses[status];
    |m| >= |Lead| + |tail| && m[|m| - |tail|..] == tail
  }

  function NameIn(m: string, status: string): string
    requires status in HomeworkStatuses
    requires EndsWithVerdict(m, status)
  {
    m[|Lead|..|m| - |Separator| - |HomeworkStatuses[status]|]
  }

  /** A notification for one status never ends with another status's verdict. */
  lemma VerdictTailsDiffer(m: string, status: string, other: string)
    requires status in HomeworkStatuses && other in HomeworkStatuses && status != other
    requires EndsWithVerdict(m, status)
    ensures !EndsWithVerdict(m, other)
  {
    var t1 := Separator + HomeworkStatuses[status];
    var t2 := Separator + HomeworkStatuses[other];
    assert t1[|t1| - 1] != t2[|t2| - 1] || t1[|t1| - 2] != t2[|t2| - 2];
    assert m[|m| - 1] == t1[|t1| - 1] && m[|m| - 2] == t1[|t1| - 2];
  }

  /** Reading a notification gives back the name and status it was built from. */
  lemma {:induction false} NotificationRoundTrip(name: string, status: string)
    requires status in HomeworkStatuses
    ensures ReadNotification(Notification(name, HomeworkStatuses[status])) == Some((name, status))
  {
    var m := Notification(name, HomeworkStatuses[status]);
    assert EndsWithVerdict(m, status);
    forall other | other in HomeworkStatuses && other != status
      ensures !EndsWithVerdict(m, other)
    {
      VerdictTailsDiffer(m, status, other);
    }
    assert NameIn(m, status) == name;
  }

  /** Whatever reads as a notification is exactly that notification. */
  lemma ReadNotificationSound(m: string)
    requires ReadNotification(m).Some?
    ensures ReadNotification(m).value.1 in HomeworkStatuses
    ensures m == Notification(ReadNotification(m).value.0, HomeworkStatuses[ReadNotification(m).value.1])
  {
    var (name, status) := ReadNotification(m).value;
    var tail := Separator + HomeworkStatuses[status];
    assert m[..|Lead|] == Lead && m[|m| - |tail|..] == tail && m[|Lead|..|m| - |tail|] == name;
    SplitInThree(m, |Lead|, |m| - |tail|);
  }

  lemma SplitInThree(m: string, i: nat, j: nat)
    requires i <= j <= |m|
    ensures m == m[..i] + m[i..j] + m[j..]
  {
  }

  /** Equal notifications come from records with the same rendered name and
      the same status: the message identifies what changed. */
  lemma ParseStatusInjective(h1: Value, h2: Value)
    requires ParseStatus(h1).Success? && ParseStatus(h2).Success?
    requires ParseStatus(h1) == ParseStatus(h2)
    ensures ToStr(h1.entries["homework_name"]) == ToStr(h2.entries["homework_name"])
    ensures h1.entries["status"] == h2.entries["status"]
  {
    NotificationRoundTrip(ToStr(h1.entries["homework_name"]), h1.entries["status"].s);
    NotificationRoundTrip(ToStr(h2.entries["homework_name"]), h2.entries["status"].s);
  }

  // ---------------------------------------------------------------------
  // Response validator
  // ---------------------------------------------------------------------

  /** `check_response(response)`: the `homeworks` value, whatever its type. */
  function CheckResponse(response: Value): (r: Result<Value, Error>)
    ensures r.Success? <==> response.Dict? && "homeworks" in response.entries
                            && response.entries["homeworks"] != Null
    ensures r.Success? ==> r.value == response.entries["homeworks"]
    ensures response.Dict? && r.Failure? ==> r == Failure(BotError(KeyNotFound))
    ensures !response.Dict? ==> r == Failure(Raised(AttributeError))
  {
    var homeworks :- Lift(Get(response, "homeworks"));
    if homeworks == Null then Failure(BotError(KeyNotFound)) else Success(homeworks)
  }

  // ---------------------------------------------------------------------
  // Configuration check
  // ---------------------------------------------------------------------

  /** The three environment variables the bot reads at import time. */
  datatype Env = Env(practicumToken: Option<string>, telegramToken: Option<string>, telegramChatId: Option<string>)

  const RequiredVariables: seq<string> := ["PRACTICUM_TOKEN", "TELEGRAM_TOKEN", "TELEGRAM_CHAT_ID"]

  /** The variables' values, in the order they are checked. */
  function Values(env: Env): seq<Option<string>> {
    [env.practicumToken, env.telegramToken, env.telegramChatId]
  }

  /** The variable `check_tokens` reports as missing, if any. */
  function MissingVariable(env: Env): (r: Option<string>)
    ensures r.None? <==> forall i :: 0 <= i < 3 ==> Values(env)[i].Some?
    ensures r.Some? ==> exists i :: 0 <= i < 3 && Values(env)[i].None? && r.value == RequiredVariables[i]
                                    && forall j :: 0 <= j < i ==> Values(env)[j].Some?
  {
    var values := Values(env);
    if env.practicumToken.None? then assert values[0].None?; Some("PRACTICUM_TOKEN")
    else if env.telegramToken.None? then assert values[1].None?; Some("TELEGRAM_TOKEN")
    else if env.telegramChatId.None? then assert values[2].None?; Some("TELEGRAM_CHAT_ID")
    else None
  }

  /** `check_tokens()`: true iff every variable is set (an empty value counts). */
  function CheckTokens(env: Env): (ok: bool)
    ensures ok <==> env.practicumToken.Some? && env.telegramToken.Some? && env.telegramChatId.Some?
    ensures ok <==> MissingVariable(env).None?
  {
    MissingVariable(env).None?
  }

  // ---------------------------------------------------------------------
  // Fetching
  // ---------------------------------------------------------------------

  /** `current_timestamp or int(time.time())`: the `from_date` of a request. */
  function FromDate(cursor: Value, now: nat): (d: Value)
    ensures Truthy(cursor) ==> d == cursor
    ensures !Truthy(cursor) ==> d == Int(now)
    ensures now != 0 ==> Truthy(d)
  {
    Or(cursor, Int(now))
  }

  /** What the HTTP request and the decoding of its body came to. */
  datatype Reply =
    | Decoded(body: Value)    // the body parsed as JSON, whatever the status code
    | NotJson                 // `Response.json()` raised
    | BuiltinConnectionError  // a built-in `ConnectionError` escaped `requests.get`
    | Failed                  // `requests.get` raised anything else, including
                              // `requests.exceptions.ConnectionError` for an
                              // unreachable host, which is not a built-in one

  /** `get_api_answer` after the request: the decoded body or the exception. */
  function ApiAnswer(reply: Reply): (r: Result<Value, Error>)
    ensures r.Success? <==> reply.Decoded?
    ensures r.Success? ==> r.value == reply.body
    ensures reply.NotJson? ==> r == Failure(JsonDecodeError)
    ensures reply.BuiltinConnectionError? ==> r == Failure(BotError(EndpointUnavailable))
    ensures reply.Failed? ==> r == Failure(BotError(RequestFailed))
  {
    match reply
    case Decoded(body) => Success(body)
    case NotJson => Failure(JsonDecodeError)
    case BuiltinConnectionError => Failure(BotError(EndpointUnavailable))
    case Failed => Failure(BotError(RequestFailed))
  }
}
