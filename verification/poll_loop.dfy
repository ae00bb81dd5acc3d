/** The body of the bot's `while True` loop as a pure step on the cursor
    (`current_timestamp`), and a bounded run of such steps. The clock, the
    HTTP reply and the outcome of the Telegram send are inputs of a cycle. */
module PollLoop {
  import opened Wrappers
  import opened PyValue
  import opened Homework

  /** What the outside world contributes to one cycle. */
  datatype Input = Input(now: nat, reply: Reply, delivered: bool)

  /** What one cycle did: the `from_date` it requested, the message it
      delivered (if any), the cursor for the next cycle and the exception
      that ended the cycle (if any). */
  datatype Outcome = Outcome(fromDate: Value, sent: Option<string>, cursor: Value, failure: Option<Error>)

  /** `homeworks[0]`, checked against `None` and handed to `parse_status`. */
  function FirstNotification(homeworks: Value): (r: Result<string, Error>)
    ensures r.Success? <==> homeworks.List? && |homeworks.items| > 0 && Notifiable(homeworks.items[0])
    ensures r.Success? ==> r == ParseStatus(homeworks.items[0])
    ensures homeworks.List? && |homeworks.items| == 0 ==> r == Failure(Raised(IndexError))
    ensures homeworks.List? && |homeworks.items| > 0 && homeworks.items[0] == Null ==> r == Failure(BotError(EmptyList))
    ensures !homeworks.List? ==> r.Failure?
  {
    var first :- Lift(First(homeworks));
    if first == Null then Failure(BotError(EmptyList)) else ParseStatus(first)
  }

  /** The part of a cycle before the send: the response and its message. */
  function Prepare(reply: Reply): (r: Result<(Value, string), Error>)
    ensures r.Success? <==> Notifies(reply)
    ensures r.Success? ==> r.value == (reply.body, ParseStatus(FirstEntry(reply)).value)
  {
    var response :- ApiAnswer(reply);
    var homeworks :- CheckResponse(response);
    var message :- FirstNotification(homeworks);
    Success((response, message))
  }

  /** One pass of the loop body, starting from cursor `cursor`. */
  function Cycle(cursor: Value, input: Input): (o: Outcome)
    ensures o.fromDate == FromDate(cursor, input.now)
    ensures o.failure.None? <==> Advances(input)
    ensures Advances(input) ==> o.cursor == CurrentDate(input)
    ensures !Advances(input) ==> o.cursor == cursor
    ensures o.sent.Some? <==> Notifies(input.reply) && input.delivered
    ensures o.sent.Some? ==> o.sent.value == ParseStatus(FirstEntry(input.reply)).value
  {
    var fromDate := FromDate(cursor, input.now);
    match Prepare(input.reply)
    case Failure(e) => Outcome(fromDate, None, cursor, Some(e))
    case Success((response, message)) =>
      if !input.delivered then Outcome(fromDate, None, cursor, Some(TelegramError))
      else match Item(response, "current_date")
        case Failure(e) => Outcome(fromDate, Some(message), cursor, Some(Raised(e)))
        case Success(date) => Outcome(fromDate, Some(message), date, None)
  }

  // ---------------------------------------------------------------------
  // When a cycle succeeds, stated without following the code path
  // ---------------------------------------------------------------------

  /** The reply carries a non-empty `homeworks` list whose first entry
      `parse_status` accepts. */
  predicate Notifies(reply: Reply) {
    && reply.Decoded?
    && reply.body.Dict?
    && "homeworks" in reply.body.entries
    && reply.body.entries["homeworks"].List?
    && |reply.body.entries["homeworks"].items| > 0
    && Notifiable(reply.body.entries["homeworks"].items[0])
  }

  function FirstEntry(reply: Reply): Value
    requires Notifies(reply)
  {
    reply.body.entries["homeworks"].items[0]
  }

  /** The cycle gets through to moving the cursor: the message is built and
      delivered and the response has a `current_date`. */
  predicate Advances(input: Input) {
    Notifies(input.reply) && input.delivered && "current_date" in input.reply.body.entries
  }

  function CurrentDate(input: Input): Value
    requires Advances(input)
  {
    input.reply.body.entries["current_date"]
  }

  // ---------------------------------------------------------------------
  // Properties of one cycle
  // ---------------------------------------------------------------------

  /** Every delivered message is a well-formed notification. */
  lemma CycleSendsNotification(cursor: Value, input: Input)
    ensures Cycle(cursor, input).sent.Some? ==> ReadNotification(Cycle(cursor, input).sent.value).Some?
  {
    if Cycle(cursor, input).sent.Some? {
      var h := FirstEntry(input.reply);
      NotificationRoundTrip(ToStr(h.entries["homework_name"]), h.entries["status"].s);
    }
  }

  /** An empty `homeworks` list makes `homeworks[0]` raise `IndexError`:
      nothing is sent and the cursor stays where it was. */
  lemma EmptyListFailsCycle(cursor: Value, now: nat, entries: map<string, Value>, delivered: bool)
    requires "homeworks" in entries && entries["homeworks"] == List([])
    ensures var o := Cycle(cursor, Input(now, Decoded(Dict(entries)), delivered));
            o.sent.None? && o.cursor == cursor && o.failure == Some(Raised(IndexError))
  {
  }

  /** Only `homeworks[0]` is looked at: the rest of the list has no effect. */
  lemma OnlyFirstEntryMatters(cursor: Value, now: nat, entries: map<string, Value>, delivered: bool,
                              first: Value, rest1: seq<Value>, rest2: seq<Value>)
    ensures Cycle(cursor, Input(now, Decoded(Dict(entries["homeworks" := List([first] + rest1)])), delivered))
         == Cycle(cursor, Input(now, Decoded(Dict(entries["homeworks" := List([first] + rest2)])), delivered))
  {
  }

  /** After a failed cycle the next request asks for the same `from_date`,
      provided the cursor is true. It need not be: a successful cycle stores
      `current_date` as it is, so a false one (0, `None`, `""`, `False`)
      makes every later request ask from the clock instead
      (`FalsyCursorRetriesFromClock`). */
  lemma FailedCycleRetriesSameDate(cursor: Value, input: Input, next: Input)
    requires Truthy(cursor) && !Advances(input)
    ensures Cycle(Cycle(cursor, input).cursor, next).fromDate == Cycle(cursor, input).fromDate
  {
  }

  /** After a successful cycle the next request asks from the returned
      `current_date`, when that value is true. */
  lemma SucceededCycleRequestsCurrentDate(cursor: Value, input: Input, next: Input)
    requires Advances(input) && Truthy(CurrentDate(input))
    ensures Cycle(Cycle(cursor, input).cursor, next).fromDate == CurrentDate(input)
  {
  }

  /** A response whose `current_date` is missing: the message has already
      gone out when `response['current_date']` raises, so the cursor stays. */
  lemma SentWithoutCurrentDate(cursor: Value, input: Input)
    requires Notifies(input.reply) && input.delivered
    requires "current_date" !in input.reply.body.entries
    ensures Cycle(cursor, input).sent.Some?
    ensures Cycle(cursor, input).cursor == cursor
    ensures Cycle(cursor, input).failure == Some(Raised(KeyError(Str("current_date"))))
  {
  }

  // ---------------------------------------------------------------------
  // Concrete cycles
  // ---------------------------------------------------------------------

  function Record(name: string, status: string): Value {
    Dict(map["homework_name" := Str(name), "status" := Str(status)])
  }

  /** An approved homework is announced and the cursor moves to 1000. */
  lemma ApprovedCycle()
    ensures var body := Dict(map["homeworks" := List([Record("hw1", "approved")]), "current_date" := Int(1000)]);
            var o := Cycle(Int(500), Input(700, Decoded(body), true));
            && o.fromDate == Int(500)
            && o.sent == Some(Lead + "hw1" + Separator + ApprovedVerdict)
            && o.cursor == Int(1000)
  {
    var h := Record("hw1", "approved");
    var body := Dict(map["homeworks" := List([h]), "current_date" := Int(1000)]);
    var input := Input(700, Decoded(body), true);
    assert Notifiable(h);
    assert Advances(input);
    assert FirstEntry(input.reply) == h;
  }

  /** An empty list is a failed cycle: the cursor stays at 500, not 2000. */
  lemma EmptyListCycle()
    ensures var body := Dict(map["homeworks" := List([]), "current_date" := Int(2000)]);
            var o := Cycle(Int(500), Input(700, Decoded(body), true));
            o.sent.None? && o.cursor == Int(500) && o.failure == Some(Raised(IndexError))
  {
  }

  /** An unknown status raises before anything is sent. */
  lemma UnknownStatusCycle()
    ensures var body := Dict(map["homeworks" := List([Record("hw2", "archived")]), "current_date" := Int(3000)]);
            var o := Cycle(Int(500), Input(700, Decoded(body), true));
            o.sent.None? && o.cursor == Int(500) && o.failure == Some(BotError(UnknownStatus))
  {
  }

  /** An unreachable host makes `requests.get` raise the library's own
      `ConnectionError`, which the generic branch catches: the cycle fails
      with "Сбой при запросе к эндпоинту!" and keeps the cursor; a zero
      cursor asks from `now`. */
  lemma UnreachableHostCycle()
    ensures var o := Cycle(Int(0), Input(700, Failed, true));
            o.fromDate == Int(700) && o.sent.None? && o.cursor == Int(0)
            && o.failure == Some(BotError(RequestFailed))
  {
  }

  /** A first entry that is `None` fails the cycle with "Список домашек пуст!". */
  lemma NullFirstEntryFailsCycle(cursor: Value, now: nat, entries: map<string, Value>, delivered: bool,
                                 rest: seq<Value>)
    requires "homeworks" in entries && entries["homeworks"] == List([Null] + rest)
    ensures var o := Cycle(cursor, Input(now, Decoded(Dict(entries)), delivered));
            o.sent.None? && o.cursor == cursor && o.failure == Some(BotError(EmptyList))
  {
  }

  /** A success whose `current_date` is 0 leaves a false cursor, so the two
      failed retries after it ask from the clock readings 800 and 900, not
      from one fixed date. */
  lemma FalsyCursorRetriesFromClock()
    ensures var body := Dict(map["homeworks" := List([Record("hw1", "approved")]), "current_date" := Int(0)]);
            var o1 := Cycle(Int(500), Input(700, Decoded(body), true));
            var o2 := Cycle(o1.cursor, Input(800, Failed, true));
            var o3 := Cycle(o2.cursor, Input(900, Failed, true));
            && o1.failure.None? && o1.cursor == Int(0)
            && o2.fromDate == Int(800) && o3.fromDate == Int(900)
  {
    var h := Record("hw1", "approved");
    var body := Dict(map["homeworks" := List([h]), "current_date" := Int(0)]);
    assert Notifiable(h);
    assert Advances(Input(700, Decoded(body), true));
  }

  // ---------------------------------------------------------------------
  // A bounded run of cycles
  // ---------------------------------------------------------------------

  /** The delivered messages, the requested dates and the final cursor. */
  datatype Trace = Trace(cursor: Value, sent: seq<string>, requests: seq<Value>)

  function Sent(o: Outcome): seq<string> {
    if o.sent.Some? then [o.sent.value] else []
  }

  /** Cycles run one after another, each starting from the previous cursor. */
  function Run(cursor: Value, inputs: seq<Input>): (t: Trace)
    ensures |t.requests| == |inputs|
    ensures |inputs| > 0 ==> t.requests[0] == FromDate(cursor, inputs[0].now)
    decreases |inputs|
  {
    if |inputs| == 0 then Trace(cursor, [], [])
    else
      var o := Cycle(cursor, inputs[0]);
      var rest := Run(o.cursor, inputs[1..]);
      Trace(rest.cursor, Sent(o) + rest.sent, [o.fromDate] + rest.requests)
  }

  /** Reference cursor: the `current_date` of the last cycle that advanced,
      or the starting cursor when none did. */
  function LastAdvanced(cursor: Value, inputs: seq<Input>): Value
    decreases |inputs|
  {
    if |inputs| == 0 then cursor
    else
      var last := inputs[|inputs| - 1];
      if Advances(last) then CurrentDate(last) else LastAdvanced(cursor, inputs[..|inputs| - 1])
  }

  lemma {:induction false} LastAdvancedCons(cursor: Value, input: Input, inputs: seq<Input>)
    ensures LastAdvanced(cursor, [input] + inputs) == LastAdvanced(Cycle(cursor, input).cursor, inputs)
    decreases |inputs|
  {
    if |inputs| == 0 {
      assert ([input] + inputs)[..0] == [];
    } else {
      var init := inputs[..|inputs| - 1];
      assert ([input] + inputs)[..|inputs|] == [input] + init;
      LastAdvancedCons(cursor, input, init);
    }
  }

  /** The cursor after a run is the `current_date` of its last successful
      cycle; failed cycles never move it. */
  lemma {:induction false} RunCursor(cursor: Value, inputs: seq<Input>)
    ensures Run(cursor, inputs).cursor == LastAdvanced(cursor, inputs)
    decreases |inputs|
  {
    if |inputs| > 0 {
      RunCursor(Cycle(cursor, inputs[0]).cursor, inputs[1..]);
      LastAdvancedCons(cursor, inputs[0], inputs[1..]);
      assert [inputs[0]] + inputs[1..] == inputs;
    }
  }

  /** One request per cycle, at most one message per cycle, and every
      message is a well-formed notification. */
  lemma {:induction false} RunSendsAtMostOnePerCycle(cursor: Value, inputs: seq<Input>)
    ensures |Run(cursor, inputs).requests| == |inputs|
    ensures |Run(cursor, inputs).sent| <= |inputs|
    ensures forall k :: 0 <= k < |Run(cursor, inputs).sent| ==> ReadNotification(Run(cursor, inputs).sent[k]).Some?
    decreases |inputs|
  {
    if |inputs| > 0 {
      var o := Cycle(cursor, inputs[0]);
      RunSendsAtMostOnePerCycle(o.cursor, inputs[1..]);
      CycleSendsNotification(cursor, inputs[0]);
    }
  }

  /** `Run` from the `i`-th input is that cycle followed by the rest. */
  lemma RunUnfold(cursor: Value, inputs: seq<Input>, i: nat)
    requires i < |inputs|
    ensures var o := Cycle(cursor, inputs[i]);
            var rest := Run(o.cursor, inputs[i + 1..]);
            Run(cursor, inputs[i..]) == Trace(rest.cursor, Sent(o) + rest.sent, [o.fromDate] + rest.requests)
  {
    assert inputs[i..][1..] == inputs[i + 1..];
  }

  /** The trace of cycles already done followed by the trace of the rest. */
  function Then(done: Trace, rest: Trace): Trace {
    Trace(rest.cursor, done.sent + rest.sent, done.requests + rest.requests)
  }

  /** Doing cycle `i` moves it from the rest of the run to the done part. */
  lemma ThenStep(done: Trace, inputs: seq<Input>, i: nat)
    requires i < |inputs|
    ensures var o := Cycle(done.cursor, inputs[i]);
            var next := Trace(o.cursor, done.sent + Sent(o), done.requests + [o.fromDate]);
            Then(next, Run(o.cursor, inputs[i + 1..])) == Then(done, Run(done.cursor, inputs[i..]))
  {
    var o := Cycle(done.cursor, inputs[i]);
    var rest := Run(o.cursor, inputs[i + 1..]);
    RunUnfold(done.cursor, inputs, i);
    assert done.sent + (Sent(o) + rest.sent) == (done.sent + Sent(o)) + rest.sent;
    assert done.requests + ([o.fromDate] + rest.requests) == (done.requests + [o.fromDate]) + rest.requests;
  }

  /** `main`: the cursor starts at the clock reading `start` and the loop
      body runs once per input, producing the trace `Run` defines; so it
      sends at most one message per cycle (`RunSendsAtMostOnePerCycle`). */
  method Poll(start: nat, inputs: seq<Input>) returns (t: Trace)
    ensures t == Run(Int(start), inputs)
    ensures t.cursor == LastAdvanced(Int(start), inputs)
  {
    t := Trace(Int(start), [], []);
    var i := 0;
    while i < |inputs|
      invariant 0 <= i <= |inputs|
      invariant Then(t, Run(t.cursor, inputs[i..])) == Run(Int(start), inputs)
    {
      ThenStep(t, inputs, i);
      var o := Cycle(t.cursor, inputs[i]);
      t := Trace(o.cursor, t.sent + Sent(o), t.requests + [o.fromDate]);
      i := i + 1;
    }
    assert t.sent + [] == t.sent && t.requests + [] == t.requests;
    RunCursor(Int(start), inputs);
  }
}
