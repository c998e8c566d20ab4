/** The polling loop of main(): one iteration as a state transition over the
    `timestamp` cursor, the messages handed to the chat transport, and a
    finite run of iterations. The fetch result and the outcome of each send
    are inputs; the sleep between iterations is not modelled. */
module Bot {
  import opened Json
  import opened Exceptions
  import opened Homework
  import Tokens

  /** What the chat transport did with one message: accepted it, or raised
      an exception with the given text. */
  datatype Delivery = Delivered | Refused(reason: string)

  /** The outside world during one iteration: what get_api_answer returned or
      raised, what became of the status notification if one was sent, and
      what became of the failure notification if one was sent. */
  datatype Cycle = Cycle(fetched: Result<Json>, notify: Delivery, report: Delivery)

  /** The cursor after an iteration and the messages it handed to the transport. */
  datatype StepOutcome = StepOutcome(cursor: Json, attempted: seq<string>)

  /** `response.get('current_date', timestamp)`: the cursor either stays or
      becomes a value the response carried. */
  function NextCursor(fields: map<string, Json>, cursor: Json): (next: Json)
    ensures "current_date" in fields ==> next == fields["current_date"]
    ensures "current_date" !in fields ==> next == cursor
    ensures next == cursor || next in fields.Values
  {
    if "current_date" in fields then fields["current_date"] else cursor
  }

  /** The response is valid and its first record yields a notification. */
  predicate HasNotification(response: Json)
  {
    && CheckResponse(response).Ok?
    && CheckResponse(response).value != []
    && ParseStatus(CheckResponse(response).value[0]).Ok?
  }

  /** The notification for the first record of `response`. */
  function Notification(response: Json): (message: string)
    requires HasNotification(response)
  {
    ParseStatus(CheckResponse(response).value[0]).value
  }

  /** The try block of one iteration: either it runs to its end with the
      decoded response, or it raises; `handed` lists the messages sent
      before that. */
  datatype TryOutcome = TryOutcome(result: Result<map<string, Json>>, handed: seq<string>)

  function TryBlock(fetched: Result<Json>, notify: Delivery): (t: TryOutcome)
    ensures t.result.Ok? ==> fetched == Ok(JObj(t.result.value))
    ensures |t.handed| <= 1
    ensures t.handed != [] ==> fetched.Ok? && HasNotification(fetched.value) && t.handed[0] == Notification(fetched.value)
  {
    match fetched
    case Err(e) => TryOutcome(Err(e), [])
    case Ok(response) =>
      match CheckResponse(response)
      case Err(e) => TryOutcome(Err(e), [])
      case Ok(homeworks) =>
        if homeworks == [] then TryOutcome(Ok(response.fields), [])
        else
          match ParseStatus(homeworks[0])
          case Err(e) => TryOutcome(Err(e), [])
          case Ok(message) =>
            match notify
            case Delivered => TryOutcome(Ok(response.fields), [message])
            case Refused(reason) => TryOutcome(Err(Telegram(reason)), [message])
  }

  /** One iteration of the loop: on success the cursor moves to the response's
      `current_date` (or stays); on any error the cursor stays and the failure
      notification is sent, whatever becomes of that send. */
  function Step(cursor: Json, c: Cycle): (r: StepOutcome)
    ensures |r.attempted| <= 2
  {
    var t := TryBlock(c.fetched, c.notify);
    match t.result
    case Ok(fields) => StepOutcome(NextCursor(fields, cursor), t.handed)
    case Err(e) => StepOutcome(cursor, t.handed + [FailureMessage(e)])
  }

  /** The fetch succeeded and the response passes check_response. */
  predicate Validated(c: Cycle)
  {
    c.fetched.Ok? && CheckResponse(c.fetched.value).Ok?
  }

  /** The fetch succeeded and its first record yields a notification. */
  predicate Notified(c: Cycle)
  {
    c.fetched.Ok? && HasNotification(c.fetched.value)
  }

  /** An iteration in which nothing raises: the response is valid, and when
      its list is not empty, the first record is interpretable and the
      notification goes through. */
  predicate Succeeds(c: Cycle)
  {
    && Validated(c)
    && var homeworks := CheckResponse(c.fetched.value).value;
       homeworks == [] || (Notified(c) && c.notify.Delivered?)
  }

  /** A successful iteration sets the cursor to `current_date` when the
      response has it and keeps it otherwise, whether or not the list was
      empty, and sends exactly the first record's notification, if any. */
  lemma StepOnSuccess(cursor: Json, c: Cycle)
    requires Succeeds(c)
    ensures var response := c.fetched.value;
            var homeworks := response.fields["homeworks"].items;
            && Step(cursor, c).cursor ==
                 (if "current_date" in response.fields then response.fields["current_date"] else cursor)
            && Step(cursor, c).attempted ==
                 (if homeworks == [] then [] else [ParseStatus(homeworks[0]).value])
  {
  }

  /** An iteration in which some stage raises keeps the cursor and sends the
      failure notification for the error that stage raised; a status
      notification that went out before a refused send is the only other
      message. */
  lemma StepOnFailure(cursor: Json, c: Cycle)
    requires !Succeeds(c)
    ensures Step(cursor, c).cursor == cursor
    ensures c.fetched.Err? ==>
              Step(cursor, c).attempted == [FailureMessage(c.fetched.error)]
    ensures c.fetched.Ok? && CheckResponse(c.fetched.value).Err? ==>
              Step(cursor, c).attempted == [FailureMessage(CheckResponse(c.fetched.value).error)]
    ensures Validated(c) && !Notified(c) ==>
              var first := CheckResponse(c.fetched.value).value[0];
              Step(cursor, c).attempted == [FailureMessage(ParseStatus(first).error)]
    ensures Notified(c) ==>
              && c.notify.Refused?
              && Step(cursor, c).attempted == [Notification(c.fetched.value), FailureMessage(Telegram(c.notify.reason))]
  {
  }

  /** A status notification never reads as a failure notification. */
  lemma StatusMessageIsNoFailure(name: string, verdict: string)
    ensures !(FailurePrefix <= StatusMessage(name, verdict))
  {
    var m := StatusMessage(name, verdict);
    assert m[0] == ChangedPrefix[0] != FailurePrefix[0];
  }

  /** An iteration succeeds exactly when its last message (if any) is not a
      failure notification. */
  lemma StepReportsFailureIff(cursor: Json, c: Cycle)
    ensures var a := Step(cursor, c).attempted;
            Succeeds(c) <==> !(|a| > 0 && FailurePrefix <= a[|a| - 1])
  {
    var a := Step(cursor, c).attempted;
    if Succeeds(c) {
      StepOnSuccess(cursor, c);
      if |a| > 0 {
        var homeworks := c.fetched.value.fields["homeworks"].items;
        var record := homeworks[0];
        StatusMessageIsNoFailure(Render(record.fields["homework_name"]),
                                 Verdicts[record.fields["status"].s]);
      }
    } else {
      StepOnFailure(cursor, c);
    }
  }

  /** Only the first homework record is ever read: two iterations whose
      responses agree on everything but the records after the first behave
      the same. */
  lemma OnlyFirstRecordMatters(cursor: Json, fields: map<string, Json>, h: Json,
                               more1: seq<Json>, more2: seq<Json>, notify: Delivery, report: Delivery)
    ensures var c1 := Cycle(Ok(JObj(fields["homeworks" := JArr([h] + more1)])), notify, report);
            var c2 := Cycle(Ok(JObj(fields["homeworks" := JArr([h] + more2)])), notify, report);
            Step(cursor, c1).attempted == Step(cursor, c2).attempted
            && Step(cursor, c1).cursor == Step(cursor, c2).cursor
  {
  }

  /** A response approving homework "X" with a `current_date`: the approval
      notification is sent and, once it is delivered, the cursor moves on. */
  lemma ApprovedResponseAdvances(cursor: Json)
    ensures var record := JObj(map["homework_name" := JStr("X"), "status" := JStr("approved")]);
            var response := JObj(map["homeworks" := JArr([record]), "current_date" := JInt(1700000000)]);
            Step(cursor, Cycle(Ok(response), Delivered, Delivered)) ==
              StepOutcome(JInt(1700000000), [StatusMessage("X", Approved)])
  {
  }

  /** A status outside the table is a failure: the cursor stays where it was. */
  lemma UnknownStatusKeepsCursor(cursor: Json, report: Delivery)
    ensures var record := JObj(map["homework_name" := JStr("X"), "status" := JStr("archived")]);
            var response := JObj(map["homeworks" := JArr([record]), "current_date" := JInt(1700000000)]);
            Step(cursor, Cycle(Ok(response), Delivered, report)) ==
              StepOutcome(cursor, [FailureMessage(UnexpectedStatus("archived"))])
  {
  }

  /** `cycles` run one after the other from `cursor`. */
  function Run(cursor: Json, cycles: seq<Cycle>): (r: StepOutcome)
    ensures |r.attempted| <= 2 * |cycles|
    decreases |cycles|
  {
    if cycles == [] then StepOutcome(cursor, [])
    else
      var before := Run(cursor, cycles[..|cycles| - 1]);
      var last := Step(before.cursor, cycles[|cycles| - 1]);
      StepOutcome(last.cursor, before.attempted + last.attempted)
  }

  /** Running one more iteration extends the run by that iteration's step. */
  lemma RunExtend(cursor: Json, cycles: seq<Cycle>, i: nat)
    requires i < |cycles|
    ensures var before := Run(cursor, cycles[..i]);
            var last := Step(before.cursor, cycles[i]);
            Run(cursor, cycles[..i + 1]) == StepOutcome(last.cursor, before.attempted + last.attempted)
  {
    assert cycles[..i + 1][..i] == cycles[..i];
  }

  /** An iteration that succeeds with a response carrying `current_date`. */
  predicate Carries(c: Cycle)
  {
    Succeeds(c) && "current_date" in c.fetched.value.fields
  }

  /** The `current_date` a carrying iteration applies. */
  function CarriedDate(c: Cycle): (date: Json)
    requires Carries(c)
  {
    c.fetched.value.fields["current_date"]
  }

  lemma Associative(a: seq<string>, b: seq<string>, c: seq<string>)
    ensures a + b + c == a + (b + c)
  {
  }

  /** The `current_date` of the last iteration in `cycles` that succeeds with
      one, or `start` when none does. */
  function LastDate(start: Json, cycles: seq<Cycle>): (date: Json)
    decreases |cycles|
  {
    if cycles == [] then start
    else if Carries(cycles[|cycles| - 1]) then CarriedDate(cycles[|cycles| - 1])
    else LastDate(start, cycles[..|cycles| - 1])
  }

  /** One iteration moves the cursor to its `current_date` when it carries one
      and leaves it alone otherwise. */
  lemma StepCursor(cursor: Json, c: Cycle)
    ensures Step(cursor, c).cursor == if Carries(c) then CarriedDate(c) else cursor
  {
    if Succeeds(c) {
      StepOnSuccess(cursor, c);
    } else {
      StepOnFailure(cursor, c);
    }
  }

  /** After any number of iterations the cursor is the `current_date` of the
      last iteration that succeeded with one, or the start value. */
  lemma {:induction false} RunCursorIsLastDate(cursor: Json, cycles: seq<Cycle>)
    ensures Run(cursor, cycles).cursor == LastDate(cursor, cycles)
    decreases |cycles|
  {
    if cycles != [] {
      var init := cycles[..|cycles| - 1];
      RunCursorIsLastDate(cursor, init);
      StepCursor(Run(cursor, init).cursor, cycles[|cycles| - 1]);
    }
  }

  /** When no iteration carries a `current_date`, LastDate is the start value. */
  lemma {:induction false} LastDateWithoutDates(start: Json, cycles: seq<Cycle>)
    requires forall k :: 0 <= k < |cycles| ==> !Carries(cycles[k])
    ensures LastDate(start, cycles) == start
    decreases |cycles|
  {
    if cycles != [] {
      var n := |cycles| - 1;
      assert !Carries(cycles[n]);
      forall k | 0 <= k < n ensures !Carries(cycles[..n][k]) {
        assert cycles[..n][k] == cycles[k];
      }
      LastDateWithoutDates(start, cycles[..n]);
    }
  }

  /** When iteration `k` carries a `current_date` and no later one does,
      LastDate is the date of iteration `k`. */
  lemma {:induction false} LastDateIsLast(start: Json, cycles: seq<Cycle>, k: nat)
    requires k < |cycles| && Carries(cycles[k])
    requires forall j :: k < j < |cycles| ==> !Carries(cycles[j])
    ensures LastDate(start, cycles) == CarriedDate(cycles[k])
    decreases |cycles|
  {
    var n := |cycles| - 1;
    if k < n {
      assert !Carries(cycles[n]);
      forall j | k < j < n ensures !Carries(cycles[..n][j]) {
        assert cycles[..n][j] == cycles[j];
      }
      assert cycles[..n][k] == cycles[k];
      LastDateIsLast(start, cycles[..n], k);
    }
  }

  /** The state main() keeps across iterations. */
  class HomeworkBot {
    /** The `from_date` for the next request. */
    var timestamp: Json
    /** Every message handed to the chat transport, in order. */
    var sent: seq<string>

    /** The state right after start-up, with the clock reading `now`. */
    constructor (now: int)
      ensures timestamp == JInt(now) && sent == []
    {
      timestamp := JInt(now);
      sent := [];
    }

    /** One pass of the `while True` body. */
    method Iterate(c: Cycle)
      modifies this
      ensures timestamp == Step(old(timestamp), c).cursor
      ensures sent == old(sent) + Step(old(timestamp), c).attempted
    {
      var failure: Option<Error> := None;
      match c.fetched {
        case Err(e) =>
          failure := Some(e);
        case Ok(response) =>
          var homeworks := CheckResponse(response);
          if homeworks.Err? {
            failure := Some(homeworks.error);
          } else {
            if homeworks.value != [] {
              var message := ParseStatus(homeworks.value[0]);
              if message.Err? {
                failure := Some(message.error);
              } else {
                sent := sent + [message.value];
                if c.notify.Refused? {
                  failure := Some(Telegram(c.notify.reason));
                }
              }
            }
            if failure.None? {
              timestamp := NextCursor(response.fields, timestamp);
            }
          }
      }
      if failure.Some? {
        // The failure notification is attempted; if it is refused, the
        // error is only logged.
        sent := sent + [FailureMessage(failure.value)];
      }
    }

    /** The loop driven through a finite list of iterations. */
    method RunCycles(cycles: seq<Cycle>)
      modifies this
      ensures timestamp == Run(old(timestamp), cycles).cursor
      ensures sent == old(sent) + Run(old(timestamp), cycles).attempted
    {
      ghost var start, earlier := timestamp, sent;
      var i := 0;
      while i < |cycles|
        invariant 0 <= i <= |cycles|
        invariant timestamp == Run(start, cycles[..i]).cursor
        invariant sent == earlier + Run(start, cycles[..i]).attempted
      {
        ghost var before := Run(start, cycles[..i]);
        ghost var step := Step(timestamp, cycles[i]);
        Iterate(cycles[i]);
        RunExtend(start, cycles, i);
        Associative(earlier, before.attempted, step.attempted);
        i := i + 1;
      }
      assert cycles[..i] == cycles;
    }
  }

  /** main(): the loop starts only when check_tokens passes; otherwise the
      process exits and no bot is made. */
  method Launch(practicum: Option<string>, telegram: Option<string>,
                chatId: Option<string>, now: int)
    returns (bot: HomeworkBot?)
    ensures (bot != null) <==> Tokens.IsSet(practicum) && Tokens.IsSet(telegram) && Tokens.IsSet(chatId)
    ensures bot != null ==> fresh(bot) && bot.timestamp == JInt(now) && bot.sent == []
  {
    var ok, _ := Tokens.CheckTokens(practicum, telegram, chatId);
    if !ok {
      return null;
    }
    bot := new HomeworkBot(now);
  }
}
