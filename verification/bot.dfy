/**
 The bot's control loop: startup, and one iteration of the polling loop as a
 pure step from the loop state and the outcome of the poll to the next state
 and the messages handed to the notifier. Sending a message is appending it to
 the step's output; the notifier swallows transport failures, so whether a
 message was delivered never influences the state.
 */
module Bot {
  import opened Wrappers
  import opened Json
  import opened Exceptions
  import opened Homework

  /** How far back the first poll reaches, in seconds. */
  const Day := 60 * 60 * 24

  const FirstMessage := "Бот начал работу"
  const NoTokensText := "Отсутствуют переменные окружения"
  const FailurePrefix := "Сбой в работе программы: "

  /**
   The loop-local variables: the watermark sent as `from_date` (whatever the
   last response put under `current_date`) and the last message notified.
   */
  datatype State = State(timestamp: Json, lastStatus: Option<string>)

  /** A state together with the messages sent while reaching it, in order. */
  datatype Output = Output(next: State, sent: seq<string>)

  /** The outcome of `get_api_answer`: the decoded body or what it raised. */
  type Fetched = Result<Json, Error>

  /** The failure notice for an exception. */
  function Notice(e: Error): string
  {
    FailurePrefix + e.text
  }

  /**
   Startup: without all three credentials the process exits with a message;
   otherwise polling starts a day back with nothing notified yet, and the
   startup greeting is sent.
   */
  function Start(practicum: Option<string>, telegram: Option<string>, chat: Option<string>, now: int)
    : (r: Result<Output, string>)
    ensures r.Failure? <==> !(Present(practicum) && Present(telegram) && Present(chat))
    ensures r.Failure? ==> r.error == NoTokensText
    ensures r.Success? ==> r.value == Output(State(JInt(now - Day), None), [FirstMessage])
  {
    if !CheckTokens(practicum, telegram, chat) then Failure(NoTokensText)
    else Success(Output(State(JInt(now - Day), None), [FirstMessage]))
  }

  /**
   Notify on change: `message` is sent exactly when it differs from the last
   message notified, and afterwards it is the last message notified.
   */
  function NotifyOnChange(lastStatus: Option<string>, message: string): (r: (Option<string>, seq<string>))
    ensures r.0 == Some(message)
    ensures r.1 == [message] <==> lastStatus != Some(message)
    ensures r.1 == [] <==> lastStatus == Some(message)
  {
    if lastStatus != Some(message) then (Some(message), [message])
    else (lastStatus, [])
  }

  /**
   The body of the `try` block: validate the response, interpret its first
   record if there is one and notify on change, then move the watermark to
   `current_date` when the response carries one. Any exception escapes.
   */
  function Attempt(s: State, fetched: Fetched): (r: Result<Output, Error>)
    ensures r.Success? <==>
              && fetched.Success?
              && CheckResponse(fetched.value).Success?
              && (CheckResponse(fetched.value).value == [] ||
                  ParseStatus(CheckResponse(fetched.value).value[0]).Success?)
    ensures fetched.Failure? ==> r == Failure(fetched.error)
    ensures fetched.Success? && CheckResponse(fetched.value).Failure? ==>
              r == Failure(CheckResponse(fetched.value).error)
    ensures fetched.Success? && CheckResponse(fetched.value).Success? && CheckResponse(fetched.value).value != [] &&
            ParseStatus(CheckResponse(fetched.value).value[0]).Failure? ==>
              r == Failure(ParseStatus(CheckResponse(fetched.value).value[0]).error)
    ensures r.Success? ==>
              fetched.Success? && CheckResponse(fetched.value).Success? &&
              r.value.next.timestamp == Field(fetched.value, "current_date").GetOr(s.timestamp)
    ensures r.Success? && CheckResponse(fetched.value).value == [] ==>
              r.value.sent == [] && r.value.next.lastStatus == s.lastStatus
    ensures r.Success? && CheckResponse(fetched.value).value != [] ==>
              var m := ParseStatus(CheckResponse(fetched.value).value[0]);
              && m.Success?
              && r.value.next.lastStatus == Some(m.value)
              && (r.value.sent == [m.value] <==> s.lastStatus != Some(m.value))
              && (r.value.sent == [] <==> s.lastStatus == Some(m.value))
  {
    match fetched
    case Failure(e) => Failure(e)
    case Success(response) =>
      match CheckResponse(response)
      case Failure(e) => Failure(e)
      case Success(homeworks) =>
        var notified: Result<(Option<string>, seq<string>), Error> :=
          if homeworks == [] then Success((s.lastStatus, []))
          else match ParseStatus(homeworks[0])
            case Failure(e) => Failure(e)
            case Success(message) => Success(NotifyOnChange(s.lastStatus, message));
        match notified
        case Failure(e) => Failure(e)
        case Success((lastStatus, sent)) =>
          var timestamp := match Lookup(response.members, "current_date")
            case Some(date) => date
            case None => s.timestamp;
          Success(Output(State(timestamp, lastStatus), sent))
  }

  /**
   One iteration of the loop: the `try` block, or, when it raised, the failure
   notice sent on change with the watermark left where it was.
   */
  function Step(s: State, fetched: Fetched): (o: Output)
    ensures Attempt(s, fetched).Success? ==> o == Attempt(s, fetched).value
    ensures Attempt(s, fetched).Failure? ==>
              var n := Notice(Attempt(s, fetched).error);
              && o.next == State(s.timestamp, Some(n))
              && (o.sent == [n] <==> s.lastStatus != Some(n))
              && (o.sent == [] <==> s.lastStatus == Some(n))
  {
    match Attempt(s, fetched)
    case Success(o) => o
    case Failure(e) =>
      var (lastStatus, sent) := NotifyOnChange(s.lastStatus, Notice(e));
      Output(State(s.timestamp, lastStatus), sent)
  }

  /** The loop run over a finite sequence of poll outcomes. */
  function Run(s: State, fetches: seq<Fetched>): (o: Output)
    ensures |o.sent| <= |fetches|
    decreases |fetches|
  {
    if fetches == [] then Output(s, [])
    else
      var first := Step(s, fetches[0]);
      var rest := Run(first.next, fetches[1..]);
      Output(rest.next, first.sent + rest.sent)
  }

  /** The `from_date` of the next poll. */
  function Query(s: State, now: int): Json
  {
    FromDate(s.timestamp, now)
  }

  // ---------------------------------------------------------------------------
  // Properties of one iteration
  // ---------------------------------------------------------------------------

  /** A failure notice never equals a verdict message, so neither kind can silence the other. */
  lemma NoticeIsNeverVerdict(e: Error, name: Json, verdict: string)
    ensures Notice(e) != VerdictMessage(name, verdict)
  {
    assert Notice(e)[0] != VerdictMessage(name, verdict)[0];
  }

  /** Polling twice in a row with the same outcome notifies at most once and changes nothing the second time. */
  lemma StepIdempotent(s: State, fetched: Fetched)
    ensures Step(Step(s, fetched).next, fetched) == Output(Step(s, fetched).next, [])
  {
  }

  /** Only the first homework record matters: responses that agree on it and on `current_date` act alike. */
  lemma StepReadsOnlyFirstRecord(s: State, r1: Json, r2: Json)
    requires CheckResponse(r1).Success? && CheckResponse(r2).Success?
    requires CheckResponse(r1).value != [] && CheckResponse(r2).value != []
    requires CheckResponse(r1).value[0] == CheckResponse(r2).value[0]
    requires Field(r1, "current_date") == Field(r2, "current_date")
    ensures Step(s, Success(r1)) == Step(s, Success(r2))
  {
  }

  /**
   The watermark moves only when the whole `try` block succeeded and the
   response carries `current_date`, and then it becomes that value.
   */
  lemma WatermarkMovesOnlyOnSuccess(s: State, fetched: Fetched)
    ensures Step(s, fetched).next.timestamp ==
              if Attempt(s, fetched).Success? && HasKey(fetched.value, "current_date")
              then Field(fetched.value, "current_date").value
              else s.timestamp
  {
  }

  /** A false `current_date` (`0`, `null`, `""`, ...) makes the next poll ask from the current time. */
  lemma FalseWatermarkPollsFromNow(s: State, response: Json, now: int)
    requires Attempt(s, Success(response)).Success?
    requires HasKey(response, "current_date") && !Truthy(Field(response, "current_date").value)
    ensures Query(Step(s, Success(response)).next, now) == JInt(now)
  {
  }

  /** A truthy `current_date` is the `from_date` of the next poll. */
  lemma TruthyWatermarkIsNextFromDate(s: State, response: Json, now: int)
    requires Attempt(s, Success(response)).Success?
    requires HasKey(response, "current_date") && Truthy(Field(response, "current_date").value)
    ensures Query(Step(s, Success(response)).next, now) == Field(response, "current_date").value
  {
  }

  /**
   Unknown statuses that print differently give different failure notices, so
   two of them on consecutive polls are both notified.
   */
  lemma UnknownStatusNoticesDiffer(a: string, b: string)
    requires a != b
    ensures Notice(Raise(KeyError, UnknownStatusText + a)) != Notice(Raise(KeyError, UnknownStatusText + b))
  {
    var ma, mb := UnknownStatusText + a, UnknownStatusText + b;
    if Notice(Raise(KeyError, ma)) == Notice(Raise(KeyError, mb)) {
      CancelHead(FailurePrefix, Quote(ma), Quote(mb));
      CancelTail("'" + ma, "'" + mb, "'");
      CancelHead("'", ma, mb);
      CancelHead(UnknownStatusText, a, b);
      assert false;
    }
  }

  /** A common head can be taken off both sides of an equation. */
  lemma CancelHead(head: string, x: string, y: string)
    requires head + x == head + y
    ensures x == y
  {
    assert x == (head + x)[|head|..];
  }

  /** A common tail can be taken off both sides of an equation. */
  lemma CancelTail(x: string, y: string, tail: string)
    requires x + tail == y + tail
    ensures x == y
  {
    assert x == (x + tail)[..|x|];
  }

  /** The first poll after startup reaches one day back, unless that instant is the epoch itself. */
  lemma FirstPollReachesADayBack(practicum: Option<string>, telegram: Option<string>, chat: Option<string>, now: int)
    requires Start(practicum, telegram, chat, now).Success?
    ensures now != Day ==> Query(Start(practicum, telegram, chat, now).value.next, now) == JInt(now - Day)
    ensures now == Day ==> Query(Start(practicum, telegram, chat, now).value.next, now) == JInt(now)
  {
  }

  // ---------------------------------------------------------------------------
  // Properties of runs
  // ---------------------------------------------------------------------------

  /** Two identical failures in a row notify once; a differently worded third one notifies again. */
  lemma RepeatedFailureNotifiesOnce(s: State, e: Error, e2: Error)
    requires Notice(e2) != Notice(e)
    ensures Run(s, [Failure(e), Failure(e)]).sent == Step(s, Failure(e)).sent
    ensures Run(s, [Failure(e), Failure(e), Failure(e2)]).sent == Step(s, Failure(e)).sent + [Notice(e2)]
    ensures s.lastStatus != Some(Notice(e)) ==> Run(s, [Failure(e), Failure(e)]).sent == [Notice(e)]
  {
    var o1 := Step(s, Failure(e));
    StepIdempotent(s, Failure(e));
    var o2 := Step(o1.next, Failure(e));
    assert Run(o2.next, [Failure(e2)]).sent == [Notice(e2)];
    var three: seq<Fetched> := [Failure(e), Failure(e), Failure(e2)];
    var two: seq<Fetched> := [Failure(e), Failure(e)];
    assert three[1..] == [Failure(e), Failure(e2)];
    assert two[1..] == [Failure(e)];
  }

  /**
   Verdicts and failure notices share one slot: a verdict, then a failure,
   then the same verdict again notifies three times.
   */
  lemma SharedSlotRenotifies(s: State, response: Json, e: Error)
    requires CheckResponse(response).Success? && CheckResponse(response).value != []
    requires ParseStatus(CheckResponse(response).value[0]).Success?
    requires s.lastStatus != Some(ParseStatus(CheckResponse(response).value[0]).value)
    ensures var m := ParseStatus(CheckResponse(response).value[0]).value;
            Run(s, [Success(response), Failure(e), Success(response)]).sent == [m, Notice(e), m]
  {
    var homework := CheckResponse(response).value[0];
    var m := ParseStatus(homework).value;
    var o1 := Step(s, Success(response));
    var o2 := Step(o1.next, Failure(e));
    NoticeIsNeverVerdict(e, Field(homework, "homework_name").value,
                         HomeworkVerdicts[Field(homework, "status").value.s]);
    assert o2.next.lastStatus == Some(Notice(e));
    var o3 := Step(o2.next, Success(response));
    assert o3.sent == [m];
    var fetches: seq<Fetched> := [Success(response), Failure(e), Success(response)];
    assert fetches[1..] == [Failure(e), Success(response)];
    assert fetches[1..][1..] == [Success(response)];
    assert o1.sent == [m] && o2.sent == [Notice(e)];
    assert Run(o2.next, fetches[1..][1..]).sent == o3.sent;
    assert Run(o1.next, fetches[1..]).sent == o2.sent + o3.sent;
    assert Run(s, fetches).sent == o1.sent + (o2.sent + o3.sent);
  }

  /**
   Over any run, each message sent differs from the one before it (the first
   from the initial last message), and the state remembers the last one sent.
   */
  lemma {:induction false} RunNotifiesOnlyChanges(s: State, fetches: seq<Fetched>)
    ensures var o := Run(s, fetches);
            && (o.sent == [] ==> o.next.lastStatus == s.lastStatus)
            && (o.sent != [] ==> o.next.lastStatus == Some(o.sent[|o.sent| - 1]))
            && (o.sent != [] ==> s.lastStatus != Some(o.sent[0]))
            && (forall k :: 0 <= k < |o.sent| - 1 ==> o.sent[k] != o.sent[k + 1])
    decreases |fetches|
  {
    if fetches != [] {
      var first := Step(s, fetches[0]);
      var rest := Run(first.next, fetches[1..]);
      RunNotifiesOnlyChanges(first.next, fetches[1..]);
      var sent := first.sent + rest.sent;
      assert Run(s, fetches).sent == sent;
      if first.sent != [] {
        assert |first.sent| == 1;
        assert first.next.lastStatus == Some(first.sent[0]);
      } else {
        assert first.next.lastStatus == s.lastStatus;
      }
      forall k | 0 <= k < |sent| - 1
        ensures sent[k] != sent[k + 1]
      {
        if k >= |first.sent| {
          assert sent[k] == rest.sent[k - |first.sent|];
          assert sent[k + 1] == rest.sent[k + 1 - |first.sent|];
        }
      }
    }
  }

  /** While every poll fails, the watermark stays where it was. */
  lemma {:induction false} FailedPollsKeepWatermark(s: State, fetches: seq<Fetched>)
    requires forall k :: 0 <= k < |fetches| ==> fetches[k].Failure?
    ensures Run(s, fetches).next.timestamp == s.timestamp
    decreases |fetches|
  {
    if fetches != [] {
      FailedPollsKeepWatermark(Step(s, fetches[0]).next, fetches[1..]);
    }
  }
}
