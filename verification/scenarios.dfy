/** End-to-end cases of the polling loop on concrete API responses. */
module Scenarios {
  import opened Wrappers
  import opened Json
  import opened Exceptions
  import opened Homework
  import opened Bot

  function Record(name: string, status: string): Json
  {
    JObject([Member("homework_name", JString(name)), Member("status", JString(status))])
  }

  /** `{"homeworks": [{"homework_name": "task1", "status": "approved"}], "current_date": 1000}` */
  const ApprovedResponse: Json :=
    JObject([Member("homeworks", JArray([Record("task1", "approved")])), Member("current_date", JInt(1000))])

  const ApprovedMessage := ChangedPrefix + "task1" + "\". " + ApprovedVerdict

  /** An approved record is announced once with its name and verdict, and the watermark becomes 1000. */
  lemma ApprovedIsAnnounced(s: State)
    requires s.lastStatus != Some(ApprovedMessage)
    ensures Step(s, Success(ApprovedResponse)) == Output(State(JInt(1000), Some(ApprovedMessage)), [ApprovedMessage])
  {
  }

  /** The same approved record on two consecutive polls is announced exactly once. */
  lemma ApprovedTwiceIsAnnouncedOnce(s: State)
    requires s.lastStatus != Some(ApprovedMessage)
    ensures Run(s, [Success(ApprovedResponse), Success(ApprovedResponse)]).sent == [ApprovedMessage]
  {
  }

  /** `{"homeworks": []}` sends nothing and leaves the state as it was. */
  lemma NoHomeworksChangesNothing(s: State)
    ensures Step(s, Success(JObject([Member("homeworks", JArray([]))]))) == Output(s, [])
  {
  }

  /** An unknown status raises a `KeyError` and sends one failure notice; the watermark stays. */
  lemma UnknownStatusSendsNotice(s: State)
    requires s.lastStatus != Some(Notice(Raise(KeyError, UnknownStatusText + "bogus")))
    ensures var n := Notice(Raise(KeyError, UnknownStatusText + "bogus"));
            Step(s, Success(JObject([Member("homeworks", JArray([Record("x", "bogus")]))])))
              == Output(State(s.timestamp, Some(n)), [n])
  {
  }

  /** A missing credential stops the bot before anything is sent. */
  lemma MissingTokenExits(now: int)
    ensures Start(Some("practicum"), None, Some("chat"), now) == Failure(NoTokensText)
    ensures Start(Some("practicum"), Some(""), Some("chat"), now) == Failure(NoTokensText)
  {
  }
}
