/**
 The pure parts of the homework bot: the credential check, the response
 validator, the status interpreter with its verdict table, and the
 `timestamp or now` substitution applied before every poll.
 */
module Homework {
  import opened Wrappers
  import opened Json
  import opened Exceptions

  /** The three review verdicts, keyed by the API's status string. */
  const ApprovedVerdict := "Работа проверена: ревьюеру всё понравилось. Ура!"
  const ReviewingVerdict := "Работа взята на проверку ревьюером."
  const RejectedVerdict := "Работа проверена: у ревьюера есть замечания."
  const HomeworkVerdicts: map<string, string> := map[
    "approved" := ApprovedVerdict,
    "reviewing" := ReviewingVerdict,
    "rejected" := RejectedVerdict
  ]

  // ---------------------------------------------------------------------------
  // Credentials
  // ---------------------------------------------------------------------------

  /** Truthiness of an environment lookup: set and not empty. */
  predicate Present(token: Option<string>)
  {
    token.Some? && token.value != ""
  }

  /** Python's `all` over a list of truth values. */
  function All(xs: seq<bool>): bool
  {
    if xs == [] then true else xs[0] && All(xs[1..])
  }

  lemma {:induction false} AllIsEvery(xs: seq<bool>)
    ensures All(xs) <==> forall k :: 0 <= k < |xs| ==> xs[k]
    decreases |xs|
  {
    if xs != [] {
      AllIsEvery(xs[1..]);
      assert forall k :: 1 <= k < |xs| ==> xs[1..][k - 1] == xs[k];
    }
  }

  /** `check_tokens`: all three credentials are set and non-empty. */
  function CheckTokens(practicum: Option<string>, telegram: Option<string>, chat: Option<string>): (r: bool)
    ensures r <==> Present(practicum) && Present(telegram) && Present(chat)
  {
    var flags := [Present(practicum), Present(telegram), Present(chat)];
    AllIsEvery(flags);
    assert flags[0] == Present(practicum) && flags[1] == Present(telegram) && flags[2] == Present(chat);
    All(flags)
  }

  // ---------------------------------------------------------------------------
  // Response validation
  // ---------------------------------------------------------------------------

  const NotDictText := "Тип данных не соответствует ожидаемому (dict)"
  const NoHomeworksText := "В ответе не содержится ключ homeworks"
  const NotListText := "Тип данных не соответствует ожидаемому (list)"

  /**
   `check_response`: a dict holding a list under `homeworks` yields that list;
   anything else raises, and the checks run in the order dict, key, list.
   */
  function CheckResponse(response: Json): (r: Result<seq<Json>, Error>)
    ensures !response.JObject? ==> r == Failure(Raise(TypeError, NotDictText))
    ensures response.JObject? && !HasKey(response, "homeworks") ==>
              r == Failure(Raise(KeyError, NoHomeworksText))
    ensures HasKey(response, "homeworks") && !Field(response, "homeworks").value.JArray? ==>
              r == Failure(Raise(TypeError, NotListText))
    ensures r.Success? <==> HasKey(response, "homeworks") && Field(response, "homeworks").value.JArray?
    ensures r.Success? ==> Field(response, "homeworks") == Some(JArray(r.value))
  {
    if !response.JObject? then Failure(Raise(TypeError, NotDictText))
    else match Lookup(response.members, "homeworks")
      case None => Failure(Raise(KeyError, NoHomeworksText))
      case Some(answer) =>
        if answer.JArray? then Success(answer.items) else Failure(Raise(TypeError, NotListText))
  }

  /** Whatever else a response holds, the list bound last to `homeworks` comes back as it is. */
  lemma CheckResponseReturnsList(members: seq<Member>, homeworks: seq<Json>)
    ensures CheckResponse(JObject(members + [Member("homeworks", JArray(homeworks))])) == Success(homeworks)
  {
  }

  // ---------------------------------------------------------------------------
  // Status interpretation
  // ---------------------------------------------------------------------------

  const ChangedPrefix := "Изменился статус проверки работы \""
  const NoNameText := "Не существует ключа homework_name"
  const UnknownStatusText := "Невозможный статус домашней работы - "
  const UnboundStatusText := "cannot access local variable 'status' where it is not associated with a value"

  /** `sub` occurs in `s`: Python's `sub in s` on strings. */
  predicate Contains(s: string, sub: string)
    decreases |s|
  {
    if |s| < |sub| then false else s[..|sub|] == sub || Contains(s[1..], sub)
  }

  /** The notification for a homework called `name` that received `verdict`. */
  function VerdictMessage(name: Json, verdict: string): string
  {
    ChangedPrefix + Str(name) + "\". " + verdict
  }

  /** `status in HOMEWORK_VERDICTS` for a hashable status. */
  predicate IsKnownStatus(status: Json)
  {
    status.JString? && status.s in HomeworkVerdicts
  }

  /**
   What `parse_status` raises on a record that is not a dict: `'homework_name' in`
   is a substring test on a string and a membership test on a list. A string or
   list containing `homework_name` then fails at indexing with `TypeError`; one
   that does not raises the missing-name `KeyError`; on any other value `in`
   itself raises `TypeError`.
   */
  function NotMappingError(homework: Json): (e: Error)
    requires !homework.JObject?
  {
    match homework
    case JString(s) =>
      if Contains(s, "homework_name") then Raise(TypeError, "string indices must be integers, not 'str'")
      else Raise(KeyError, NoNameText)
    case JArray(items) =>
      if JString("homework_name") in items then Raise(TypeError, "list indices must be integers or slices, not str")
      else Raise(KeyError, NoNameText)
    case _ => Raise(TypeError, "argument of type '" + TypeName(homework) + "' is not iterable")
  }

  /**
   `parse_status`: the notification for a homework record, or the exception the
   record provokes. The name is looked up before the status, and the status is
   checked against the verdict table last.
   */
  function ParseStatus(homework: Json): (r: Result<string, Error>)
    ensures !homework.JObject? ==> r.Failure?
    ensures homework.JObject? && !HasKey(homework, "homework_name") ==> r == Failure(Raise(KeyError, NoNameText))
    ensures HasKey(homework, "homework_name") && !HasKey(homework, "status") ==>
              r.Failure? && r.error.kind == UnboundLocalError
    ensures HasKey(homework, "homework_name") && HasKey(homework, "status") &&
            (Field(homework, "status").value.JArray? || Field(homework, "status").value.JObject?) ==>
              r.Failure? && r.error.kind == TypeError
    ensures HasKey(homework, "homework_name") && HasKey(homework, "status") &&
            !Field(homework, "status").value.JArray? && !Field(homework, "status").value.JObject? &&
            !IsKnownStatus(Field(homework, "status").value) ==>
              r == Failure(Raise(KeyError, UnknownStatusText + Str(Field(homework, "status").value)))
    ensures r.Success? <==>
              HasKey(homework, "homework_name") && HasKey(homework, "status") &&
              IsKnownStatus(Field(homework, "status").value)
    ensures r.Success? ==>
              r.value == VerdictMessage(Field(homework, "homework_name").value,
                                        HomeworkVerdicts[Field(homework, "status").value.s])
  {
    if !homework.JObject? then Failure(NotMappingError(homework))
    else match Lookup(homework.members, "homework_name")
      case None => Failure(Raise(KeyError, NoNameText))
      case Some(name) =>
        match Lookup(homework.members, "status")
        case None => Failure(Raise(UnboundLocalError, UnboundStatusText))
        case Some(status) =>
          if status.JArray? || status.JObject? then
            Failure(Raise(TypeError, "unhashable type: '" + TypeName(status) + "'"))
          else if !IsKnownStatus(status) then
            Failure(Raise(KeyError, UnknownStatusText + Str(status)))
          else Success(VerdictMessage(name, HomeworkVerdicts[status.s]))
  }

  /** For a dict record, the outcome depends on nothing but its name and status entries. */
  lemma ParseStatusDependsOnNameAndStatus(h1: Json, h2: Json)
    requires h1.JObject? && h2.JObject?
    requires Field(h1, "homework_name") == Field(h2, "homework_name")
    requires Field(h1, "status") == Field(h2, "status")
    ensures ParseStatus(h1) == ParseStatus(h2)
  {
  }

  /** The three notifications, for a record whose name is a string. */
  lemma ParseStatusVerdicts(homework: Json, name: string)
    requires Field(homework, "homework_name") == Some(JString(name))
    ensures Field(homework, "status") == Some(JString("approved")) ==>
              ParseStatus(homework) == Success(ChangedPrefix + name + "\". " + ApprovedVerdict)
    ensures Field(homework, "status") == Some(JString("reviewing")) ==>
              ParseStatus(homework) == Success(ChangedPrefix + name + "\". " + ReviewingVerdict)
    ensures Field(homework, "status") == Some(JString("rejected")) ==>
              ParseStatus(homework) == Success(ChangedPrefix + name + "\". " + RejectedVerdict)
  {
  }

  /** The character `k` places before the end of `a + b` lies in `b`. */
  lemma CharFromEnd(a: string, b: string, k: nat)
    requires k < |b|
    ensures (a + b)[|a + b| - 1 - k] == b[|b| - 1 - k]
  {
  }

  /** No verdict text ends another: a message ending in one verdict text determines it. */
  lemma VerdictSuffixDetermines(a1: string, a2: string, s1: string, s2: string)
    requires s1 in HomeworkVerdicts && s2 in HomeworkVerdicts
    requires a1 + HomeworkVerdicts[s1] == a2 + HomeworkVerdicts[s2]
    ensures s1 == s2 && a1 == a2
  {
    var v1, v2 := HomeworkVerdicts[s1], HomeworkVerdicts[s2];
    CharFromEnd(a1, v1, 0);
    CharFromEnd(a2, v2, 0);
    CharFromEnd(a1, v1, 1);
    CharFromEnd(a2, v2, 1);
    assert s1 == s2;
    assert |a1| == |a2|;
    assert a1 == (a1 + v1)[..|a1|];
    assert a2 == (a2 + v2)[..|a2|];
  }

  /**
   Equal messages come from names that print the same and from the same
   status, so a changed status or a different homework is always a new message.
   */
  lemma {:induction false} VerdictMessageInjective(n1: Json, n2: Json, s1: string, s2: string)
    ensures s1 in HomeworkVerdicts && s2 in HomeworkVerdicts &&
            VerdictMessage(n1, HomeworkVerdicts[s1]) == VerdictMessage(n2, HomeworkVerdicts[s2]) ==>
              Str(n1) == Str(n2) && s1 == s2
  {
    if s1 in HomeworkVerdicts && s2 in HomeworkVerdicts &&
       VerdictMessage(n1, HomeworkVerdicts[s1]) == VerdictMessage(n2, HomeworkVerdicts[s2]) {
      var a1 := ChangedPrefix + Str(n1) + "\". ";
      var a2 := ChangedPrefix + Str(n2) + "\". ";
      assert a1 + HomeworkVerdicts[s1] == a2 + HomeworkVerdicts[s2];
      VerdictSuffixDetermines(a1, a2, s1, s2);
      assert Str(n1) == a1[|ChangedPrefix|..|a1| - 3];
      assert Str(n2) == a2[|ChangedPrefix|..|a2| - 3];
    }
  }

  /** Two records give the same notification only if their names print the same and their statuses are equal. */
  lemma ParseStatusInjective(h1: Json, h2: Json)
    ensures ParseStatus(h1).Success? && ParseStatus(h1) == ParseStatus(h2) ==>
              && Str(Field(h1, "homework_name").value) == Str(Field(h2, "homework_name").value)
              && Field(h1, "status") == Field(h2, "status")
  {
    if ParseStatus(h1).Success? && ParseStatus(h1) == ParseStatus(h2) {
      VerdictMessageInjective(Field(h1, "homework_name").value, Field(h2, "homework_name").value,
                              Field(h1, "status").value.s, Field(h2, "status").value.s);
    }
  }

  // ---------------------------------------------------------------------------
  // Polling
  // ---------------------------------------------------------------------------

  /**
   `timestamp or int(time.time())`: the `from_date` of the next request. It is
   either the watermark or the current time, a truthy watermark is kept, and
   unless the clock reads 0 the request never carries a false `from_date`.
   */
  function FromDate(timestamp: Json, now: int): (r: Json)
    ensures r == timestamp || r == JInt(now)
    ensures Truthy(timestamp) ==> r == timestamp
    ensures now != 0 ==> Truthy(r)
    ensures now == 0 && !Truthy(timestamp) ==> r == JInt(0)
  {
    if Truthy(timestamp) then timestamp else JInt(now)
  }
}
