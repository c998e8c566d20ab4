/** The two pure guard chains of homework.py: check_response, which validates
    the API response, and parse_status, which turns one homework record into
    the notification text through the closed verdict table. */
module Homework {
  import opened Json
  import opened Exceptions

  const Approved := "Работа проверена: ревьюеру всё понравилось. Ура!"
  const Reviewing := "Работа взята на проверку ревьюером."
  const Rejected := "Работа проверена: у ревьюера есть замечания."

  /** HOMEWORK_VERDICTS: the three known status codes and their display texts. */
  const Verdicts: map<string, string> :=
    map["approved" := Approved, "reviewing" := Reviewing, "rejected" := Rejected]

  const ChangedPrefix := "Изменился статус проверки работы "

  /** The notification for a homework called `name` that received `verdict`. */
  function StatusMessage(name: string, verdict: string): (m: string)
    ensures ChangedPrefix + "\"" <= m
    ensures |m| == |ChangedPrefix| + 1 + |name| + 3 + |verdict|
    ensures m[|ChangedPrefix| + 1..][..|name|] == name
    ensures m[|ChangedPrefix| + 1 + |name|..][..3] == "\". "
    ensures m[|m| - |verdict|..] == verdict
  {
    ChangedPrefix + "\"" + name + "\". " + verdict
  }

  /** check_response: the value must be a mapping, must have `homeworks`, and
      that value must be a list, which is returned unchanged. */
  function CheckResponse(response: Json): (r: Result<seq<Json>>)
    ensures !response.JObj? ==> r == Err(TypeErr(NotMapping))
    ensures response.JObj? && "homeworks" !in response.fields ==>
              r == Err(MissingKey("homeworks", InResponse))
    ensures response.JObj? && "homeworks" in response.fields && !response.fields["homeworks"].JArr? ==>
              r == Err(TypeErr(NotList))
    ensures r.Ok? <==> response.JObj? && "homeworks" in response.fields && response.fields["homeworks"].JArr?
    ensures r.Ok? ==> response == JObj(response.fields["homeworks" := JArr(r.value)])
  {
    if !response.JObj? then Err(TypeErr(NotMapping))
    else if "homeworks" !in response.fields then Err(MissingKey("homeworks", InResponse))
    else
      match response.fields["homeworks"]
      case JArr(homeworks) => Ok(homeworks)
      case _ => Err(TypeErr(NotList))
  }

  /** A response carrying `homeworks` next to the other fields in `rest`. */
  function ResponseWith(homeworks: seq<Json>, rest: map<string, Json>): (response: Json)
  {
    JObj(rest["homeworks" := JArr(homeworks)])
  }

  /** Whatever else the response holds, its homework list comes back unchanged. */
  lemma CheckResponseReturnsList(homeworks: seq<Json>, rest: map<string, Json>)
    ensures CheckResponse(ResponseWith(homeworks, rest)) == Ok(homeworks)
  {
  }

  /** parse_status: the record must be a mapping, then have `homework_name`,
      then `status`; the status must be a key of the verdict table. A list or
      dict status fails Python's membership test itself, with a TypeError. */
  function ParseStatus(homework: Json): (r: Result<string>)
    ensures !homework.JObj? ==> r == Err(APIResponse)
    ensures homework.JObj? && "homework_name" !in homework.fields ==>
              r == Err(MissingKey("homework_name", InHomework))
    ensures homework.JObj? && "homework_name" in homework.fields && "status" !in homework.fields ==>
              r == Err(MissingKey("status", InHomework))
    ensures r.Ok? <==>
              && homework.JObj? && "homework_name" in homework.fields && "status" in homework.fields
              && homework.fields["status"].JStr? && homework.fields["status"].s in Verdicts
    ensures r.Ok? ==>
              r.value == StatusMessage(Render(homework.fields["homework_name"]),
                                       Verdicts[homework.fields["status"].s])
    ensures homework.JObj? && "homework_name" in homework.fields && "status" in homework.fields
            && homework.fields["status"].JStr? && homework.fields["status"].s !in Verdicts ==>
              r == Err(UnexpectedStatus(homework.fields["status"].s))
  {
    if !homework.JObj? then Err(APIResponse)
    else if "homework_name" !in homework.fields then Err(MissingKey("homework_name", InHomework))
    else if "status" !in homework.fields then Err(MissingKey("status", InHomework))
    else
      var name := homework.fields["homework_name"];
      match homework.fields["status"]
      case JArr(_) => Err(TypeErr(Unhashable("list")))
      case JObj(_) => Err(TypeErr(Unhashable("dict")))
      case JStr(status) =>
        if status in Verdicts then Ok(StatusMessage(Render(name), Verdicts[status]))
        else Err(UnexpectedStatus(status))
      case other => Err(UnexpectedStatus(Render(other)))
  }
  /** Each verdict ends in its own two characters, so none is a tail of another. */
  lemma VerdictEndingsDiffer(s1: string, s2: string)
    requires s1 in Verdicts && s2 in Verdicts && s1 != s2
    ensures |Verdicts[s1]| >= 2 && |Verdicts[s2]| >= 2
    ensures Verdicts[s1][|Verdicts[s1]| - 2..] != Verdicts[s2][|Verdicts[s2]| - 2..]
  {
    var a, v, j := Verdicts["approved"], Verdicts["reviewing"], Verdicts["rejected"];
    assert a[|a| - 2..] == "а!";
    assert v[|v| - 2..] == "м.";
    assert j[|j| - 2..] == "я.";
  }

  /** The notification determines the homework name and the status: distinct
      (name, known status) pairs never produce the same text. */
  lemma StatusMessageDetermines(n1: string, s1: string, n2: string, s2: string)
    requires s1 in Verdicts && s2 in Verdicts
    requires StatusMessage(n1, Verdicts[s1]) == StatusMessage(n2, Verdicts[s2])
    ensures n1 == n2 && s1 == s2
  {
    var m := StatusMessage(n1, Verdicts[s1]);
    if s1 != s2 {
      VerdictEndingsDiffer(s1, s2);
      assert false;
    }
    assert |n1| == |n2|;
    assert m[|ChangedPrefix| + 1..][..|n1|] == n1;
  }

  /** The record with the given name and string status is interpreted through
      the table: a known status yields its notification, any other string is
      reported as unexpected, whatever other fields the record holds. */
  lemma ParseStatusOfRecord(name: string, status: string, rest: map<string, Json>)
    ensures var r := ParseStatus(JObj(rest["homework_name" := JStr(name)]["status" := JStr(status)]));
            r == if status in Verdicts then Ok(StatusMessage(name, Verdicts[status]))
                 else Err(UnexpectedStatus(status))
  {
  }
}
