/** HOMEWORK_STATUSES and parse_status of homework.py. */
module Statuses {
  import opened Wrappers
  import opened Json
  import opened Failures

  /** The closed vocabulary of review statuses and the verdict shown for each. */
  const HomeworkStatuses: map<string, string> := map[
    "approved" := "Работа проверена: ревьюеру всё понравилось. Ура!",
    "reviewing" := "Работа взята на проверку ревьюером.",
    "rejected" := "Работа проверена: у ревьюера есть замечания."
  ]

  const Header := "Изменился статус проверки работы \""

  /** The notification text for a homework name and a verdict. */
  function Notification(name: string, verdict: string): (text: string)
    ensures Header <= text
  {
    var text := Header + (name + "\". " + verdict);
    assert text[..|Header|] == Header;
    text
  }

  /** A status the bot knows how to report. */
  predicate Known(status: Value) {
    status.Str? && status.s in HomeworkStatuses
  }

  /** parse_status: reads `homework_name`, then `status`, then looks the
      status up in the vocabulary. */
  function ParseStatus(homework: Value): (r: Result<string, Failure>)
    ensures r.Ok? <==>
      homework.Dict? && "homework_name" in homework.fields && "status" in homework.fields
      && Known(homework.fields["status"])
    ensures r.Ok? ==>
      r.value == Notification(Show(homework.fields["homework_name"]),
                              HomeworkStatuses[homework.fields["status"].s])
    ensures !homework.Dict? ==> r == Err(NotSubscriptable(TypeName(homework)))
    ensures homework.Dict? && "homework_name" !in homework.fields ==> r == Err(MissingField("homework_name"))
    ensures homework.Dict? && "homework_name" in homework.fields && "status" !in homework.fields ==>
      r == Err(MissingField("status"))
    ensures homework.Dict? && "homework_name" in homework.fields && "status" in homework.fields ==>
      var status := homework.fields["status"];
      (!Hashable(status) ==> r == Err(Unhashable(TypeName(status))))
      && (Hashable(status) && !Known(status) ==> r == Err(UnknownStatus(status)))
  {
    match Get(homework, "homework_name")
    case None =>
      if homework.Dict? then Err(MissingField("homework_name")) else Err(NotSubscriptable(TypeName(homework)))
    case Some(name) =>
      match Get(homework, "status")
      case None => Err(MissingField("status"))
      case Some(status) =>
        if !Hashable(status) then Err(Unhashable(TypeName(status)))
        else if status.Str? && status.s in HomeworkStatuses then
          Ok(Notification(Show(name), HomeworkStatuses[status.s]))
        else Err(UnknownStatus(status))
  }

  /** The text for an approved homework named "Proj1": the fixed header with
      the quoted name, then the verdict for `approved`. */
  lemma ApprovedExample()
    ensures ParseStatus(Dict(map["homework_name" := Str("Proj1"), "status" := Str("approved")]))
         == Ok("Изменился статус проверки работы \"Proj1\". "
               + "Работа проверена: ревьюеру всё понравилось. Ура!")
  {
    var homework := Dict(map["homework_name" := Str("Proj1"), "status" := Str("approved")]);
    assert Get(homework, "homework_name") == Some(Str("Proj1"));
    assert Get(homework, "status") == Some(Str("approved"));
    assert HomeworkStatuses["approved"] == "Работа проверена: ревьюеру всё понравилось. Ура!";
    assert Show(Str("Proj1")) == "Proj1";
    assert ParseStatus(homework) == Ok(Notification("Proj1", HomeworkStatuses["approved"]));
    assert Notification("Proj1", "Работа проверена: ревьюеру всё понравилось. Ура!")
        == "Изменился статус проверки работы \"Proj1\". " + "Работа проверена: ревьюеру всё понравилось. Ура!";
  }

  /** A status outside the vocabulary, such as `in_progress`, is refused. */
  lemma InProgressIsUnknown(name: Value)
    ensures ParseStatus(Dict(map["homework_name" := name, "status" := Str("in_progress")]))
         == Err(UnknownStatus(Str("in_progress")))
  {
  }

  /** For one homework, different statuses always give different texts, so a
      change of status is visible to the reader of the chat. */
  lemma StatusChangeChangesText(name: string, s1: string, s2: string)
    requires s1 in HomeworkStatuses && s2 in HomeworkStatuses && s1 != s2
    ensures Notification(name, HomeworkStatuses[s1]) != Notification(name, HomeworkStatuses[s2])
  {
  }
}
