/** The exceptions a polling cycle can end in (exceptions.py and the
    built-in ones homework.py lets through), with their `str()` rendering. */
module Failures {
  import opened Json

  datatype Failure =
      /** EndpointHomeworkError: the API answered with a status other than 200. */
    | EndpointUnavailable
      /** Any exception of the HTTP client or of JSON decoding, as its text. */
    | Raised(text: string)
      /** TypeError: a value that is not a dict was indexed by a string key. */
    | NotSubscriptable(kind: string)
      /** KeyError re-raised by check_response for a missing response key. */
    | MissingKey(key: string)
      /** TypeValueError: `homeworks` is not a list. */
    | TypeValue(kind: string)
      /** KeyError: a homework record lacks this field. */
    | MissingField(field: string)
      /** KeyError: the status is not in the vocabulary. */
    | UnknownStatus(status: Value)
      /** TypeError: the status is a list or dict and cannot be looked up. */
    | Unhashable(kind: string)

  const Endpoint := "https://practicum.yandex.ru/api/user_api/homework_statuses/"

  /** `str(error)` for each failure. */
  function Describe(f: Failure): string {
    match f
    case EndpointUnavailable =>
      "Эндпоинт " + Endpoint + " недоступен. Статус кода не \"ОК\"."
    case Raised(text) => text
    case NotSubscriptable(kind) =>
      if kind == "list" then "list indices must be integers or slices, not str"
      else if kind == "str" then "string indices must be integers"
      else "'" + kind + "' object is not subscriptable"
    case MissingKey(key) =>
      // a KeyError prints the repr of its message, double-quoted because the message holds single quotes
      var message := "В ответе API отсутствует ожидаемый ключ словаря " + key + ": '" + key + "'";
      "\"" + message + "\""
    case TypeValue(kind) =>
      "Значение словаря API-ответа от Яндекс.Домашка под ключом \"homeworks\" "
      + "не соответствует ожидаемому типу данных: <class '" + kind + "'>"
    case MissingField(field) => "'" + field + "'"
    case UnknownStatus(status) =>
      "'В ответе неопознанный статус домашней работы: " + Show(status) + "'"
    case Unhashable(kind) => "unhashable type: '" + kind + "'"
  }

  /** The checks that can fail in a cycle leave texts that tell them apart:
      an unreachable endpoint, a response without `homeworks`, and a record
      without its name or its status each give a different text, so a change
      from one of these failures to another is reported. */
  lemma DistinctFailuresDistinctTexts()
    ensures Describe(EndpointUnavailable) != Describe(MissingKey("homeworks"))
    ensures Describe(EndpointUnavailable) != Describe(MissingField("homework_name"))
    ensures Describe(MissingKey("homeworks")) != Describe(MissingField("homework_name"))
    ensures Describe(MissingField("homework_name")) != Describe(MissingField("status"))
    ensures Describe(EndpointUnavailable) != Describe(MissingField("status"))
    ensures Describe(MissingKey("homeworks")) != Describe(MissingField("status"))
  {
  }
}
