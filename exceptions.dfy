/** The error kinds the bot raises and catches, one constructor per exception
    class it uses, with the text `str(error)` yields for each. */
module Exceptions {

  /** What a `TypeError` raised by the bot complains about. */
  datatype TypeFault =
    | NotMapping               // the API response is not a dict
    | NotList                  // its `homeworks` value is not a list
    | Unhashable(kind: string) // a list or dict used as a status (Python's own TypeError)

  /** Where a required key was missing. */
  datatype Place = InResponse | InHomework

  datatype Error =
    | TypeErr(fault: TypeFault)
    | MissingKey(field: string, place: Place)   // MissingAPIKeyError
    | APIResponse                               // APIResponseError
    | UnexpectedStatus(status: string)          // UnexpectedHomeworkStatusError
    | EndpointUnavailable(detail: string)       // EndpointUnavailableError, text made by the fetcher
    | Telegram(cause: string)                   // TelegramError raised by send_message
    | Other(detail: string)                     // any other exception, by its text

  datatype Result<+T> = Ok(value: T) | Err(error: Error)

  datatype Option<+T> = None | Some(value: T)

  const NotMappingText := "Ответ API не соответствует ожидаемой структуре"
  const NotListText := "homeworks не является списком"
  const UnhashablePrefix := "unhashable type: '"
  const MissingKeyPrefix := "Отсутствует ключ \""
  const InResponseSuffix := "\" в ответе API"
  const InHomeworkSuffix := "\" в информации о домашней работе"
  const APIResponseText := "Данные о домашней работе не являются словарем"
  const UnexpectedPrefix := "Неизвестный статус работы: "
  const TelegramPrefix := "Ошибка при отправке сообщения: "

  /** The text of an error, as `f'{error}'` renders it. */
  function Text(e: Error): (t: string)
  {
    match e
    case TypeErr(NotMapping) => NotMappingText
    case TypeErr(NotList) => NotListText
    case TypeErr(Unhashable(kind)) => UnhashablePrefix + kind + "'"
    case MissingKey(field, InResponse) => MissingKeyPrefix + field + InResponseSuffix
    case MissingKey(field, InHomework) => MissingKeyPrefix + field + InHomeworkSuffix
    case APIResponse => APIResponseText
    case UnexpectedStatus(status) => UnexpectedPrefix + status
    case EndpointUnavailable(detail) => detail
    case Telegram(cause) => TelegramPrefix + cause
    case Other(detail) => detail
  }

  const FailurePrefix := "Сбой в работе программы: "

  /** The notification the main loop composes for an error it caught. */
  function FailureMessage(e: Error): (m: string)
    ensures FailurePrefix <= m
    ensures m[|FailurePrefix|..] == Text(e)
  {
    FailurePrefix + Text(e)
  }

  /** The errors the response validator and the status interpreter raise. */
  predicate Raised(e: Error)
  {
    e.TypeErr? || e.MissingKey? || e.APIResponse? || e.UnexpectedStatus?
  }

  /** The first three characters that tell the kinds of raised errors apart. */
  function Opening(e: Error): (opening: string)
    requires Raised(e)
  {
    match e
    case TypeErr(NotMapping) => "Отв"
    case TypeErr(NotList) => "hom"
    case TypeErr(Unhashable(_)) => "unh"
    case MissingKey(_, _) => "Отс"
    case APIResponse => "Дан"
    case UnexpectedStatus(_) => "Неи"
  }

  lemma OpeningOfText(e: Error)
    requires Raised(e)
    ensures |Text(e)| >= 3 && Text(e)[..3] == Opening(e)
  {
    match e
    case TypeErr(NotMapping) =>
      NotMappingOpening();
      SplitOpening(NotMappingText, "Отв", "");
    case TypeErr(NotList) =>
    case TypeErr(Unhashable(kind)) =>
      SplitOpening(UnhashablePrefix, "unh", kind + "'");
    case MissingKey(field, place) =>
      MissingKeyOpening();
      SplitOpening(MissingKeyPrefix, "Отс", field + if place == InResponse then InResponseSuffix else InHomeworkSuffix);
    case APIResponse =>
      APIResponseOpening();
      SplitOpening(APIResponseText, "Дан", "");
    case UnexpectedStatus(status) =>
      UnexpectedOpening();
      SplitOpening(UnexpectedPrefix, "Неи", status);
  }

  lemma NotMappingOpening() ensures NotMappingText == "Отв" + NotMappingText[3..] { }
  lemma MissingKeyOpening() ensures MissingKeyPrefix == "Отс" + MissingKeyPrefix[3..] { }
  lemma APIResponseOpening() ensures APIResponseText == "Дан" + APIResponseText[3..] { }
  lemma UnexpectedOpening() ensures UnexpectedPrefix == "Неи" + UnexpectedPrefix[3..] { }

  /** The first three characters of `p + rest`, for a `p` that starts with `opening`. */
  lemma SplitOpening(p: string, opening: string, rest: string)
    requires |opening| == 3 && |p| >= 3 && p == opening + p[3..]
    ensures (p + rest)[..3] == opening
  {
    assert (p + rest)[..3] == p[..3];
  }

  /** `x` is recovered from `p + x + s`. */
  lemma StripAffixes(p: string, x: string, y: string, s: string)
    requires p + x + s == p + y + s
    ensures x == y
  {
    assert |x| == |y|;
    assert (p + x + s)[|p|..][..|x|] == x;
    assert (p + y + s)[|p|..][..|y|] == y;
  }

  /** The two texts for a missing key end differently. */
  lemma MissingKeyEnding(field: string, place: Place)
    ensures var t := Text(MissingKey(field, place));
            |t| > 0 && t[|t| - 1] == if place == InResponse then 'I' else 'е'
  {
  }

  /** The text of an error the validator or the interpreter raised determines
      that error: a failure notification tells which check failed and on
      which key or status. */
  lemma TextDetermines(e1: Error, e2: Error)
    requires Raised(e1) && Raised(e2) && Text(e1) == Text(e2)
    ensures e1 == e2
  {
    OpeningOfText(e1);
    OpeningOfText(e2);
    assert Opening(e1) == Opening(e2);
    match e1
    case TypeErr(Unhashable(k1)) =>
      StripAffixes(UnhashablePrefix, k1, e2.fault.kind, "'");
    case MissingKey(f1, p1) =>
      if p1 != e2.place {
        MissingKeyEnding(f1, p1);
        MissingKeyEnding(e2.field, e2.place);
        assert false;
      } else if p1 == InResponse {
        StripAffixes(MissingKeyPrefix, f1, e2.field, InResponseSuffix);
      } else {
        StripAffixes(MissingKeyPrefix, f1, e2.field, InHomeworkSuffix);
      }
    case UnexpectedStatus(s1) =>
      StripAffixes(UnexpectedPrefix, s1, e2.status, "");
    case _ =>
  }
}
