/** ErrorType.toUiText: the text the UI shows for each error type. */
module ErrorToUi {
  import opened Outcomes
  import opened Domain

  const NO_CONNECTION_TEXT: string := "Нет подключения к интернету"
  const SERVER_ERROR_TEXT: string := "Ошибка сервера"
  const UNKNOWN_ERROR_TEXT: string := "Неизвестная ошибка"

  function ToUiText(e: ErrorType): (text: string)
    ensures e == NoConnection <==> text == NO_CONNECTION_TEXT
    ensures e == ServerError <==> text == SERVER_ERROR_TEXT
    ensures e == UnknownError <==> text == UNKNOWN_ERROR_TEXT
  {
    match e
    case NoConnection => NO_CONNECTION_TEXT
    case ServerError => SERVER_ERROR_TEXT
    case UnknownError => UNKNOWN_ERROR_TEXT
  }

  /** Reads a displayed text back as the error type that shows it. */
  function ErrorTypeOfUiText(text: string): (e: Option<ErrorType>)
    ensures e.Some? ==> ToUiText(e.value) == text
  {
    if text == NO_CONNECTION_TEXT then Some(NoConnection)
    else if text == SERVER_ERROR_TEXT then Some(ServerError)
    else if text == UNKNOWN_ERROR_TEXT then Some(UnknownError)
    else None
  }

  lemma UiTextRoundTrip(e: ErrorType)
    ensures ErrorTypeOfUiText(ToUiText(e)) == Some(e)
  {
  }

  /** The three error types are shown with three different texts. */
  lemma ToUiTextInjective(a: ErrorType, b: ErrorType)
    requires ToUiText(a) == ToUiText(b)
    ensures a == b
  {
  }
}
