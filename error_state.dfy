/** How the results panel explains a failed search
    (components/error-state.tsx, `getErrorMessage`): the error message is
    lower-cased and searched for a few words, in a fixed order of
    precedence. */
module ErrorState {
  import opened Text

  datatype ErrorMessage = ErrorMessage(title: string, description: string, suggestions: seq<string>)

  const CONNECTION_ERROR: string := "Connection Error"
  const REQUEST_TIMEOUT: string := "Request Timeout"
  const ACCESS_ERROR: string := "Access Error"
  const SOMETHING_WENT_WRONG: string := "Something went wrong"
  const DEFAULT_DESCRIPTION: string := "An unexpected error occurred while searching for properties."

  predicate Mentions(message: string, word: string) {
    Contains(ToLower(message), word)
  }

  predicate IsConnection(message: string) {
    Mentions(message, "network") || Mentions(message, "fetch")
  }

  predicate IsTimeout(message: string) {
    Mentions(message, "timeout")
  }

  predicate IsAccess(message: string) {
    Mentions(message, "cors") || Mentions(message, "blocked")
  }

  /** Which of the four answers a message gets. */
  datatype Kind = Connection | Timeout | Access | Unexpected

  /** The `if` chain of `getErrorMessage`, in source order. */
  function Classify(message: string): Kind {
    if IsConnection(message) then Connection
    else if IsTimeout(message) then Timeout
    else if IsAccess(message) then Access
    else Unexpected
  }

  function Title(kind: Kind): string {
    match kind
    case Connection => CONNECTION_ERROR
    case Timeout => REQUEST_TIMEOUT
    case Access => ACCESS_ERROR
    case Unexpected => SOMETHING_WENT_WRONG
  }

  function Description(kind: Kind, message: string): string {
    match kind
    case Connection => "Unable to connect to the server. Please check your internet connection and try again."
    case Timeout => "The search is taking longer than expected. This might happen with broad searches."
    case Access => "There was an issue accessing the property data."
    case Unexpected => if message != "" then message else DEFAULT_DESCRIPTION
  }

  /** Two suggestions for the connection and access errors, three otherwise. */
  function Suggestions(kind: Kind): (s: seq<string>)
    ensures |s| == if kind == Connection || kind == Access then 2 else 3
  {
    match kind
    case Connection => ["Check your internet connection", "Try refreshing the page"]
    case Timeout => ["Try a more specific postcode", "Use fewer filters", "Try again in a moment"]
    case Access => ["This appears to be a technical issue", "Please try again or contact support"]
    case Unexpected => ["Try refreshing the page", "Check your search criteria", "Try again in a few moments"]
  }

  /** `getErrorMessage(error)` on `error.message`. */
  function GetErrorMessage(message: string): (r: ErrorMessage)
    ensures r.title == Title(Classify(message))
    ensures |r.suggestions| == if Classify(message) == Connection || Classify(message) == Access then 2 else 3
  {
    var kind := Classify(message);
    ErrorMessage(Title(kind), Description(kind, message), Suggestions(kind))
  }

  /** The four titles are different, so the title tells the rule apart. */
  lemma TitlesDistinct(a: Kind, b: Kind)
    requires a != b
    ensures Title(a) != Title(b)
  {
    assert Title(a)[0] != Title(b)[0];
  }

  /** Each answer is given exactly when its words occur and no earlier rule's
      words do: network/fetch first, then timeout, then cors/blocked. */
  lemma Precedence(message: string)
    ensures Classify(message) == Connection <==> IsConnection(message)
    ensures Classify(message) == Timeout <==> !IsConnection(message) && IsTimeout(message)
    ensures Classify(message) == Access <==> !IsConnection(message) && !IsTimeout(message) && IsAccess(message)
    ensures Classify(message) == Unexpected <==> !IsConnection(message) && !IsTimeout(message) && !IsAccess(message)
  {
  }

  /** The fallback shows the message itself, or a fixed sentence when the
      message is empty. */
  lemma FallbackDescription(message: string)
    requires Classify(message) == Unexpected
    ensures message != "" ==> GetErrorMessage(message).description == message
    ensures message == "" ==> GetErrorMessage(message).description == DEFAULT_DESCRIPTION
  {
  }

  /** An empty message matches no rule. */
  lemma EmptyMessageFallsBack()
    ensures Classify("") == Unexpected
    ensures GetErrorMessage("").description == DEFAULT_DESCRIPTION
  {
    NoWordInEmpty("network");
    NoWordInEmpty("fetch");
    NoWordInEmpty("timeout");
    NoWordInEmpty("cors");
    NoWordInEmpty("blocked");
  }

  lemma NoWordInEmpty(word: string)
    requires word != ""
    ensures !Mentions("", word)
  {
    assert ToLower("") == "";
  }

  /** Matching ignores case: messages that lower-case alike get the same
      title and suggestions. */
  lemma CaseInsensitive(m1: string, m2: string)
    requires ToLower(m1) == ToLower(m2)
    ensures Classify(m1) == Classify(m2)
    ensures GetErrorMessage(m1).title == GetErrorMessage(m2).title
    ensures GetErrorMessage(m1).suggestions == GetErrorMessage(m2).suggestions
  {
    assert IsConnection(m1) == IsConnection(m2);
    assert IsTimeout(m1) == IsTimeout(m2);
    assert IsAccess(m1) == IsAccess(m2);
    var k := Classify(m1);
    assert GetErrorMessage(m1).suggestions == Suggestions(k);
    assert GetErrorMessage(m2).suggestions == Suggestions(k);
  }

  /** Lower-casing is idempotent on ASCII letters. */
  lemma ToLowerIdempotent(s: string)
    ensures ToLower(ToLower(s)) == ToLower(s)
  {
  }

  /** So a message and its lower-cased form are classified alike. */
  lemma LowerCasedAlike(message: string)
    ensures Classify(ToLower(message)) == Classify(message)
  {
    ToLowerIdempotent(message);
    CaseInsensitive(ToLower(message), message);
  }

  /** An upper-case "FETCH" is a connection error, even beside a timeout. */
  lemma UpperCaseFetch()
    ensures Classify("FETCH timeout") == Connection
  {
    var lower := ToLower("FETCH timeout");
    assert lower[..5] == "fetch";
  }
}
