/** What the two lead-capture forms (the contact section and the exit-intent
    popup) share: the CNPJ digit check, the outcome of the registry lookup, the
    messages shown, and the contact record. The lookup request itself is not
    modelled; its outcome is an input. */
module LeadFlow {
  import opened JsText
  import opened CnpjLib

  const InvalidCnpjMessage: string := "Informe os 14 dígitos do CNPJ."
  const NotFoundMessage: string := "CNPJ não encontrado."
  const LookupFailedMessage: string := "Não foi possível buscar o CNPJ."
  const MissingContactMessage: string := "Informe telefone e e-mail para continuar."

  /** A CNPJ has this many digits; only the count is checked, not the check digits. */
  const CnpjLength: nat := 14

  /** What a `catch` clause receives: an Error object (which carries a message) or
      any other thrown value. */
  datatype Thrown = ErrorObject(message: string) | NonError

  /** How a lookup ends, as seen by the handler:
      - `Found`: the response was ok and its body parsed to `payload`;
      - `NotOk`: the response was not ok; `message` is the body's `message` when the
        body parsed and held one (None covers an unreadable body, a missing key or null);
      - `Threw`: the request, the body parsing or the normaliser threw. */
  datatype LookupOutcome =
    | Found(payload: map<string, Value>)
    | NotOk(message: Option<string>)
    | Threw(thrown: Thrown)

  /** What a lookup does to the form: nothing but an error when the input is rejected,
      the normalised company when the lookup succeeds, an error message otherwise. */
  datatype LookupEffect = Rejected | Loaded(company: CnpjData) | Failed(message: string)

  /** The phone and e-mail fields. */
  datatype ContactInfo = ContactInfo(phone: string, email: string)

  const NoContact: ContactInfo := ContactInfo("", "")

  /** The only validation: the typed text holds exactly fourteen digits, whatever else it
      holds. `cnpj.replace(/\D/g, "")` is RemoveNonDigits, and its result is what is sent. */
  predicate ValidCnpj(cnpj: string) {
    |RemoveNonDigits(cnpj)| == CnpjLength
  }

  /** The message of the Error the handler throws or catches, once the lookup has failed:
      the server's message, else "CNPJ não encontrado." for a response that is not ok;
      the thrown Error's message, else "Não foi possível buscar o CNPJ.". The text is
      empty only when the server or the runtime supplied an empty message. */
  function FailureMessage(outcome: LookupOutcome): (m: string)
    requires !outcome.Found?
    ensures m == [] <==> outcome == NotOk(Some("")) || outcome == Threw(ErrorObject(""))
  {
    match outcome
    case NotOk(message) => message.GetOr(NotFoundMessage)
    case Threw(ErrorObject(message)) => message
    case Threw(NonError) => LookupFailedMessage
  }

  /** The outcome of pressing "Confirmar CNPJ" with `cnpj` typed, given how the lookup
      would end. */
  function Lookup(cnpj: string, outcome: LookupOutcome): (e: LookupEffect)
    ensures e.Rejected? <==> !ValidCnpj(cnpj)
    ensures e.Loaded? <==> ValidCnpj(cnpj) && outcome.Found?
    ensures e.Loaded? ==> e.company == BuildCnpjData(outcome.payload) && e.company.WellFormed()
    ensures e.Failed? ==> e.message == FailureMessage(outcome)
  {
    if !ValidCnpj(cnpj) then Rejected
    else if outcome.Found? then Loaded(BuildCnpjData(outcome.payload))
    else Failed(FailureMessage(outcome))
  }

  // ------------------------------------------------------ input formatting

  /** The CNPJ mask shown as the input's placeholder, 00.000.000/0000-00, over fourteen digits. */
  function Masked(d: string): string
    requires |d| == CnpjLength
  {
    d[..2] + "." + d[2..5] + "." + d[5..8] + "/" + d[8..12] + "-" + d[12..]
  }

  /** Appending a separator without digits, then digits, appends just those digits. */
  lemma {:induction false} FilterSeparated(x: string, sep: string, y: string)
    requires RemoveNonDigits(sep) == [] && AllDigits(y)
    ensures RemoveNonDigits(x + sep + y) == RemoveNonDigits(x) + y
  {
    RemoveNonDigitsAppend(x, sep);
    RemoveNonDigitsAppend(x + sep, y);
    assert RemoveNonDigits(x) + [] == RemoveNonDigits(x);
  }

  /** The mask's separators hold no digit (a literal fact MaskedCnpjAccepted uses). */
  lemma PunctuationHasNoDigits()
    ensures RemoveNonDigits(".") == [] && RemoveNonDigits("/") == [] && RemoveNonDigits("-") == []
  {
    assert !IsDigit('.') && !IsDigit('/') && !IsDigit('-');
  }

  /** A CNPJ typed with its usual punctuation passes the check, and exactly its
      fourteen digits are sent. */
  lemma MaskedCnpjAccepted(d: string)
    requires |d| == CnpjLength && AllDigits(d)
    ensures RemoveNonDigits(Masked(d)) == d
    ensures ValidCnpj(Masked(d))
  {
    PunctuationHasNoDigits();
    var t2 := d[..2] + "." + d[2..5];
    FilterSeparated(d[..2], ".", d[2..5]);
    assert d[..2] + d[2..5] == d[..5];
    var t3 := t2 + "." + d[5..8];
    FilterSeparated(t2, ".", d[5..8]);
    assert d[..5] + d[5..8] == d[..8];
    var t4 := t3 + "/" + d[8..12];
    FilterSeparated(t3, "/", d[8..12]);
    assert d[..8] + d[8..12] == d[..12];
    FilterSeparated(t4, "-", d[12..]);
    assert d[..12] + d[12..] == d;
  }

  /** Punctuation aside, a typed CNPJ with a digit missing or one too many is rejected
      whatever the registry would answer. */
  lemma ShortCnpjRejected(d: string, outcome: LookupOutcome)
    requires AllDigits(d) && |d| != CnpjLength
    ensures Lookup(d, outcome) == Rejected
  {
  }

  /** "11222333000181" is a CNPJ's worth of digits, and masked it reads
      "11.222.333/0001-81" (literal facts, stated apart so ExampleFormattedCnpj stays small). */
  lemma ExampleDigits()
    ensures |"11222333000181"| == CnpjLength && AllDigits("11222333000181")
    ensures Masked("11222333000181") == "11.222.333/0001-81"
  {
    var d := "11222333000181";
    assert d[..2] == "11" && d[2..5] == "222" && d[5..8] == "333";
    assert d[8..12] == "0001" && d[12..] == "81";
    assert "11" + "." + "222" + "." + "333" + "/" + "0001" + "-" + "81" == "11.222.333/0001-81";
  }

  /** "11.222.333/0001-81" is accepted and "11222333000181" is sent. */
  lemma ExampleFormattedCnpj()
    ensures ValidCnpj("11.222.333/0001-81")
    ensures RemoveNonDigits("11.222.333/0001-81") == "11222333000181"
  {
    ExampleDigits();
    MaskedCnpjAccepted("11222333000181");
  }

  /** "123" is rejected, whatever the registry would answer. */
  lemma ExampleShortCnpj(outcome: LookupOutcome)
    ensures Lookup("123", outcome) == Rejected
  {
    ShortCnpjRejected("123", outcome);
  }

  /** The error banner `{errorMessage && ...}`: rendered only for a non-empty message. */
  function Banner(errorMessage: string): (shown: Option<string>)
    ensures shown.None? <==> errorMessage == []
    ensures shown.Some? ==> shown.value == errorMessage
  {
    if errorMessage == [] then None else Some(errorMessage)
  }

  /** A failed lookup of a valid CNPJ shows no banner at all exactly when the server's or
      the thrown Error's message is the empty string. */
  lemma SilentFailure(cnpj: string, outcome: LookupOutcome)
    requires ValidCnpj(cnpj) && !outcome.Found?
    ensures Banner(Lookup(cnpj, outcome).message).None?
      <==> outcome == NotOk(Some("")) || outcome == Threw(ErrorObject(""))
  {
  }

  // --------------------------------------------------------- contact checks

  /** The contact section's check: `phone.trim()` and `email.trim()` are both non-empty. */
  predicate SectionAccepts(c: ContactInfo) {
    |Trim(c.phone)| > 0 && |Trim(c.email)| > 0
  }

  /** The popup's check: phone and e-mail are non-empty, untrimmed. */
  predicate PopupAccepts(c: ContactInfo) {
    c.phone != [] && c.email != []
  }

  /** The section rejects exactly the contacts with a blank (empty or all-whitespace) field. */
  lemma SectionAcceptsNonBlank(c: ContactInfo)
    ensures SectionAccepts(c) <==> !AllWhitespace(c.phone) && !AllWhitespace(c.email)
  {
    TrimSpec(c.phone);
    TrimSpec(c.email);
  }

  /** The popup is the more lenient of the two: whatever the section accepts, it accepts. */
  lemma SectionStricterThanPopup(c: ContactInfo)
    ensures SectionAccepts(c) ==> PopupAccepts(c)
  {
    TrimSpec(c.phone);
    TrimSpec(c.email);
  }

  /** ...and strictly so: a phone and an e-mail made of spaces pass the popup's check only. */
  lemma BlankContactPassesPopupOnly(c: ContactInfo)
    requires c == ContactInfo(" ", " ")
    ensures PopupAccepts(c) && !SectionAccepts(c)
  {
    SectionAcceptsNonBlank(c);
    assert AllWhitespace(c.phone);
  }
}
