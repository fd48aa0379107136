/** The lead-capture form of the contact section (src/components/ContactSection.tsx):
    a four-stage flow cnpj -> details -> contact -> done, with a three-step
    progress indicator above it. */
module SectionFlow {
  import opened JsText
  import opened CnpjLib
  import opened LeadFlow

  datatype Stage = Cnpj | Details | Contact | Done

  datatype Step = Step(number: nat, title: string)

  /** The progress indicator's steps. */
  const Steps: seq<Step> := [Step(1, "Digite o CNPJ"), Step(2, "Dados confirmados"), Step(3, "Seu contato")]

  // ------------------------------------------------------- progress indicator

  /** `stageOrder`: the step a stage belongs to; `contact` and `done` share the last one. */
  function StageOrder(s: Stage): (n: nat)
    ensures 1 <= n <= |Steps|
    ensures n == |Steps| <==> s == Contact || s == Done
  {
    match s
    case Cnpj => 1
    case Details => 2
    case Contact => 3
    case Done => 3
  }

  function Min(a: int, b: int): int {
    if a < b then a else b
  }

  /** `Math.min(stageOrder[stage], steps.length) - 1`: the step whose title heads the form. */
  function TitleIndex(s: Stage): (i: nat)
    ensures i < |Steps| && Steps[i].number == StageOrder(s)
  {
    Min(StageOrder(s), |Steps|) - 1
  }

  /** The heading above the form; there is none once the flow is done. */
  function Title(s: Stage): (t: Option<string>)
    ensures t.None? <==> s == Done
    ensures t.Some? ==> t.value == Steps[StageOrder(s) - 1].title
  {
    if s == Done then None else Some(Steps[TitleIndex(s)].title)
  }

  /** How a step is drawn: highlighted (`isActive`) and ticked (`isComplete`); the bar
      after a step is highlighted exactly when the step is ticked. */
  datatype Mark = Mark(active: bool, complete: bool)

  /** Steps numbered 1, 2, 3, ... in order. */
  predicate Numbered(steps: seq<Step>) {
    forall i :: 0 <= i < |steps| ==> steps[i].number == i + 1
  }

  /** The marks of `steps` when the current stage has order `order`. */
  function Marks(order: int, steps: seq<Step>): (r: seq<Mark>)
    ensures |r| == |steps|
    ensures Numbered(steps) ==> forall i :: 0 <= i < |r| ==>
      (r[i].active <==> i < order) && (r[i].complete <==> i + 1 < order)
    ensures forall i :: 0 <= i < |r| ==> r[i].complete ==> r[i].active
  {
    seq(|steps|, i requires 0 <= i < |steps| => Mark(order >= steps[i].number, order > steps[i].number))
  }

  /** The indicator as drawn for a stage: the steps up to the stage's own are
      highlighted, and those before it ticked. */
  function Progress(s: Stage): (r: seq<Mark>)
    ensures |r| == |Steps|
    ensures forall i :: 0 <= i < |r| ==>
      (r[i].active <==> i < StageOrder(s)) && (r[i].complete <==> i + 1 < StageOrder(s))
  {
    assert Numbered(Steps);
    Marks(StageOrder(s), Steps)
  }

  function CountActive(marks: seq<Mark>): nat {
    if marks == [] then 0
    else CountActive(marks[..|marks| - 1]) + (if marks[|marks| - 1].active then 1 else 0)
  }

  function CountComplete(marks: seq<Mark>): nat {
    if marks == [] then 0
    else CountComplete(marks[..|marks| - 1]) + (if marks[|marks| - 1].complete then 1 else 0)
  }

  /** With order `order` >= 1, the first `order` steps are highlighted and the first
      `order - 1` ticked (as far as there are steps). */
  lemma {:induction false} MarkCounts(order: int, steps: seq<Step>)
    requires Numbered(steps) && order >= 1
    ensures CountActive(Marks(order, steps)) == Min(order, |steps|)
    ensures CountComplete(Marks(order, steps)) == Min(order - 1, |steps|)
  {
    if steps != [] {
      var n := |steps|;
      var front := steps[..n - 1];
      assert Numbered(front) by {
        forall i | 0 <= i < |front| ensures front[i].number == i + 1 {
          assert front[i] == steps[i];
        }
      }
      MarkCounts(order, front);
      var ms := Marks(order, steps);
      assert ms[..n - 1] == Marks(order, front);
    }
  }

  /** The indicator shows the stage's order: that many steps highlighted, one fewer ticked. */
  lemma ProgressShowsOrder(s: Stage)
    ensures CountActive(Progress(s)) == StageOrder(s)
    ensures CountComplete(Progress(s)) == StageOrder(s) - 1
  {
    assert Numbered(Steps);
    MarkCounts(StageOrder(s), Steps);
  }

  /** Moving forward through the flow never un-highlights or un-ticks a step. */
  lemma ProgressMonotone(s: Stage, t: Stage, i: nat)
    requires StageOrder(s) <= StageOrder(t) && i < |Steps|
    ensures Progress(s)[i].active ==> Progress(t)[i].active
    ensures Progress(s)[i].complete ==> Progress(t)[i].complete
  {
    assert Numbered(Steps);
  }

  // ---------------------------------------------------------------- the form

  /** The component's state variables, as one value. */
  datatype Snapshot = Snapshot(
    stage: Stage,
    cnpj: string,
    isLoading: bool,
    errorMessage: string,
    company: Option<CnpjData>,
    contact: ContactInfo)

  /** The state on first render. */
  const Start: Snapshot := Snapshot(Cnpj, "", false, "", None, NoContact)

  /** The form; each field is one `useState` variable. A lookup is one atomic step, so
      `isLoading` is false between steps (the confirm button is disabled while it is true).
      Each handler requires the stage in which its control is rendered. */
  class ContactSection {
    var stage: Stage
    var cnpj: string
    var isLoading: bool
    var errorMessage: string
    var company: Option<CnpjData>
    var contact: ContactInfo

    function State(): Snapshot
      reads this
    {
      Snapshot(stage, cnpj, isLoading, errorMessage, company, contact)
    }

    /** The state between two steps: no lookup in flight, and consistent. */
    ghost predicate Valid()
      reads this
    {
      !isLoading && Consistent()
    }

    /** A company is held exactly past the CNPJ stage, and it is a well-formed record;
        the flow is done only with a phone and an e-mail that are not blank. */
    ghost predicate Consistent()
      reads this
    {
      (stage == Cnpj <==> company.None?)
      && (company.Some? ==> company.value.WellFormed())
      && (stage == Done ==> SectionAccepts(contact))
    }

    constructor()
      ensures Valid() && State() == Start
    {
      stage, cnpj, isLoading, errorMessage, company, contact := Cnpj, "", false, "", None, NoContact;
    }

    /** `resetFlow` ("Fazer nova consulta"): everything back to the first render. */
    method ResetFlow()
      requires Valid() && stage == Done
      modifies this
      ensures Valid() && State() == Start
    {
      stage := Cnpj;
      cnpj := "";
      company := None;
      contact := NoContact;
      errorMessage := "";
    }

    /** Typing in the CNPJ field. */
    method EditCnpj(value: string)
      requires Valid() && stage == Cnpj
      modifies this
      ensures Valid() && State() == old(State()).(cnpj := value)
    {
      cnpj := value;
    }

    /** `handleLookup` ("Confirmar CNPJ"), with the registry's answer given as `outcome`.
        `request` is the path sent to the registry, when one is sent. */
    method HandleLookup(outcome: LookupOutcome) returns (request: Option<string>)
      requires Valid() && stage == Cnpj
      modifies this
      ensures Valid()
      ensures request == if ValidCnpj(old(cnpj)) then Some(RemoveNonDigits(old(cnpj))) else None
      ensures match Lookup(old(cnpj), outcome)
        case Rejected => State() == old(State()).(errorMessage := InvalidCnpjMessage)
        case Loaded(data) => State() == old(State()).(stage := Details, company := Some(data), errorMessage := "")
        case Failed(message) => State() == old(State()).(errorMessage := message)
    {
      var digitsOnly := RemoveNonDigits(cnpj);
      if |digitsOnly| != CnpjLength {
        errorMessage := InvalidCnpjMessage;
        return None;
      }
      isLoading := true;
      errorMessage := "";
      request := Some(digitsOnly);
      if outcome.Found? {
        ShowCompany(BuildCnpjData(outcome.payload));
      } else {
        errorMessage := FailureMessage(outcome);
      }
      isLoading := false;
    }

    /** `setCompany(data)` then `setStage("details")`. */
    method ShowCompany(data: CnpjData)
      requires Consistent() && stage == Cnpj && data.WellFormed()
      modifies this
      ensures Consistent() && State() == old(State()).(stage := Details, company := Some(data))
    {
      company := Some(data);
      stage := Details;
    }

    /** "Confirmar e enviar contato". */
    method ConfirmDetails()
      requires Valid() && stage == Details
      modifies this
      ensures Valid() && State() == old(State()).(stage := Contact)
    {
      stage := Contact;
    }

    /** "Alterar CNPJ": back to the CNPJ stage, dropping the company; the typed CNPJ and
        the error message stay. */
    method ChangeCnpj()
      requires Valid() && stage == Details
      modifies this
      ensures Valid() && State() == old(State()).(stage := Cnpj, company := None)
    {
      stage := Cnpj;
      company := None;
    }

    /** Typing in the phone field. */
    method EditPhone(value: string)
      requires Valid() && stage == Contact
      modifies this
      ensures Valid() && State() == old(State()).(contact := old(contact).(phone := value))
    {
      contact := contact.(phone := value);
    }

    /** Typing in the e-mail field. */
    method EditEmail(value: string)
      requires Valid() && stage == Contact
      modifies this
      ensures Valid() && State() == old(State()).(contact := old(contact).(email := value))
    {
      contact := contact.(email := value);
    }

    /** "Voltar": back to the details, keeping the company. */
    method Back()
      requires Valid() && stage == Contact
      modifies this
      ensures Valid() && State() == old(State()).(stage := Details)
    {
      stage := Details;
    }

    /** `handleContactSubmit`: done when neither field is blank after trimming, otherwise
        the error is shown and the stage kept. */
    method HandleContactSubmit() returns (accepted: bool)
      requires Valid() && stage == Contact
      modifies this
      ensures Valid()
      ensures accepted == SectionAccepts(old(contact))
      ensures accepted ==> State() == old(State()).(errorMessage := "", stage := Done)
      ensures !accepted ==> State() == old(State()).(errorMessage := MissingContactMessage)
    {
      if |Trim(contact.phone)| == 0 || |Trim(contact.email)| == 0 {
        errorMessage := MissingContactMessage;
        return false;
      }
      errorMessage := "";
      stage := Done;
      return true;
    }
  }

  // -------------------------------------------------------------- walkthroughs

  /** A visitor types a punctuated CNPJ the registry knows, confirms, and leaves a
      phone and an e-mail: the form ends done, holding the normalised company. */
  method CompleteLead(d: string, payload: map<string, Value>, phone: string, email: string)
    returns (request: Option<string>, final: Snapshot)
    requires |d| == CnpjLength && AllDigits(d)
    requires !AllWhitespace(phone) && !AllWhitespace(email)
    ensures request == Some(d)
    ensures final == Snapshot(Done, Masked(d), false, "", Some(BuildCnpjData(payload)), ContactInfo(phone, email))
  {
    var form := new ContactSection();
    form.EditCnpj(Masked(d));
    MaskedCnpjAccepted(d);
    request := form.HandleLookup(Found(payload));
    form.ConfirmDetails();
    form.EditPhone(phone);
    form.EditEmail(email);
    SectionAcceptsNonBlank(ContactInfo(phone, email));
    var accepted := form.HandleContactSubmit();
    final := form.State();
  }

  /** A lookup the registry answers with a bare 404 keeps the visitor on the CNPJ stage
      with "CNPJ não encontrado.". */
  method UnknownCnpj(d: string) returns (final: Snapshot)
    requires |d| == CnpjLength && AllDigits(d)
    ensures final == Snapshot(Cnpj, d, false, NotFoundMessage, None, NoContact)
  {
    var form := new ContactSection();
    form.EditCnpj(d);
    assert RemoveNonDigits(d) == d;
    var request := form.HandleLookup(NotOk(None));
    final := form.State();
  }

  /** A phone of spaces does not get past the contact stage. */
  method BlankPhoneRejected(d: string, payload: map<string, Value>, phone: string, email: string)
    returns (final: Snapshot)
    requires |d| == CnpjLength && AllDigits(d) && AllWhitespace(phone)
    ensures final == Snapshot(Contact, d, false, MissingContactMessage, Some(BuildCnpjData(payload)), ContactInfo(phone, email))
  {
    var form := new ContactSection();
    form.EditCnpj(d);
    assert RemoveNonDigits(d) == d;
    var request := form.HandleLookup(Found(payload));
    form.ConfirmDetails();
    form.EditPhone(phone);
    form.EditEmail(email);
    SectionAcceptsNonBlank(ContactInfo(phone, email));
    var accepted := form.HandleContactSubmit();
    final := form.State();
  }

  /** Changing the CNPJ after a successful lookup keeps the typed text, so the visitor
      can correct it; going back from the contact stage keeps the company. */
  method CorrectCnpj(d: string, payload: map<string, Value>) returns (afterBack: Snapshot, afterChange: Snapshot)
    requires |d| == CnpjLength && AllDigits(d)
    ensures afterBack == Snapshot(Details, d, false, "", Some(BuildCnpjData(payload)), NoContact)
    ensures afterChange == Snapshot(Cnpj, d, false, "", None, NoContact)
  {
    var form := new ContactSection();
    form.EditCnpj(d);
    assert RemoveNonDigits(d) == d;
    var request := form.HandleLookup(Found(payload));
    form.ConfirmDetails();
    form.Back();
    afterBack := form.State();
    form.ChangeCnpj();
    afterChange := form.State();
  }
}
