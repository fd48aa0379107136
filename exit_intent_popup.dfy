/** The exit-intent popup (src/components/ExitIntentPopup.tsx): a dialog shown once,
    when the pointer leaves the page or the tab is hidden, holding the same CNPJ
    lookup as the contact section in a forward-only flow initial -> data -> contact -> done. */
module PopupFlow {
  import opened JsText
  import opened CnpjLib
  import opened LeadFlow

  datatype Stage = Initial | Data | Contact | Done

  /** Position of a stage along the flow. */
  function Rank(s: Stage): nat {
    match s
    case Initial => 0
    case Data => 1
    case Contact => 2
    case Done => 3
  }

  /** The mouse-out test: the pointer left the document itself (no element it moved to)
      across the top edge, the left edge, or the last pixel column on the right. */
  predicate ExitGesture(hasRelatedTarget: bool, clientX: int, clientY: int, innerWidth: int) {
    !hasRelatedTarget && (clientY <= 0 || clientX <= 0 || clientX >= innerWidth - 1)
  }

  /** The component's state variables, as one value. */
  datatype Snapshot = Snapshot(
    visible: bool,
    stage: Stage,
    cnpj: string,
    isLoading: bool,
    errorMessage: string,
    company: Option<CnpjData>,
    contact: ContactInfo,
    exitTriggered: bool)

  /** The state on first render: hidden, never triggered. */
  const Start: Snapshot := Snapshot(false, Initial, "", false, "", None, NoContact, false)

  /** The popup; each field is one `useState` variable, and `timesShown` counts how often
      it has been opened. The listeners are re-registered whenever `visible` or
      `exitTriggered` changes, so they always see the current values. A lookup is one
      atomic step. The dialog's controls exist only while it is visible, and each
      requires the stage in which it is rendered. */
  class ExitIntentPopup {
    var visible: bool
    var stage: Stage
    var cnpj: string
    var isLoading: bool
    var errorMessage: string
    var company: Option<CnpjData>
    var contact: ContactInfo
    var exitTriggered: bool
    ghost var timesShown: nat

    function State(): Snapshot
      reads this
    {
      Snapshot(visible, stage, cnpj, isLoading, errorMessage, company, contact, exitTriggered)
    }

    /** The state between two steps: no lookup in flight, and consistent. */
    ghost predicate Valid()
      reads this
    {
      !isLoading && Consistent()
    }

    /** Shown at most once, and only ever after the trigger fired; a company is held
        exactly past the initial stage; done only with a non-empty phone and e-mail. */
    ghost predicate Consistent()
      reads this
    {
      (visible ==> exitTriggered)
      && timesShown == (if exitTriggered then 1 else 0)
      && (stage == Initial <==> company.None?)
      && (company.Some? ==> company.value.WellFormed())
      && (stage == Done ==> PopupAccepts(contact))
    }

    constructor()
      ensures Valid() && State() == Start && timesShown == 0
    {
      visible, stage, cnpj, isLoading, errorMessage := false, Initial, "", false, "";
      company, contact, exitTriggered := None, NoContact, false;
      timesShown := 0;
    }

    /** Opens the popup for the first and only time. */
    method Show()
      requires Valid() && !exitTriggered && !visible
      modifies this
      ensures Valid() && State() == old(State()).(visible := true, exitTriggered := true)
      ensures timesShown == old(timesShown) + 1
    {
      visible := true;
      exitTriggered := true;
      timesShown := timesShown + 1;
    }

    /** `handleMouseOut`: opens the popup on an exit gesture, unless it was ever opened. */
    method HandleMouseOut(hasRelatedTarget: bool, clientX: int, clientY: int, innerWidth: int)
      requires Valid()
      modifies this
      ensures Rank(old(stage)) <= Rank(stage)
      ensures Valid()
      ensures old(exitTriggered) ==> exitTriggered
      ensures if !old(exitTriggered) && !old(visible) && ExitGesture(hasRelatedTarget, clientX, clientY, innerWidth)
        then State() == old(State()).(visible := true, exitTriggered := true)
        else State() == old(State())
    {
      if exitTriggered || visible {
        return;
      }
      if hasRelatedTarget {
        return;
      }
      if clientY <= 0 || clientX <= 0 || clientX >= innerWidth - 1 {
        Show();
      }
    }

    /** `handleVisibility`: opens the popup when the tab is hidden, unless it was ever opened. */
    method HandleVisibility(hidden: bool)
      requires Valid()
      modifies this
      ensures Rank(old(stage)) <= Rank(stage)
      ensures Valid()
      ensures old(exitTriggered) ==> exitTriggered
      ensures if hidden && !old(visible) && !old(exitTriggered)
        then State() == old(State()).(visible := true, exitTriggered := true)
        else State() == old(State())
    {
      if hidden && !visible && !exitTriggered {
        Show();
      }
    }

    /** The backdrop and the "Fechar" button: hide the popup; the trigger stays spent. */
    method Close()
      requires Valid() && visible
      modifies this
      ensures Rank(old(stage)) <= Rank(stage)
      ensures Valid() && State() == old(State()).(visible := false)
    {
      visible := false;
    }

    /** Typing in the CNPJ field. */
    method EditCnpj(value: string)
      requires Valid() && visible && stage == Initial
      modifies this
      ensures Rank(old(stage)) <= Rank(stage)
      ensures Valid() && State() == old(State()).(cnpj := value)
    {
      cnpj := value;
    }

    /** `handleLookup` ("Confirmar CNPJ"), with the registry's answer given as `outcome`;
        the same check, request and messages as the contact section, moving to `data`. */
    method HandleLookup(outcome: LookupOutcome) returns (request: Option<string>)
      requires Valid() && visible && stage == Initial
      modifies this
      ensures Rank(old(stage)) <= Rank(stage)
      ensures Valid()
      ensures request == if ValidCnpj(old(cnpj)) then Some(RemoveNonDigits(old(cnpj))) else None
      ensures match Lookup(old(cnpj), outcome)
        case Rejected => State() == old(State()).(errorMessage := InvalidCnpjMessage)
        case Loaded(data) => State() == old(State()).(stage := Data, company := Some(data), errorMessage := "")
        case Failed(message) => State() == old(State()).(errorMessage := message)
    {
      var digitsOnly := RemoveNonDigits(cnpj);
      if |digitsOnly| != CnpjLength {
        errorMessage := InvalidCnpjMessage;
        return None;
      }
      isLoading := true;
      errorMessage := "";
      request := Some(digitsOnly);
      if outcome.Found? {
        ShowCompany(BuildCnpjData(outcome.payload));
      } else {
        errorMessage := FailureMessage(outcome);
      }
      isLoading := false;
    }

    /** `setCompany(data)` then `setStage("data")`. */
    method ShowCompany(data: CnpjData)
      requires Consistent() && stage == Initial && data.WellFormed()
      modifies this
      ensures Consistent() && State() == old(State()).(stage := Data, company := Some(data))
      ensures timesShown == old(timesShown)
    {
      company := Some(data);
      stage := Data;
    }

    /** "Confirmar e enviar contato": the only way out of `data`. */
    method ConfirmDetails()
      requires Valid() && visible && stage == Data
      modifies this
      ensures Rank(old(stage)) <= Rank(stage)
      ensures Valid() && State() == old(State()).(stage := Contact)
    {
      stage := Contact;
    }

    /** Typing in the phone field. */
    method EditPhone(value: string)
      requires Valid() && visible && stage == Contact
      modifies this
      ensures Rank(old(stage)) <= Rank(stage)
      ensures Valid() && State() == old(State()).(contact := old(contact).(phone := value))
    {
      contact := contact.(phone := value);
    }

    /** Typing in the e-mail field. */
    method EditEmail(value: string)
      requires Valid() && visible && stage == Contact
      modifies this
      ensures Rank(old(stage)) <= Rank(stage)
      ensures Valid() && State() == old(State()).(contact := old(contact).(email := value))
    {
      contact := contact.(email := value);
    }

    /** `handleContactSubmit`: done when neither field is the empty string (no trimming). */
    method HandleContactSubmit() returns (accepted: bool)
      requires Valid() && visible && stage == Contact
      modifies this
      ensures Rank(old(stage)) <= Rank(stage)
      ensures Valid()
      ensures accepted == PopupAccepts(old(contact))
      ensures accepted ==> State() == old(State()).(errorMessage := "", stage := Done)
      ensures !accepted ==> State() == old(State()).(errorMessage := MissingContactMessage)
    {
      if contact.email == "" || contact.phone == "" {
        errorMessage := MissingContactMessage;
        return false;
      }
      errorMessage := "";
      stage := Done;
      return true;
    }
  }

  // -------------------------------------------------------------- walkthroughs

  /** The popup opens on the first exit gesture; once closed, neither another gesture
      nor hiding the tab opens it again. */
  method ShownOnce(clientX: int, clientY: int, innerWidth: int) returns (first: Snapshot, last: Snapshot)
    requires ExitGesture(false, clientX, clientY, innerWidth)
    ensures first.visible && first.exitTriggered
    ensures last == first.(visible := false)
  {
    var popup := new ExitIntentPopup();
    popup.HandleMouseOut(false, clientX, clientY, innerWidth);
    first := popup.State();
    popup.Close();
    popup.HandleMouseOut(false, clientX, clientY, innerWidth);
    popup.HandleVisibility(true);
    last := popup.State();
  }

  /** A pointer leaving towards another element, or moving inside the window, opens nothing. */
  method NoExitNoPopup(clientX: int, clientY: int, innerWidth: int) returns (after: Snapshot)
    requires 0 < clientY && 0 < clientX < innerWidth - 1
    ensures after == Start
  {
    var popup := new ExitIntentPopup();
    popup.HandleMouseOut(true, 0, 0, innerWidth);
    popup.HandleMouseOut(false, clientX, clientY, innerWidth);
    popup.HandleVisibility(false);
    after := popup.State();
  }

  /** Unlike the contact section, the popup takes a phone and an e-mail of spaces. */
  method BlankContactAccepted(d: string, payload: map<string, Value>) returns (final: Snapshot)
    requires |d| == CnpjLength && AllDigits(d)
    ensures final.stage == Done && final.contact == ContactInfo(" ", " ") && final.errorMessage == ""
    ensures !SectionAccepts(final.contact)
  {
    var popup := new ExitIntentPopup();
    popup.HandleVisibility(true);
    popup.EditCnpj(d);
    assert RemoveNonDigits(d) == d;
    var request := popup.HandleLookup(Found(payload));
    popup.ConfirmDetails();
    popup.EditPhone(" ");
    popup.EditEmail(" ");
    var accepted := popup.HandleContactSubmit();
    final := popup.State();
    BlankContactPassesPopupOnly(final.contact);
  }
}
