# CNPJ lead capture, modelled in Dafny

This project models the logic of a distributor's marketing site. The rest of the site is
static markup and animation.

- **Payload normaliser** (`src/lib/cnpj.ts`). It turns whatever the public CNPJ registry
  returns into a fixed record of eight display fields:
  - For each field it picks the first usable value among candidate keys (snake_case first).
  - Strings are trimmed and integers rendered in decimal.
  - Partner names come from the `QSA` list when there is one, joined with `", "`.
  - Any field left empty becomes `"-"`.
- **Contact-section form** (`src/components/ContactSection.tsx`). A four-stage flow
  `cnpj -> details -> contact -> done`:
  - a 14-digit check on the typed CNPJ;
  - the registry lookup, whose outcome is an input;
  - "Alterar CNPJ" and "Voltar";
  - a trimmed phone/e-mail check, and `resetFlow`;
  - the three-step progress indicator and heading.
- **Exit-intent popup** (`src/components/ExitIntentPopup.tsx`). A dialog opened at most once:
  - on an exit gesture of the mouse, or when the tab is hidden;
  - closed by its backdrop or button;
  - holding the same lookup in a forward-only flow `initial -> data -> contact -> done`;
  - with a contact check that does not trim.

The files are:

- `jstext.dfy` (module `JsText`): the ECMAScript built-ins the code relies on. These are
  `String.prototype.trim`, `Number.prototype.toString` on integers, `Array.prototype.join`
  and `replace(/\D/g, "")`.
- `cnpj.dfy` (`CnpjLib`): `safeString`, `pickValue` and `buildCnpjData`, over
  `datatype Value = Str | Num | List | Other`. A JSON object is a `map<string, Value>`, and a
  missing key stands for `undefined`.
- `lead_flow.dfy` (`LeadFlow`): what both forms share:
  - the digit check;
  - the lookup outcome (`Found | NotOk | Threw`) and its effect (`Lookup`);
  - the messages;
  - the two contact checks.
- `contact_section.dfy` (`SectionFlow`): the progress indicator functions, and `class
  ContactSection`, whose fields are the component's `useState` variables.
- `exit_intent_popup.dfy` (`PopupFlow`): `class ExitIntentPopup`, the same way, with a
  ghost counter of how often the popup was opened.

Each handler is a method that requires the stage in which its control is rendered. It
states the component's whole new state as an update of the old one (`State()` is a snapshot
of all the fields). Each handler also preserves the class invariant `Valid()`. The invariant
says:

- a company is held exactly past the first stage, and it is a well-formed record;
- the flow is done only with an accepted contact;
- for the popup, `visible` implies `exitTriggered`, and the popup has been shown exactly
  once if triggered, never otherwise.

### Behaviour worth knowing

- "Alterar CNPJ" keeps the typed CNPJ text. It only resets the stage and drops the company.
- When the request itself fails, `fetch` rejects with an `Error`, so the banner shows that
  error's own message. The fixed text "Não foi possível buscar o CNPJ." appears only for a
  thrown value that is not an `Error`.
- A non-ok response whose body has `"message": ""` sets an empty error message, because
  `??` replaces only null and undefined. The banner is rendered only for a non-empty
  message, so such a failed lookup shows no error at all (`Banner`, `SilentFailure`).
- The popup's contact check does not trim. A phone or e-mail of spaces reaches `done`.
- `resetFlow` exists only in the contact section, and only its "done" screen offers it. It
  does not reset `isLoading`, which is already false.

## Model

| member | source | states |
|---|---|---|
| JsText.Trim | src/lib/cnpj.ts:14 | `String.prototype.trim`, as trimStart then trimEnd; its properties are TrimSpec's |
| JsText.TrimStart | src/lib/cnpj.ts:14 | drops leading whitespace one character at a time; TrimStartSpec states the result |
| JsText.TrimEnd | src/lib/cnpj.ts:14 | drops trailing whitespace one character at a time; TrimEndSpec states the result |
| JsText.IsWhitespace | src/lib/cnpj.ts:14 | the characters `trim` removes: ECMAScript WhiteSpace (TAB, VT, FF, ZWNBSP, every Zs space) and LineTerminator (LF, CR, LS, PS) |
| JsText.TrimSpec | src/lib/cnpj.ts:14 | `trim` leaves no whitespace at either end, cuts only a whitespace prefix and suffix (`CoreOf`), never lengthens, and gives "" exactly for all-whitespace input |
| JsText.TrimStartSpec | src/lib/cnpj.ts:14 | the leading part of trim removes a whitespace prefix and stops at the first non-whitespace character |
| JsText.TrimEndSpec | src/lib/cnpj.ts:14 | the trailing part of trim removes a whitespace suffix and stops at the last non-whitespace character |
| JsText.TrimOfTrimmed | src/lib/cnpj.ts:14 | a string with no whitespace at either end is left unchanged by trim |
| JsText.TrimIdempotent | src/lib/cnpj.ts:14 | trimming twice equals trimming once |
| JsText.NatToDecimal | src/lib/cnpj.ts:17 | the decimal numeral of a natural number is non-empty, all digits, and has no leading zero |
| JsText.IntToDecimal | src/lib/cnpj.ts:17 | `toString` of an integer is a numeral without whitespace in canonical form: "-" exactly for negatives, and no leading zero except "0" itself (so no "-0") |
| JsText.NatDecimalRoundTrip | src/lib/cnpj.ts:17 | reading back the digits of a natural number gives the number |
| JsText.DecimalRoundTrip | src/lib/cnpj.ts:17 | parsing the decimal rendering of any integer gives the integer back, so for the integers JavaScript holds exactly (magnitude at most 2^53 - 1) no digit is lost |
| JsText.Option.GetOr | src/components/ContactSection.tsx:57 | `??`: the value when present, the default only for null or undefined |
| JsText.Join | src/lib/cnpj.ts:39 | `Array.prototype.join`: the items with the separator between neighbours; JoinAppend and JoinDisplayable state it |
| JsText.JoinAppend | src/lib/cnpj.ts:39 | `join` of a concatenation is the joins of the parts with one separator between them |
| JsText.JoinDisplayable | src/lib/cnpj.ts:39 | a join of non-empty, unpadded strings is non-empty and unpadded, whatever the separator |
| JsText.RemoveNonDigits | src/components/ContactSection.tsx:45 | the digit filter returns only digits, is never longer than its input, and leaves a string of digits unchanged |
| JsText.RemoveNonDigitsCounts | src/components/ContactSection.tsx:45 | each digit occurs in the result exactly as often as in the input; no other character occurs |
| JsText.RemoveNonDigitsAppend | src/components/ContactSection.tsx:45 | the filter works piecewise, so the digits keep their order |
| CnpjLib.Usable | src/lib/cnpj.ts:26-28 | the `find` test: a string whose trim is non-empty, or any number |
| CnpjLib.SafeString | src/lib/cnpj.ts:12-20 | the result has no surrounding whitespace; it is non-empty exactly when the value is a usable string or a number; for a number it is a numeral that parses back to it |
| CnpjLib.SafeStringCutsInput | src/lib/cnpj.ts:13-14 | the text of a string value is the value with only a whitespace prefix and suffix cut off |
| CnpjLib.PickValue | src/lib/cnpj.ts:22-30 | the result is usable or the `""` fallback, and it is the fallback exactly when no candidate key holds a usable value |
| CnpjLib.PickValueFirst | src/lib/cnpj.ts:22-30 | the first usable candidate in key order is the one returned |
| CnpjLib.OrPlaceholder | src/lib/cnpj.ts:43-51 | the "-" fallback of each field: the result is displayable; displayable text is kept, and only "" becomes "-" |
| CnpjLib.Field | src/lib/cnpj.ts:43-50 | every ordinary field is non-empty and unpadded |
| CnpjLib.FieldMissing | src/lib/cnpj.ts:43-50 | a field with no usable candidate is exactly "-" |
| CnpjLib.FieldFirstUsable | src/lib/cnpj.ts:22-30 | otherwise the field is the text of the first usable candidate, and that text is displayable |
| CnpjLib.EntryNames | src/lib/cnpj.ts:36-37 | one picked, trimmed name per QSA entry, in entry order |
| CnpjLib.NonEmpty | src/lib/cnpj.ts:38 | `filter(Boolean)` keeps only non-empty strings, keeps unpadded strings unpadded, and is empty exactly when every input is empty |
| CnpjLib.NonEmptyAppend | src/lib/cnpj.ts:38 | the filter works piecewise, so kept names keep their order |
| CnpjLib.HasPartnerList | src/lib/cnpj.ts:33-35 | QSA is an array with at least one entry; an absent, non-array or empty QSA falls back to the top-level name |
| CnpjLib.ListedNames | src/lib/cnpj.ts:35-39 | the joined partner names carry no surrounding whitespace |
| CnpjLib.PartnerNames | src/lib/cnpj.ts:33-40 | the partner text before the "-" fallback carries no surrounding whitespace |
| CnpjLib.BuildCnpjData | src/lib/cnpj.ts:32-53 | every one of the eight fields of the record is non-empty and unpadded |
| CnpjLib.PickValueReadsOnlyKeys | src/lib/cnpj.ts:22-30 | the pick depends only on the entries under its candidate keys |
| CnpjLib.SingleKeyFieldsIgnoreOtherKeys | src/lib/cnpj.ts:47-49 | logradouro, numero and municipio change under no key other than their own, camelCase variants included |
| CnpjLib.SnakeCaseFirst | src/lib/cnpj.ts:22-30 | a usable snake_case value wins over the camelCase one, and the camelCase one is used only when the snake_case one is missing or blank |
| CnpjLib.EntryNamesAppend | src/lib/cnpj.ts:36-37 | the names of concatenated entry lists are the concatenated names |
| CnpjLib.ListedNamesSingle | src/lib/cnpj.ts:36-38 | a single entry contributes its picked name, or nothing when it is blank |
| CnpjLib.ListedNamesAppend | src/lib/cnpj.ts:36-39 | the names of a concatenation are those of the first part, ", ", then those of the second, with blank parts contributing no separator |
| CnpjLib.PartnerListIgnoresTopLevel | src/lib/cnpj.ts:33-35 | with a non-empty QSA list, no other top-level key changes the partner field |
| CnpjLib.NamelessListGivesPlaceholder | src/lib/cnpj.ts:33-51 | with a non-empty QSA list whose entries are all nameless, the partner field is "-": the top-level name is not consulted |
| CnpjLib.NoPartnerListUsesTopLevel | src/lib/cnpj.ts:33-40 | without a non-empty QSA list, the partner field is the ordinary field over the top-level name keys |
| CnpjLib.ExampleBlankSnakeCase | src/lib/cnpj.ts:26-28 | `razao_social: "  "` with `razaoSocial: "B"` gives "B" |
| CnpjLib.ExampleSnakeCaseWins | src/lib/cnpj.ts:22-30 | `razao_social: "A"` with `razaoSocial: "B"` gives "A" |
| CnpjLib.ExampleNamedEntry | src/lib/cnpj.ts:36-37 | an entry named under either key contributes that name |
| CnpjLib.ExampleBlankEntry | src/lib/cnpj.ts:37-38 | an entry whose name is blank contributes nothing |
| CnpjLib.ExamplePartnerPair | src/lib/cnpj.ts:36-39 | entries named "Jane" and "Joe" give "Jane, Joe" |
| CnpjLib.ExamplePartnerList | src/lib/cnpj.ts:36-39 | `[{nome_socio: "Jane"}, {nomeSocio: "Joe"}, {nome_socio: "  "}]` gives "Jane, Joe" |
| CnpjLib.ExampleTopLevelPartner | src/lib/cnpj.ts:33-51 | without QSA, a top-level `nomeSocio: "Ana"` makes the record's partner field "Ana" |
| CnpjLib.EmptyPayload | src/lib/cnpj.ts:42-52 | a body with no usable key gives a record whose eight fields are all "-" |
| CnpjLib.ExampleCamelCaseName | src/lib/cnpj.ts:43 | `razaoSocial: "ACME LTDA"` alone gives "ACME LTDA" |
| CnpjLib.ExampleCamelCaseStatus | src/lib/cnpj.ts:44-45 | `situacaoCadastral: "ATIVA"` alone gives "ATIVA" |
| CnpjLib.ExampleCamelCaseMissing | src/lib/cnpj.ts:46 | an absent CNAE gives "-" |
| CnpjLib.ExampleNumber | src/lib/cnpj.ts:16-18 | `numero: 116` gives "116" |
| LeadFlow.ValidCnpj | src/components/ContactSection.tsx:45-46 | the only check on the typed text: its digit filter has exactly 14 characters |
| LeadFlow.FailureMessage | src/components/ContactSection.tsx:55-65 | the error message after a failed lookup is empty exactly when the server's or the thrown Error's message is the empty string (an all-whitespace message is kept and shown) |
| LeadFlow.Lookup | src/components/ContactSection.tsx:44-69 | rejected exactly when the typed text does not hold 14 digits; loaded exactly on a valid CNPJ and a successful response, with the well-formed `buildCnpjData` record; otherwise the failure message |
| LeadFlow.Banner | src/components/ContactSection.tsx:193-197 | the error banner is shown exactly for a non-empty message, and shows that message |
| LeadFlow.SilentFailure | src/components/ContactSection.tsx:55-65 | a failed lookup of a valid CNPJ shows no banner exactly when the server's or the thrown Error's message is "" |
| LeadFlow.FilterSeparated | src/components/ContactSection.tsx:45 | a separator without digits between two pieces is dropped by the filter |
| LeadFlow.MaskedCnpjAccepted | src/components/ContactSection.tsx:44-49 | a CNPJ typed as 00.000.000/0000-00 passes the check, and exactly its 14 digits are sent |
| LeadFlow.ShortCnpjRejected | src/components/ContactSection.tsx:46-49 | digits of any other count are rejected whatever the registry would answer |
| LeadFlow.ExampleFormattedCnpj | src/components/ContactSection.tsx:44-49 | "11.222.333/0001-81" is accepted and "11222333000181" is sent |
| LeadFlow.ExampleShortCnpj | src/components/ContactSection.tsx:46-49 | "123" is rejected |
| LeadFlow.SectionAccepts | src/components/ContactSection.tsx:73 | the section's contact check: both trimmed fields non-empty |
| LeadFlow.PopupAccepts | src/components/ExitIntentPopup.tsx:73 | the popup's contact check: both fields non-empty, untrimmed |
| LeadFlow.SectionAcceptsNonBlank | src/components/ContactSection.tsx:73 | the section accepts a contact exactly when neither field is empty or all whitespace |
| LeadFlow.SectionStricterThanPopup | src/components/ExitIntentPopup.tsx:73 | whatever the section accepts, the popup accepts |
| LeadFlow.BlankContactPassesPopupOnly | src/components/ExitIntentPopup.tsx:73 | a phone and e-mail of spaces pass the popup's check and fail the section's |
| SectionFlow.StageOrder | src/components/ContactSection.tsx:19-24 | every stage maps into 1..3, and to 3 exactly for contact and done |
| SectionFlow.TitleIndex | src/components/ContactSection.tsx:189 | the heading index is always a valid step index, the step numbered by the stage order |
| SectionFlow.Title | src/components/ContactSection.tsx:187-191 | there is a heading exactly when the flow is not done, and it is the title of the stage's step |
| SectionFlow.Marks | src/components/ContactSection.tsx:160-163 | with steps numbered 1, 2, 3, the step at index i is highlighted iff i < order and ticked iff i + 1 < order; ticked implies highlighted |
| SectionFlow.Progress | src/components/ContactSection.tsx:160-163 | the indicator for a stage: the step at index i is highlighted iff i < the stage order and ticked iff i + 1 < it |
| SectionFlow.MarkCounts | src/components/ContactSection.tsx:160-163 | exactly min(order, n) steps are highlighted and min(order - 1, n) ticked |
| SectionFlow.ProgressShowsOrder | src/components/ContactSection.tsx:160-163 | the indicator highlights as many steps as the stage order and ticks one fewer |
| SectionFlow.ProgressMonotone | src/components/ContactSection.tsx:160-163 | a later stage never un-highlights or un-ticks a step |
| SectionFlow.ContactSection.constructor | src/components/ContactSection.tsx:29-34 | first render: stage cnpj, empty texts, no company, not loading |
| SectionFlow.ContactSection.ResetFlow | src/components/ContactSection.tsx:36-42 | every field is back to its first-render value |
| SectionFlow.ContactSection.EditCnpj | src/components/ContactSection.tsx:208 | only the CNPJ text changes |
| SectionFlow.ContactSection.HandleLookup | src/components/ContactSection.tsx:44-69 | the new state is given by `Lookup`: on rejection only the error is set and nothing is sent; on success the company is stored and the stage becomes details with no error; on failure only the error changes; `isLoading` ends false; the request is the 14 digits |
| SectionFlow.ContactSection.ShowCompany | src/components/ContactSection.tsx:62-63 | stores the company and moves to details |
| SectionFlow.ContactSection.ConfirmDetails | src/components/ContactSection.tsx:249 | details -> contact, nothing else changes |
| SectionFlow.ContactSection.ChangeCnpj | src/components/ContactSection.tsx:257-260 | back to cnpj with no company; the typed CNPJ and the error stay |
| SectionFlow.ContactSection.EditPhone | src/components/ContactSection.tsx:278-279 | only the phone changes |
| SectionFlow.ContactSection.EditEmail | src/components/ContactSection.tsx:293-294 | only the e-mail changes |
| SectionFlow.ContactSection.Back | src/components/ContactSection.tsx:305 | contact -> details, keeping the company |
| SectionFlow.ContactSection.HandleContactSubmit | src/components/ContactSection.tsx:71-81 | accepted exactly when both trimmed fields are non-empty: then done with no error; otherwise the error is set and the stage kept |
| SectionFlow.CompleteLead | src/components/ContactSection.tsx:44-81 | a punctuated CNPJ, a successful lookup, confirm and a non-blank contact end done with the normalised company, and the 14 digits are sent |
| SectionFlow.UnknownCnpj | src/components/ContactSection.tsx:55-65 | a 404 without a message leaves the form at cnpj with "CNPJ não encontrado." |
| SectionFlow.BlankPhoneRejected | src/components/ContactSection.tsx:73-76 | a phone of whitespace keeps the form at contact with the contact error |
| SectionFlow.CorrectCnpj | src/components/ContactSection.tsx:257-305 | "Voltar" keeps the company; "Alterar CNPJ" drops it but keeps the typed CNPJ |
| PopupFlow.ExitGesture | src/components/ExitIntentPopup.tsx:21-23 | the exit test: no related target, and the pointer at the top or left edge or in the last column on the right |
| PopupFlow.ExitIntentPopup.constructor | src/components/ExitIntentPopup.tsx:9-16 | first render: hidden, never triggered, stage initial, empty texts |
| PopupFlow.ExitIntentPopup.Show | src/components/ExitIntentPopup.tsx:24-25 | sets `visible` and `exitTriggered` together, counting one showing |
| PopupFlow.ExitIntentPopup.HandleMouseOut | src/components/ExitIntentPopup.tsx:19-27 | opens the popup exactly when it was never opened and the event is an exit gesture; otherwise nothing changes |
| PopupFlow.ExitIntentPopup.HandleVisibility | src/components/ExitIntentPopup.tsx:29-34 | opens the popup exactly when the tab is hidden and it was never opened; otherwise nothing changes |
| PopupFlow.ExitIntentPopup.Close | src/components/ExitIntentPopup.tsx:93 | backdrop and "Fechar" (line 99): hidden, with the trigger still spent |
| PopupFlow.ExitIntentPopup.EditCnpj | src/components/ExitIntentPopup.tsx:135 | only the CNPJ text changes |
| PopupFlow.ExitIntentPopup.HandleLookup | src/components/ExitIntentPopup.tsx:44-69 | the same effect as the section's lookup (`Lookup`), moving initial -> data on success |
| PopupFlow.ExitIntentPopup.ShowCompany | src/components/ExitIntentPopup.tsx:62-63 | stores the company and moves to data |
| PopupFlow.ExitIntentPopup.ConfirmDetails | src/components/ExitIntentPopup.tsx:174 | data -> contact, the only move out of data |
| PopupFlow.ExitIntentPopup.EditPhone | src/components/ExitIntentPopup.tsx:192 | only the phone changes |
| PopupFlow.ExitIntentPopup.EditEmail | src/components/ExitIntentPopup.tsx:205 | only the e-mail changes |
| PopupFlow.ExitIntentPopup.HandleContactSubmit | src/components/ExitIntentPopup.tsx:71-79 | accepted exactly when neither field is the empty string: then done with no error; otherwise the error is set |
| PopupFlow.ShownOnce | src/components/ExitIntentPopup.tsx:18-42 | after the first exit gesture and a close, neither another gesture nor hiding the tab shows the popup again |
| PopupFlow.NoExitNoPopup | src/components/ExitIntentPopup.tsx:21-23 | leaving towards an element, moving inside the window, or a visible tab opens nothing |
| PopupFlow.BlankContactAccepted | src/components/ExitIntentPopup.tsx:71-79 | a phone and e-mail of spaces reach done in the popup, though the section would refuse them |

Every popup handler also ensures that the stage never moves backwards (`Rank`) and that
`exitTriggered`, once set, stays set.

## Left out

- The request to the registry, the reading of the response, and the JSON parsing. They are
  I/O; the handler receives their outcome as a `LookupOutcome`.
- LeadFlow.LookupOutcome: a non-ok body's `message` is modelled as a string or absent. A
  number, boolean or object there would be converted to text by the `Error` constructor.
  That is not modelled.
- LeadFlow.LookupOutcome: a successful body that is `null`, or a QSA entry that is null,
  makes the code throw. Such cases are covered only as the generic `Threw` outcome. QSA
  entries are modelled as objects. A string, number, boolean or array body reads
  `undefined` under every key; it is `Found(map[])`, whose record is all "-"
  (`EmptyPayload`).
- CnpjLib.SafeString: numbers are integers rendered with every digit, which is what
  JavaScript does for magnitudes up to Number.MAX_SAFE_INTEGER (2^53 - 1). Larger values
  are rounded: JSON parsing stores the nearest double, and `toString` prints the shortest
  digits that identify it (18446744073709551616 is shown as "18446744073709552000"). That
  rounding, fractional numbers, NaN, infinities and the exponent notation used from 1e21
  up are floating-point formatting and are not modelled.
- JsText.Trim: characters are Unicode scalar values, while JavaScript strings are UTF-16. All
  the whitespace `trim` removes lies in the Basic Multilingual Plane, so the two views agree
  on what is cut.
- PopupFlow.ExitIntentPopup.HandleMouseOut: `clientX`, `clientY` and `innerWidth` are
  integers, whereas the browser reports `clientX` and `clientY` as floating-point numbers.
- The time a lookup takes. Each lookup is one atomic step, so `isLoading` is true only inside
  it, and overlapping lookups are not modelled; the button is disabled while one is in
  flight. A popup closed during a lookup is likewise not modelled.
- Registering and removing the document listeners. The model assumes each handler sees the
  current `visible` and `exitTriggered`, as the effect's dependency list ensures.
- The success toast, `useInView`, the rendering itself, and `scrollToSection`. These are UI
  and browser calls.
- The header, hero, brands, categories, B2B, stats, about and footer sections, and the page
  that composes them. They hold no logic beyond markup and constant lists.
- The contact data is never sent anywhere by the code, so nothing about it is modelled past
  the `done` stage.
