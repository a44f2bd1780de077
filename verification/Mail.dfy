/** The "email this response" dialog, whose handlers are identical in the newest and the premium
    screen: opening it on a message, editing the address, and the two phases of a submit. */
module Mail {
  import opened Wrappers
  import opened JsText
  import opened EmailAddress

  /** `isEmailModalOpen`, `selectedMessage`, `email`, `isEmailValid`, `emailSending`. */
  datatype Draft = Draft(modalOpen: bool, selected: Option<string>, address: string,
                         addressValid: bool, sending: bool)

  const Initial := Draft(false, None, "", true, false)

  /** The body posted to the mail relay. */
  datatype MailRequest = MailRequest(message: string, email: string)

  /** The result of the first phase of a submit. */
  datatype Submitted = Submitted(draft: Draft, request: Option<MailRequest>)

  /** The stored flag agrees with the address it was computed from. */
  predicate Consistent(d: Draft) {
    d.addressValid == FieldValid(d.address)
  }

  /** What the screens as written keep: the flag agrees with the address, except that a
      delivery may leave an emptied field with a stale flag. */
  predicate Sound(d: Draft) {
    Consistent(d) || d.address == ""
  }

  /** The "Email" button under a message: remembers its text and shows the dialog. */
  function Open(d: Draft, text: Option<string>): (r: Draft)
    ensures r.modalOpen && r.selected == text
    ensures r.address == d.address && r.addressValid == d.addressValid && r.sending == d.sending
  {
    d.(modalOpen := true, selected := text)
  }

  /** Cancel, the close button or a click on the backdrop: hides the dialog and keeps the draft. */
  function Close(d: Draft): (r: Draft)
    ensures !r.modalOpen
    ensures r.selected == d.selected && r.address == d.address
    ensures r.addressValid == d.addressValid && r.sending == d.sending
  {
    d.(modalOpen := false)
  }

  /** Every keystroke in the address field stores the text and re-evaluates the flag. */
  function ChangeAddress(d: Draft, v: string): (r: Draft)
    ensures r.address == v && Consistent(r)
    ensures r.addressValid <==> v == "" || MatchesPattern(v)
    ensures r.modalOpen == d.modalOpen && r.selected == d.selected && r.sending == d.sending
  {
    FieldValidIff(v);
    d.(address := v, addressValid := FieldValid(v))
  }

  /** `!isEmailValid || !email || !selectedMessage` is false. */
  predicate MaySubmit(d: Draft) {
    d.addressValid && d.address != "" && Truthy(d.selected)
  }

  /** Submit, first phase: either nothing happens, or `emailSending` is raised and the selected
      text is posted to the typed address. */
  function BeginSubmit(d: Draft): (r: Submitted)
    ensures r.request.Some? <==> MaySubmit(d)
    ensures !MaySubmit(d) ==> r.draft == d
    ensures MaySubmit(d) ==> r.request.value == MailRequest(d.selected.value, d.address)
    ensures MaySubmit(d) ==> r.draft == d.(sending := true)
  {
    if !MaySubmit(d) then Submitted(d, None)
    else Submitted(d.(sending := true), Some(MailRequest(d.selected.value, d.address)))
  }

  /** Submit, second phase, as the screens write it: on delivery the dialog closes and the address
      and selection are cleared, but the validity flag keeps whatever value it had; on failure the
      draft stays as it is. Either way `emailSending` drops. */
  function CompleteSubmitAsWritten(d: Draft, delivered: bool): (r: Draft)
    ensures !r.sending && r.addressValid == d.addressValid
    ensures delivered ==> !r.modalOpen && r.address == "" && r.selected == None
    ensures !delivered ==> r == d.(sending := false)
  {
    if delivered then d.(modalOpen := false, address := "", selected := None, sending := false)
    else d.(sending := false)
  }

  /** The address field stays editable while a delivery is in flight. If the user turns the
      address into an invalid one in that window and the delivery then succeeds, the field is
      emptied but still flagged invalid, so the dialog reopens showing its error under an empty
      field. */
  lemma StaleFlagAfterDelivery()
    ensures var d0 := ChangeAddress(Open(Initial, Some("Hi")), "a@b.co");
            var d1 := BeginSubmit(d0);
            var d2 := ChangeAddress(d1.draft, "x");
            var d3 := CompleteSubmitAsWritten(d2, true);
            && d1.request == Some(MailRequest("Hi", "a@b.co"))
            && d3.address == "" && !d3.addressValid && !Consistent(d3)
  {
    ExamplesValid();
    NoAtIsInvalid("x");
  }

  /** Submit, second phase, with the flag reset together with the address it describes: on
      delivery the dialog closes and the draft is cleared; on failure the draft stays as it is.
      Either way `emailSending` drops. */
  function CompleteSubmit(d: Draft, delivered: bool): (r: Draft)
    ensures !r.sending
    ensures delivered ==> r == Initial
    ensures !delivered ==> r == d.(sending := false)
    ensures Consistent(d) ==> Consistent(r)
  {
    if delivered then d.(modalOpen := false, address := "", addressValid := true, selected := None, sending := false)
    else d.(sending := false)
  }

  /** For any draft the handlers can reach, a submit goes out exactly when the address has the
      form user@host.tld and a non-empty message is selected. */
  lemma SubmitGuardIff(d: Draft)
    requires Sound(d)
    ensures MaySubmit(d) <==> MatchesPattern(d.address) && Truthy(d.selected)
  {
    FieldValidIff(d.address);
    if d.address == "" {
      ExamplesValid();
      ShapeIffPattern(d.address);
    }
  }

  /** The handlers as the screens write them, in any order and whatever the relay answers, keep
      the flag in agreement with the address everywhere except on an emptied field. */
  lemma AsWrittenHandlersKeepSound(d: Draft, text: Option<string>, v: string, delivered: bool)
    requires Sound(d)
    ensures Sound(Open(d, text)) && Sound(Close(d)) && Sound(ChangeAddress(d, v))
    ensures Sound(BeginSubmit(d).draft) && Sound(CompleteSubmitAsWritten(d, delivered))
  {
  }

  /** With the corrected completion, every dialog handler, in any order and whatever the relay
      answers, keeps the flag in agreement with the address; in particular an empty field is never
      flagged invalid. */
  lemma HandlersKeepConsistent(d: Draft, text: Option<string>, v: string, delivered: bool)
    requires Consistent(d)
    ensures Consistent(Open(d, text)) && Consistent(Close(d)) && Consistent(ChangeAddress(d, v))
    ensures Consistent(BeginSubmit(d).draft) && Consistent(CompleteSubmit(d, delivered))
    ensures d.address == "" ==> d.addressValid
  {
  }

  /** A failed delivery leaves everything needed for a manual retry: submitting again posts the
      very same request. */
  lemma FailedSubmitRetriesSameRequest(d: Draft)
    requires MaySubmit(d)
    ensures BeginSubmit(CompleteSubmitAsWritten(BeginSubmit(d).draft, false)).request
         == BeginSubmit(d).request
  {
  }
}
