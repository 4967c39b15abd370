# Kompassi ticket wizard and Tracon signup rules in Dafny

This project models three pieces of the Kompassi event-management platform.

1. **The ticket-purchase wizard** (`TicketPhases`, properties in `TicketPhaseProperties`).
   There are five phases: welcome, tickets, address, confirm and thanks. A closed variant
   replaces the welcome page when sales are shut.
   - One call of a phase view is the pure function `Step(phase, session, request, env)`.
     It returns the response, the new session, and the trace of collaborator calls
     (make form, validate, save, confirm, destroy, clear).
   - The session is three things: the order's confirmation flag, the set of completed
     phase names, and the `payment_status` flag.
   - The request is its HTTP method and its POST `action`, if one was sent.
   - Collaborators whose code is not part of the model are fields of `Env`. These are
     form validity, `multiform_validate`, the sub-forms' cleaned counts, the order's
     stored lines, `is_soldout`, `destroy_order` and `clear_order`.
   - The registry's indices are computed by enumerating the phase list, as the module
     does at import time.
2. **Tracon 11 signup forms** (`Tracon11Forms`):
   - the certificate-address cross-field check;
   - the afterparty coach-time choice filter;
   - the organizer form's `admin` precondition;
   - the organizer form's defaults for the fields it does not show.
3. **Tracon 2017 signup-extra model** (`Tracon2017Models`):
   - the shirt-size, shift-type and total-work choice lists, checked against the
     width and default of the fields that store them;
   - `get_query_class`;
   - the `formatted_lodging_needs` text.

`Wrappers` (Option/Result) and `Choices` (the `(id, text)` choice entry) are shared helpers.

### Behaviour the code has that a reader might not expect

The model follows the code in each of these cases.

- **Tickets validation short-circuits.** Sub-form errors are returned alone. If there are
  none, a zero total gives exactly `["zero"]` and the stock check is not consulted. The
  two markers never appear together. Each check in `TicketsPhase.validate`
  (`tickets/views/public_views.py:242-259`) returns as soon as it fails.
- **The payment callback on the confirm phase raises instead of advancing.** The callback
  GET confirms the order first. `ConfirmPhase.next` then reads the order again and finds
  it confirmed. That branch calls `super().next(request)` without `event`, which is a
  `TypeError`. The surrounding code points the other way: the thanks phase follows the
  confirm phase in `ALL_PHASES` (:388-394), and the comment at :322 expects the order
  read there to be confirmed. `ConfirmCallbackRaises` and `PurchaseWalkthrough` state
  what the code does instead.
- **The raised error keeps the payment flag.** The error ends the request with a server
  error, so the session changes made before it are not saved. The order was saved when
  it was confirmed, so the confirmation stays. The flag stays in the session, and the
  next GET of the thanks page consumes it by redirecting to the confirm view
  (`PaymentCallbackIdempotent`, `ReturnAfterCallback`).
  `BrokenNextOnlyFromCallback` shows that this callback is the only way to reach that branch.
- **Prev with valid data saves before going back.** Only invalid data is discarded on prev
  (`SaveIffValid`, `PrevAlwaysGoesBack`).
- **`can_cancel` is only a template flag.** A cancel POST on the thanks page still
  destroys the confirmed order (`ThanksCancelStillDestroys`).
- **`prev` on a phase without `prev_phase`** (welcome, thanks, closed) calls
  `redirect(None, slug)`. The framework cannot resolve that, so it is modelled as the
  error `NoPrevPhase`.
- **`LAST_PHASE` is the address phase, which a confirmed order cannot open.** A confirmed
  order that opens an unavailable phase is sent to the address phase. That phase is
  unavailable too, so it redirects to itself and the browser loops. The already-confirmed
  callback branch (:127) leads into the same loop through the confirm phase
  (`ConfirmedOrderAddressLoop`). So does a callback on the tickets phase, which redirects
  the now-confirmed order to the address phase.

## Model

| member | source | states |
|---|---|---|
| TicketPhases.Step | tickets/views/public_views.py:76-134 | A method other than GET/POST yields NotAllowed with no call made and the session untouched. An unavailable phase redirects to the address phase (confirmed order) or the welcome phase (unconfirmed) before any form is built. A save only ever follows a validation that returned no errors. A raised error leaves the session as it was, except for the order's confirmation, which was saved before the error. |
| TicketPhases.AssignIndices | tickets/views/public_views.py:396-397 | Enumerating a phase list indexes exactly the listed phases. Each index points back at its phase. In a duplicate-free list, every phase gets its own position. |
| TicketPhases.CountMap | tickets/views/public_views.py:254 | The map given to the stock check holds every requested product. Each value is a count requested for that product. A line that no later line overrides (the last request for its product) gives that product's value. |
| TicketPhases.PositiveLines | tickets/views/public_views.py:305 | The `count > 0` filter keeps exactly the order lines with a positive count. |
| TicketPhaseProperties.AllPhasesIndexed | tickets/views/public_views.py:370-397 | The registry phases get indices 0..4 in list order. The closed phase is not in the registry and keeps its own index 0. |
| TicketPhaseProperties.PhaseListAvailability | tickets/views/public_views.py:150-158 | The rendered list has one entry per registry phase, in order. An entry is available iff its index is below the current phase's and the order is unconfirmed. The available entries form a prefix. |
| TicketPhaseProperties.PhaseListCurrent | tickets/views/public_views.py:150-158 | A registry phase is marked current at its own index and nowhere else. The closed phase marks no entry current. |
| TicketPhaseProperties.ConfirmedOrderGate | tickets/views/public_views.py:343-345 | With a confirmed order, exactly the thanks and closed phases are available. |
| TicketPhaseProperties.UnconfirmedOrderGate | tickets/views/public_views.py:136-138 | With an unconfirmed order, a phase is available iff it is welcome, closed, or its predecessor is completed. Thanks is never available. |
| TicketPhaseProperties.CancelSkipsValidation | tickets/views/public_views.py:92-97 | A POST with action `cancel` or with no action destroys the order and redirects to the homepage. The only calls are building the form and destroying the order: nothing is validated or saved. |
| TicketPhaseProperties.ThanksCancelStillDestroys | tickets/views/public_views.py:338-341 | The thanks phase hides the cancel button, yet a cancel POST there still destroys the confirmed order. |
| TicketPhaseProperties.UnknownActionRaises | tickets/views/public_views.py:99-101 | An action other than next/prev/cancel raises the "evil user" error. It does so after the form is built and before anything is validated or saved, with the session unchanged. |
| TicketPhaseProperties.SaveIffValid | tickets/views/public_views.py:103-107 | On next and prev the phase validates. It saves iff validation returned no errors, and never destroys the order. |
| TicketPhaseProperties.NextWithErrorsRerenders | tickets/views/public_views.py:109-134 | Next with errors re-renders the same phase with exactly those errors. Nothing is saved and the session is unchanged. |
| TicketPhaseProperties.NextWithoutErrorsCompletes | tickets/views/public_views.py:109-112 | Next with no errors adds the phase's name to the completed set. It leaves the confirmation flag alone and does not render. |
| TicketPhaseProperties.ClosedNextLeaves | tickets/views/public_views.py:363-379 | A valid next on the closed phase saves (a no-op), marks the welcome name completed (the closed phase shares it) and redirects to the event homepage. |
| TicketPhaseProperties.ThanksNextStartsOver | tickets/views/public_views.py:356-360 | A valid next on the thanks phase marks it completed, then clears the order and redirects to the welcome phase. |
| TicketPhaseProperties.PrevAlwaysGoesBack | tickets/views/public_views.py:114-116 | Prev redirects to the previous phase whether or not the data validated, and never changes the session. Without a previous phase it is the `NoPrevPhase` error. |
| TicketPhaseProperties.PaymentCallback | tickets/views/public_views.py:119-127 | A GET that sees `payment_status == 2` on an unconfirmed order confirms it. It then continues as `next`. Welcome goes to tickets, tickets to address, address to confirm, and closed to the homepage. The session loses the flag and gains the phase's completion marker. On the confirm phase the step raises instead, and the flag is kept. An already-confirmed order is redirected to the confirm view; only the flag is removed. |
| TicketPhaseProperties.PlainGetRenders | tickets/views/public_views.py:128-134 | A GET without the flag never confirms and never changes the session. On an available phase it renders with no errors. |
| TicketPhaseProperties.PaymentCallbackIdempotent | tickets/views/public_views.py:119-131 | Repeating the callback GET on any phase never confirms the order again. After a callback that did not raise, an available phase renders with no errors. After the raise on the confirm phase, an available phase removes the surviving flag and redirects to the confirm view. |
| TicketPhaseProperties.ConfirmCallbackRaises | tickets/views/public_views.py:320-327 | The callback GET on the confirm phase confirms the order and then ends in the missing-argument error of `ConfirmPhase.next`. The confirmation is the only change that survives: the flag stays set and the phase is not completed. |
| TicketPhaseProperties.ConfirmedOrderAddressLoop | tickets/views/public_views.py:82-86 | For a confirmed order, the address phase redirects to its own name with the session unchanged. The confirm phase redirects to the address phase. The thanks-page callback redirects to the confirm phase. |
| TicketPhaseProperties.BrokenNextOnlyFromCallback | tickets/views/public_views.py:119-125 | The missing-argument error comes only from a callback GET on the confirm phase. |
| TicketPhaseProperties.ConfirmNextGoesToPayment | tickets/views/public_views.py:320-324 | A valid next on the confirm phase redirects to the payment endpoint and leaves the order unconfirmed. |
| TicketPhaseProperties.CompletionOnlyOnSuccess | tickets/views/public_views.py:104-125 | If the completed set changes (without destroy or clear), the step added exactly its own name. The phase was available, and the request was either a valid next or a payment callback on an unconfirmed order outside the confirm phase. |
| TicketPhaseProperties.StepKeepsChainClosed | tickets/views/public_views.py:82-138 | If every completed phase has its predecessor completed, that still holds after any step that neither destroys nor clears the order. Phases cannot be skipped. |
| TicketPhaseProperties.TicketsValidationChain | tickets/views/public_views.py:242-259 | Sub-form errors are returned unchanged. Otherwise a total at most 0 gives exactly `["zero"]`. Otherwise a sold-out stock check gives exactly `["soldout"]`, else `[]`. The result is empty iff all three checks pass, and "zero" and "soldout" never co-occur. |
| TicketPhaseProperties.ZeroTotalMeansNothingChosen | tickets/views/public_views.py:249 | With non-negative counts, the total is at most 0 iff every count is 0. |
| TicketPhaseProperties.NothingChosenIsZero | tickets/views/public_views.py:249-252 | Valid sub-forms that all request 0 are rejected with exactly `["zero"]`. |
| TicketPhaseProperties.SoldoutMapOnePerProduct | tickets/views/public_views.py:230-254 | With one sub-form per product, the stock check's map has exactly one entry per sub-form, each holding that sub-form's count. |
| TicketPhaseProperties.ConfirmValidationDropsFormErrors | tickets/views/public_views.py:302-309 | Confirm validation fails iff the order's positive lines are sold out. It then reports the sub-form errors followed by `soldout_confirm`. Otherwise it drops the sub-form errors. |
| TicketPhaseProperties.ConfirmChecksPositiveLines | tickets/views/public_views.py:305-306 | The confirm phase's stock check sees exactly the products of order lines with a positive count, each with a positive count. |
| TicketPhaseProperties.ValidNextMovesOn | tickets/views/public_views.py:103-112 | A valid next on welcome, tickets or address builds, validates and saves the form. It marks the phase completed and redirects to the following phase, with nothing else changed. |
| TicketPhaseProperties.WalkToConfirm | tickets/views/public_views.py:201-290 | From a fresh session, valid next steps go welcome → tickets → address → confirm, completing each phase on the way. |
| TicketPhaseProperties.PayOnConfirm | tickets/views/public_views.py:320-327 | Next on the confirm phase goes to payment and completes the phase. The callback then confirms the order and raises, and the session keeps the flag. |
| TicketPhaseProperties.ReturnAfterCallback | tickets/views/public_views.py:119-134 | A confirmed order still carrying the flag is redirected from the thanks page to the confirm view, which removes the flag. The next visit renders all order lines, and a valid next clears the order and redirects to welcome. |
| TicketPhaseProperties.PurchaseWalkthrough | tickets/views/public_views.py:201-360 | From a fresh session, valid next steps go welcome → tickets → address → confirm. Next on confirm goes to payment. The payment callback confirms the order and then raises. The thanks page first consumes the leftover flag, then renders all order lines, and its next clears the order and redirects to welcome. |
| Tracon11Forms.CleanCertificateDeliveryAddress | events/tracon11/forms.py:77-87 | Raises the validation error iff a certificate is wanted and the address is empty. Otherwise it returns the address unchanged. |
| Tracon11Forms.NewOrganizerSignupForm | events/tracon11/forms.py:91-95 | The organizer form can be built iff `admin` is false. It shows the single field `job_title`. |
| Tracon11Forms.OrganizerDefaultsPassCertificateCheck | events/tracon11/forms.py:152-161 | The organizer form's excluded defaults (no certificate, empty address) pass the certificate check. |
| Tracon11Forms.RemoveChoice | events/tracon11/forms.py:253-257 | The filtered list holds exactly the choices whose id differs from the removed one. It is no longer than the original, and is unchanged when no choice has that id. |
| Tracon11Forms.OfferedChoices | events/tracon11/forms.py:252-257 | A choice is offered iff it was listed and is not the popular slot, unless the person already holds that slot. |
| Tracon11Forms.AfterpartySurveyChoices | events/tracon11/forms.py:251-264 | The outward list loses `16:00` unless the person's outward coach is `16:00`. The return list loses `01:00` unless their return coach is `01:00`. No other choice is dropped or added. |
| Tracon11Forms.RemoveChoiceAppend | events/tracon11/forms.py:253-257 | Filtering a concatenation is concatenating the filtered parts. |
| Tracon11Forms.RemoveChoiceIdempotent | events/tracon11/forms.py:253-257 | Filtering twice gives the same list as filtering once. |
| Tracon11Forms.RemoveChoicePosition | events/tracon11/forms.py:253-257 | A surviving choice sits in the filtered list right after the survivors that came before it. |
| Tracon11Forms.RemoveChoiceKeepsOrder | events/tracon11/forms.py:253-256 | Of two survivors, the earlier one in the original list comes earlier in the filtered list. |
| Tracon11Forms.SurveyFieldsIndependent | events/tracon11/forms.py:252-264 | Each coach list depends only on its own field's choices and the person's pick for that field. |
| Tracon11Forms.HolderSeesAllChoices | events/tracon11/forms.py:251-264 | A person holding both popular slots sees both lists unchanged. |
| Tracon2017Models.SignupExtraFieldsWellFormed | events/tracon2017/models.py:9-80 | Every shift-type and total-work key fits `max_length=15`. Every shirt-size key fits `max_length=8`. Keys are distinct, and the default `NO_SHIRT` is a shirt-size key. |
| Tracon2017Models.GetQueryClass | events/tracon2017/models.py:152-154 | `get_query_class` always raises NotImplementedError. |
| Tracon2017Models.FormattedLodgingNeeds | events/tracon2017/models.py:156-165 | An empty night list gives the empty text. |
| Tracon2017Models.SplitJoinRoundTrip | events/tracon2017/models.py:158 | Splitting newline-joined lines on newlines gives back the lines, when none of them holds a newline. |
| Tracon2017Models.LodgingLineShape | events/tracon2017/models.py:158-164 | A night's line is its name, then `: `, then a need text. The text is `Tarvitsee lattiamajoitusta` iff the night is among the person's lodging needs, and `Ei tarvetta lattiamajoitukselle` otherwise. |
| Tracon2017Models.LodgingNeedsOneLinePerNight | events/tracon2017/models.py:157-165 | For nights whose names hold no newline, the text splits into exactly one line per night, in night order, each being that night's line. |
| Tracon2017Models.JoinLinesNoTrailingNewline | events/tracon2017/models.py:158 | Joining lines whose last line does not end in a newline gives text that does not end in a newline. |
| Tracon2017Models.LodgingNeedsNoTrailingNewline | events/tracon2017/models.py:157-165 | For at least one night, the text does not end in a newline. |

## Left out

- TicketPhases.Step: the session after `destroy_order` or `clear_order` is whatever `Env.destroy` / `Env.clear` return. Their code is not part of this model, so nothing is claimed about it.
- TicketPhases.Step: `save` is one abstract `Save(phase)` call. What each phase persists is not modelled: the welcome phase stores the order in the session, the tickets phase saves the sub-forms, the address phase saves the customer and the order, and the confirm, thanks and closed phases do nothing.
- TicketPhases.Step: the tickets phase's `make_form` creates an order line per available product. It is recorded only as the `MakeForm` call; the rows are not modelled.
- TicketPhases.Step: only the ticket/phase decision logic is modelled. The response is an abstract outcome, not Django's rendering, URL reversal or HTTP classes. The template name, friendly names, button texts and Finnish user messages (`add_message`) are dropped.
- TicketPhases.Step: a raised error is modelled as discarding the session changes made during the request, since the framework does not save the session for a server error. The order's confirmation survives because `confirm_order` saved it. Completion markers are assumed to live in the session, because the code of `complete_phase` is not part of this model.
- TicketPhases.Step: the slug-less `redirect(name)` calls (:84, :86, :127, :360) are assumed to resolve like the calls that pass the slug (:188, :191). Only `redirect(None, slug)` is modelled as failing.
- TicketPhases.Step: `payment_status` is modelled as an optional integer; Python compares any session value with `== 2`.
- `decorate` / `tickets_event_required` (resolving the event before the view runs): their code is not part of this model.
- `get_order`, `set_order`, `is_phase_completed`, `complete_phase`: modelled as reading and updating the session fields above, not as their unseen implementations.
- `Tracon11Forms.AfterpartySurveyChoices`: the person's current coach times are plain strings. The nullability of the model fields is not part of this model.
- The crispy-forms layouts, widgets, help texts, verbose names, many-to-many wiring and the `validate_slug` validator: UI and ORM metadata with no logic to state.
- `get_instance_for_event_and_person` in the survey forms (ORM lookups with a date filter) and `get_form_class` / `get_programme_form_class` (class lookups).
- `Tracon2017Models.FormattedLodgingNeeds`: the nights are given in the order `Night.objects.all()` returns them. That ordering is not part of this model.
- enrollment/models/enrollment_event_meta.py: `is_enrollment_open` delegates to an unseen date helper, and `form_class` is a dynamic import. Neither has logic of its own to state.
