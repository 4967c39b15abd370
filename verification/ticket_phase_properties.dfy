/**
 * Properties of the ticket-purchase wizard: the registry indices and the
 * rendered phase list, the availability gate, the POST actions, the payment
 * callback, the validation chains and the completion markers.
 */
module TicketPhaseProperties {
  import opened Wrappers
  import opened TicketPhases

  // ---------------------------------------------------------------------
  // Registry and phase list
  // ---------------------------------------------------------------------

  /** Enumerating the registry gives the phases the indices 0..4 in list order; the closed phase keeps 0. */
  lemma AllPhasesIndexed()
    ensures forall i :: 0 <= i < |AllPhases| ==> Index(AllPhases[i]) == i
    ensures Index(Closed) == 0
    ensures Closed !in AllPhases
  {
    AllPhasesDistinct();
    var m := AssignIndices(AllPhases);
    forall i | 0 <= i < |AllPhases| ensures Index(AllPhases[i]) == i {
      assert AllPhases[i] in m && m[AllPhases[i]] == i;
    }
    assert Closed !in AllPhases;
  }

  /** No phase is listed twice in the registry. */
  lemma AllPhasesDistinct()
    ensures Distinct(AllPhases)
  {
    forall i, j | 0 <= i < j < |AllPhases| ensures AllPhases[i] != AllPhases[j] {
      assert AllPhases[i].Welcome? ==> i == 0;
      assert AllPhases[i].Tickets? ==> i == 1;
      assert AllPhases[i].Address? ==> i == 2;
      assert AllPhases[i].Confirm? ==> i == 3;
    }
  }

  /** The rendered list: one entry per registry phase, available exactly before the current one. */
  lemma PhaseListAvailability(p: Phase, confirmed: bool)
    ensures |PhaseList(p, confirmed)| == |AllPhases|
    ensures forall i :: 0 <= i < |AllPhases| ==> PhaseList(p, confirmed)[i].name == Name(AllPhases[i])
    ensures forall i :: 0 <= i < |AllPhases| ==>
      (PhaseList(p, confirmed)[i].available <==> i < Index(p) && !confirmed)
    ensures forall i, j :: 0 <= i <= j < |AllPhases| && PhaseList(p, confirmed)[j].available ==>
      PhaseList(p, confirmed)[i].available
    ensures confirmed ==> forall i :: 0 <= i < |AllPhases| ==> !PhaseList(p, confirmed)[i].available
  {
    AllPhasesIndexed();
  }

  /** A registry phase is marked current at exactly its own index; the closed phase marks none. */
  lemma PhaseListCurrent(p: Phase, confirmed: bool)
    ensures p in AllPhases ==> PhaseList(p, confirmed)[Index(p)].current
    ensures forall i :: 0 <= i < |AllPhases| && PhaseList(p, confirmed)[i].current ==> i == Index(p) && p in AllPhases
    ensures p == Closed ==> forall i :: 0 <= i < |AllPhases| ==> !PhaseList(p, confirmed)[i].current
  {
    AllPhasesIndexed();
  }

  // ---------------------------------------------------------------------
  // Availability gate
  // ---------------------------------------------------------------------

  /** A confirmed order can reach only the thanks and closed phases. */
  lemma ConfirmedOrderGate(p: Phase, s: Session)
    requires s.confirmed
    ensures Available(p, s) <==> p == Thanks || p == Closed
  {
  }

  /** An unconfirmed order reaches welcome, closed, and any phase whose predecessor is completed. */
  lemma UnconfirmedOrderGate(p: Phase, s: Session)
    requires !s.confirmed
    ensures Available(p, s) <==>
      p == Welcome || p == Closed || (PrevPhase(p).Some? && PrevPhase(p).value in s.completed)
    ensures p == Thanks ==> !Available(p, s)
  {
  }

  // ---------------------------------------------------------------------
  // POST actions
  // ---------------------------------------------------------------------

  predicate IsPost(r: Request, action: string)
  {
    r.verb == "POST" && r.action == Some(action)
  }

  /** Cancel (or a POST without an action) destroys the order without validating or saving anything. */
  lemma CancelSkipsValidation(p: Phase, s: Session, r: Request, env: Env)
    requires Available(p, s)
    requires r.verb == "POST" && (r.action == None || r.action == Some("cancel"))
    ensures Step(p, s, r, env).outcome == RedirectHomepage
    ensures Step(p, s, r, env).session == env.destroy(s)
    ensures Step(p, s, r, env).calls == [MakeForm(p), DestroyOrder]
  {
  }

  /** `can_cancel` only hides the button: a cancel POST on the thanks page still destroys the confirmed order. */
  lemma ThanksCancelStillDestroys(s: Session, env: Env)
    requires s.confirmed
    ensures !CanCancel(Thanks)
    ensures DestroyOrder in Step(Thanks, s, Request("POST", Some("cancel")), env).calls
  {
    CancelSkipsValidation(Thanks, s, Request("POST", Some("cancel")), env);
  }

  /** Any action other than next, prev or cancel raises before validation or save. */
  lemma UnknownActionRaises(p: Phase, s: Session, a: string, env: Env)
    requires Available(p, s)
    requires a != "next" && a != "prev" && a != "cancel"
    ensures Step(p, s, Request("POST", Some(a)), env) == StepResult(Raise(EvilUser), s, [MakeForm(p)])
  {
  }

  /** On next and prev the phase validates, and saves exactly when validation found no errors. */
  lemma SaveIffValid(p: Phase, s: Session, r: Request, env: Env)
    requires Available(p, s)
    requires IsPost(r, "next") || IsPost(r, "prev")
    ensures Validate(p) in Step(p, s, r, env).calls
    ensures Save(p) in Step(p, s, r, env).calls <==> ValidatePhase(p, env) == []
    ensures DestroyOrder !in Step(p, s, r, env).calls
  {
  }

  /** Next with errors re-renders the same phase with exactly those errors and changes nothing. */
  lemma NextWithErrorsRerenders(p: Phase, s: Session, env: Env)
    requires Available(p, s)
    requires ValidatePhase(p, env) != []
    ensures var res := Step(p, s, Request("POST", Some("next")), env);
      && res.outcome.Render?
      && res.outcome.view.errors == ValidatePhase(p, env)
      && res.outcome.view.phase.name == Name(p)
      && res.session == s
      && Save(p) !in res.calls
  {
  }

  /** Next without errors marks the phase completed (the thanks phase then clears the order instead). */
  lemma NextWithoutErrorsCompletes(p: Phase, s: Session, env: Env)
    requires Available(p, s) && p != Thanks
    requires ValidatePhase(p, env) == []
    ensures var res := Step(p, s, Request("POST", Some("next")), env);
      && res.session.completed == s.completed + {Name(p)}
      && res.session.confirmed == s.confirmed
      && !res.outcome.Render?
  {
  }

  /** The closed phase's next leaves for the homepage, after marking the welcome name (which it shares) completed. */
  lemma ClosedNextLeaves(s: Session, env: Env)
    requires env.formValid
    ensures var res := Step(Closed, s, Request("POST", Some("next")), env);
      && res.outcome == RedirectHomepage
      && res.session.completed == s.completed + {WelcomeName}
      && Save(Closed) in res.calls
  {
  }

  /** The thanks phase's next clears the confirmed order and starts over at the welcome phase. */
  lemma ThanksNextStartsOver(s: Session, env: Env)
    requires s.confirmed && env.formValid
    ensures var res := Step(Thanks, s, Request("POST", Some("next")), env);
      && res.outcome == RedirectPhase(WelcomeName)
      && res.session == env.clear(s.(completed := s.completed + {ThanksName}))
      && res.calls == [MakeForm(Thanks), Validate(Thanks), Save(Thanks), ClearOrder]
  {
  }

  /** Prev goes back whether or not the data validates, and never changes the session. */
  lemma PrevAlwaysGoesBack(p: Phase, s: Session, env: Env)
    requires Available(p, s)
    ensures var res := Step(p, s, Request("POST", Some("prev")), env);
      && res.session == s
      && (PrevPhase(p).Some? ==> res.outcome == RedirectPhase(PrevPhase(p).value))
      && (PrevPhase(p).None? ==> res.outcome == Raise(NoPrevPhase))
  {
  }

  // ---------------------------------------------------------------------
  // Payment callback
  // ---------------------------------------------------------------------

  /**
   * The payment callback confirms an unconfirmed order, completes the phase and
   * moves on as `next` would; an already-confirmed order goes to the confirm view.
   * The flag is consumed unless the step ends in an error, whose session writes are lost.
   */
  lemma PaymentCallback(p: Phase, s: Session, env: Env)
    requires Available(p, s)
    requires s.paymentStatus == Some(PaymentDone)
    ensures var res := Step(p, s, Request("GET", None), env);
      && (res.outcome.Raise? <==> p == Confirm)
      && (!res.outcome.Raise? ==> res.session.paymentStatus == None)
      && (!s.confirmed ==> res.session.confirmed && ConfirmOrder in res.calls)
      && (!s.confirmed && p != Confirm ==>
            && res.session == s.(paymentStatus := None, confirmed := true, completed := s.completed + {Name(p)})
            && res.calls == [MakeForm(p), ConfirmOrder])
      && (p == Welcome ==> res.outcome == RedirectPhase(TicketsName))
      && (p == Tickets ==> res.outcome == RedirectPhase(AddressName))
      && (p == Address ==> res.outcome == RedirectPhase(ConfirmName))
      && (p == Confirm ==> res.outcome == Raise(NextMissingArgument))
      && (p == Closed && !s.confirmed ==> res.outcome == RedirectHomepage)
      && (s.confirmed ==> res.outcome == RedirectPhase(ConfirmName) && res.session == s.(paymentStatus := None))
  {
  }

  /** A GET without the payment flag never confirms: it renders with no errors, or redirects if unavailable. */
  lemma PlainGetRenders(p: Phase, s: Session, env: Env)
    requires s.paymentStatus != Some(PaymentDone)
    ensures var res := Step(p, s, Request("GET", None), env);
      && ConfirmOrder !in res.calls
      && res.session == s
      && (Available(p, s) ==> res.outcome.Render? && res.outcome.view.errors == [])
  {
  }

  /**
   * Replaying the callback GET, on any phase, never confirms the order again. After a
   * step that did not raise, the flag is gone and an available phase simply renders;
   * after the raise on the confirm phase the flag survives, and an available phase
   * consumes it by redirecting to the confirm view.
   */
  lemma PaymentCallbackIdempotent(p: Phase, q: Phase, s: Session, env: Env)
    requires Available(p, s)
    requires s.paymentStatus == Some(PaymentDone)
    ensures var first := Step(p, s, Request("GET", None), env);
      var again := Step(q, first.session, Request("GET", None), env);
      && ConfirmOrder !in again.calls
      && (!first.outcome.Raise? && Available(q, first.session) ==>
            again.outcome.Render? && again.outcome.view.errors == [])
      && (first.outcome.Raise? && Available(q, first.session) ==>
            again.outcome == RedirectPhase(ConfirmName) && again.session.paymentStatus == None)
  {
    var first := Step(p, s, Request("GET", None), env);
    PaymentCallback(p, s, env);
    if !first.outcome.Raise? {
      PlainGetRenders(q, first.session, env);
    }
  }

  /**
   * The callback GET on the confirm phase confirms the order, then
   * `ConfirmPhase.next` sees the confirmed order and takes its broken branch.
   * Only the order's confirmation survives: the flag stays and the phase is not completed.
   */
  lemma ConfirmCallbackRaises(s: Session, env: Env)
    requires Available(Confirm, s)
    requires s.paymentStatus == Some(PaymentDone)
    ensures var res := Step(Confirm, s, Request("GET", None), env);
      && res.outcome == Raise(NextMissingArgument)
      && res.session == s.(confirmed := true)
      && res.session.paymentStatus == Some(PaymentDone)
      && ConfirmOrder in res.calls
  {
  }

  /** The broken branch of `ConfirmPhase.next` is reached only through the payment callback. */
  lemma BrokenNextOnlyFromCallback(p: Phase, s: Session, r: Request, env: Env)
    requires Step(p, s, r, env).outcome == Raise(NextMissingArgument)
    ensures p == Confirm && r.verb == "GET" && s.paymentStatus == Some(PaymentDone)
  {
  }

  /** Confirming is left to the payment callback: next on the confirm phase sends the buyer to pay. */
  lemma ConfirmNextGoesToPayment(s: Session, env: Env)
    requires Available(Confirm, s)
    requires ValidateConfirm(env) == []
    ensures var res := Step(Confirm, s, Request("POST", Some("next")), env);
      && res.outcome == RedirectExternal(PaymentUrl)
      && res.session == s.(completed := s.completed + {ConfirmName})
      && !res.session.confirmed
  {
  }

  /**
   * A confirmed order is sent to `LAST_PHASE`, the address phase, which is itself
   * unavailable to it: the address phase redirects to its own name. The callback's
   * redirect for an already-confirmed order leads into the same loop.
   */
  lemma ConfirmedOrderAddressLoop(s: Session, r: Request, env: Env)
    requires s.confirmed && r.verb in Methods
    ensures Step(Address, s, r, env) == StepResult(RedirectPhase(Name(Address)), s, [])
    ensures Step(Confirm, s, r, env).outcome == RedirectPhase(Name(Address))
    ensures s.paymentStatus == Some(PaymentDone) && r.verb == "GET" ==>
      Step(Thanks, s, r, env).outcome == RedirectPhase(Name(Confirm))
  {
  }

  // ---------------------------------------------------------------------
  // Completion markers
  // ---------------------------------------------------------------------

  /** Every completed phase with a predecessor has its predecessor completed too. */
  predicate ChainClosed(completed: set<string>)
  {
    forall q: Phase :: Name(q) in completed && PrevPhase(q).Some? ==> PrevPhase(q).value in completed
  }

  /** A step adds at most its own phase name, and only on a successful next or a payment callback. */
  lemma CompletionOnlyOnSuccess(p: Phase, s: Session, r: Request, env: Env)
    requires DestroyOrder !in Step(p, s, r, env).calls && ClearOrder !in Step(p, s, r, env).calls
    requires Step(p, s, r, env).session.completed != s.completed
    ensures Step(p, s, r, env).session.completed == s.completed + {Name(p)}
    ensures Available(p, s)
    ensures (IsPost(r, "next") && ValidatePhase(p, env) == [])
         || (r.verb == "GET" && s.paymentStatus == Some(PaymentDone) && !s.confirmed && p != Confirm)
  {
  }

  /** No step (short of destroying or clearing the order) lets a phase be completed before its predecessor. */
  lemma StepKeepsChainClosed(p: Phase, s: Session, r: Request, env: Env)
    requires ChainClosed(s.completed)
    requires DestroyOrder !in Step(p, s, r, env).calls && ClearOrder !in Step(p, s, r, env).calls
    ensures ChainClosed(Step(p, s, r, env).session.completed)
  {
    var res := Step(p, s, r, env);
    if res.session.completed != s.completed {
      CompletionOnlyOnSuccess(p, s, r, env);
      forall q: Phase | Name(q) in res.session.completed && PrevPhase(q).Some?
        ensures PrevPhase(q).value in res.session.completed
      {
        if Name(q) == Name(p) {
          assert q == p || (q == Welcome && p == Closed) || (q == Closed && p == Welcome);
        }
      }
    }
  }

  // ---------------------------------------------------------------------
  // Validation
  // ---------------------------------------------------------------------

  /** The tickets checks short-circuit: sub-form errors, else exactly "zero", else exactly "soldout", else none. */
  lemma TicketsValidationChain(env: Env)
    ensures env.multiformErrors != [] ==> ValidateTickets(env) == env.multiformErrors
    ensures env.multiformErrors == [] ==>
      (ValidateTickets(env) == ["zero"] <==> Sum(env.ticketLines) <= 0)
    ensures env.multiformErrors == [] ==>
      (ValidateTickets(env) == ["soldout"] <==> Sum(env.ticketLines) > 0 && env.isSoldout(CountMap(env.ticketLines)))
    ensures ValidateTickets(env) == [] <==>
      env.multiformErrors == [] && Sum(env.ticketLines) > 0 && !env.isSoldout(CountMap(env.ticketLines))
    ensures env.multiformErrors == [] ==> !("zero" in ValidateTickets(env) && "soldout" in ValidateTickets(env))
  {
  }

  /** With non-negative counts, the total is at most zero exactly when every count is zero. */
  lemma {:induction false} ZeroTotalMeansNothingChosen(lines: seq<Line>)
    requires forall i :: 0 <= i < |lines| ==> lines[i].count >= 0
    ensures Sum(lines) >= 0
    ensures Sum(lines) <= 0 <==> forall i :: 0 <= i < |lines| ==> lines[i].count == 0
  {
    if lines != [] {
      var init := lines[..|lines| - 1];
      assert forall i :: 0 <= i < |init| ==> init[i] == lines[i];
      ZeroTotalMeansNothingChosen(init);
    }
  }

  /** Choosing nothing in any sub-form is rejected with exactly "zero"; the stock check is not consulted. */
  lemma NothingChosenIsZero(env: Env)
    requires env.multiformErrors == []
    requires forall i :: 0 <= i < |env.ticketLines| ==> env.ticketLines[i].count == 0
    ensures ValidateTickets(env) == ["zero"]
  {
    ZeroTotalMeansNothingChosen(env.ticketLines);
  }

  /**
   * With one sub-form per product, the stock check receives one entry per sub-form,
   * each holding exactly that sub-form's count.
   */
  lemma {:induction false} SoldoutMapOnePerProduct(lines: seq<Line>)
    requires forall i, j :: 0 <= i < j < |lines| ==> lines[i].product != lines[j].product
    ensures |CountMap(lines)| == |lines|
    ensures forall i :: 0 <= i < |lines| ==> CountMap(lines)[lines[i].product] == lines[i].count
  {
    if lines != [] {
      var init := lines[..|lines| - 1];
      var last := lines[|lines| - 1];
      assert forall i :: 0 <= i < |init| ==> init[i] == lines[i];
      SoldoutMapOnePerProduct(init);
      assert last.product !in CountMap(init);
    }
  }

  /** Confirm validation: sub-form errors are reported only alongside a sold-out order. */
  lemma ConfirmValidationDropsFormErrors(env: Env)
    ensures ValidateConfirm(env) != [] <==> env.isSoldout(CountMap(PositiveLines(env.orderLines)))
    ensures ValidateConfirm(env) != [] ==>
      ValidateConfirm(env)[..|env.multiformErrors|] == env.multiformErrors
      && ValidateConfirm(env)[|ValidateConfirm(env)| - 1] == "soldout_confirm"
  {
  }

  /** The confirm-phase stock check sees exactly the products of order lines with a positive count. */
  lemma ConfirmChecksPositiveLines(lines: seq<Line>, p: ProductId)
    ensures p in CountMap(PositiveLines(lines)) <==> exists l :: l in lines && l.count > 0 && l.product == p
    ensures p in CountMap(PositiveLines(lines)) ==> CountMap(PositiveLines(lines))[p] > 0
  {
    var pos := PositiveLines(lines);
    if p in CountMap(pos) {
      var i :| 0 <= i < |pos| && pos[i].product == p && CountMap(pos)[p] == pos[i].count;
      assert pos[i] in pos;
    }
    if l :| l in lines && l.count > 0 && l.product == p {
      assert l in pos;
      var i :| 0 <= i < |pos| && pos[i] == l;
    }
  }

  // ---------------------------------------------------------------------
  // A whole purchase
  // ---------------------------------------------------------------------

  /** The phases a buyer has completed when the payment callback arrives. */
  const PaidPhases := {WelcomeName, TicketsName, AddressName, ConfirmName}

  /** A valid next on welcome, tickets or address completes the phase and redirects to the following one. */
  lemma ValidNextMovesOn(p: Phase, s: Session, env: Env)
    requires p == Welcome || p == Tickets || p == Address
    requires Available(p, s) && ValidatePhase(p, env) == []
    ensures Step(p, s, Request("POST", Some("next")), env)
         == StepResult(RedirectPhase(NextPhase(p).value), s.(completed := s.completed + {Name(p)}),
                       [MakeForm(p), Validate(p), Save(p)])
  {
  }

  /** From a fresh session, valid next steps on welcome, tickets and address reach the confirm phase. */
  lemma WalkToConfirm(env: Env)
    requires env.formValid && env.multiformErrors == []
    requires env.ticketLines == [Line(1, 1)]
    requires !env.isSoldout(map[1 := 1])
    ensures var next := Request("POST", Some("next"));
      var w := Step(Welcome, Session(false, {}, None), next, env);
      var t := Step(Tickets, w.session, next, env);
      var a := Step(Address, t.session, next, env);
      && w.outcome == RedirectPhase(TicketsName)
      && t.outcome == RedirectPhase(AddressName)
      && a.outcome == RedirectPhase(ConfirmName)
      && a.session == Session(false, {WelcomeName, TicketsName, AddressName}, None)
  {
    assert CountMap([Line(1, 1)]) == map[1 := 1];
    var s0 := Session(false, {}, None);
    ValidNextMovesOn(Welcome, s0, env);
    var s1 := s0.(completed := {WelcomeName});
    ValidNextMovesOn(Tickets, s1, env);
    var s2 := s1.(completed := {WelcomeName, TicketsName});
    ValidNextMovesOn(Address, s2, env);
  }

  /** Next on the confirm phase goes to payment; the callback then confirms the order and raises. */
  lemma PayOnConfirm(env: Env)
    requires !env.isSoldout(CountMap(PositiveLines(env.orderLines)))
    ensures var c := Step(Confirm, Session(false, {WelcomeName, TicketsName, AddressName}, None),
                          Request("POST", Some("next")), env);
      var cb := Step(Confirm, c.session.(paymentStatus := Some(PaymentDone)), Request("GET", None), env);
      && c.outcome == RedirectExternal(PaymentUrl)
      && c.session == Session(false, PaidPhases, None)
      && cb.outcome == Raise(NextMissingArgument)
      && cb.session == Session(true, PaidPhases, Some(PaymentDone))
  {
    var s3 := Session(false, {WelcomeName, TicketsName, AddressName}, None);
    ConfirmNextGoesToPayment(s3, env);
    assert s3.(completed := s3.completed + {ConfirmName}) == Session(false, PaidPhases, None);
    ConfirmCallbackRaises(Session(false, PaidPhases, Some(PaymentDone)), env);
  }

  /** A confirmed order that still carries the payment flag, back on the thanks page. */
  lemma ReturnAfterCallback(env: Env)
    ensures var get := Request("GET", None);
      var back := Step(Thanks, Session(true, PaidPhases, Some(PaymentDone)), get, env);
      var th := Step(Thanks, back.session, get, env);
      var done := Step(Thanks, th.session, Request("POST", Some("next")), env);
      && back.outcome == RedirectPhase(ConfirmName)
      && back.session == Session(true, PaidPhases, None)
      && th.outcome.Render? && th.outcome.view.products == Some(env.orderLines)
      && (env.formValid ==> done.outcome == RedirectPhase(WelcomeName) && ClearOrder in done.calls)
  {
  }

  /**
   * A fresh session walks welcome, tickets and address with valid data, and next
   * on the confirm phase sends the buyer to pay. The payment callback on the confirm
   * phase confirms the order and then raises, leaving the flag in the session. The
   * thanks page consumes the flag by redirecting to the confirm view; visited again,
   * it renders the confirmed order, and its next clears the order.
   */
  lemma PurchaseWalkthrough(env: Env)
    requires env.formValid && env.multiformErrors == []
    requires env.ticketLines == [Line(1, 1)]
    requires !env.isSoldout(map[1 := 1])
    requires !env.isSoldout(CountMap(PositiveLines(env.orderLines)))
    ensures var s0 := Session(false, {}, None);
      var get := Request("GET", None);
      var next := Request("POST", Some("next"));
      var w := Step(Welcome, s0, next, env);
      var t := Step(Tickets, w.session, next, env);
      var a := Step(Address, t.session, next, env);
      var c := Step(Confirm, a.session, next, env);
      var paid := c.session.(paymentStatus := Some(PaymentDone));
      var cb := Step(Confirm, paid, get, env);
      var back := Step(Thanks, cb.session, get, env);
      var th := Step(Thanks, back.session, get, env);
      && Step(Welcome, s0, get, env).outcome.Render?
      && w.outcome == RedirectPhase(TicketsName)
      && t.outcome == RedirectPhase(AddressName)
      && a.outcome == RedirectPhase(ConfirmName)
      && c.outcome == RedirectExternal(PaymentUrl)
      && cb.outcome == Raise(NextMissingArgument) && cb.session.confirmed
      && back.outcome == RedirectPhase(ConfirmName)
      && th.outcome.Render? && th.outcome.view.products == Some(env.orderLines)
      && Step(Thanks, th.session, next, env).outcome == RedirectPhase(WelcomeName)
      && ClearOrder in Step(Thanks, th.session, next, env).calls
  {
    var next := Request("POST", Some("next"));
    WalkToConfirm(env);
    var a := Step(Address, Step(Tickets, Step(Welcome, Session(false, {}, None), next, env).session, next, env).session,
                  next, env);
    assert a.session == Session(false, {WelcomeName, TicketsName, AddressName}, None);
    PayOnConfirm(env);
    var c := Step(Confirm, a.session, next, env);
    assert Step(Confirm, c.session.(paymentStatus := Some(PaymentDone)), Request("GET", None), env).session
        == Session(true, PaidPhases, Some(PaymentDone));
    ReturnAfterCallback(env);
  }
}
