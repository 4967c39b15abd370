/**
 * The ticket-purchase wizard: a fixed sequence of phases (welcome, tickets,
 * address, confirm, thanks, plus a closed variant), each answering one HTTP
 * request against the session-held order.
 *
 * The Django plumbing is abstracted away. A request is its method and its
 * POST `action`; the session is the order's confirmation flag, the set of
 * completed phase names and the `payment_status` flag; every collaborator
 * whose code is not part of this model (form validation, the stock check,
 * order destruction and clearing) is a field of `Env`. One call of the view
 * is the pure function `Step`, which returns the response, the new session
 * and the trace of collaborator calls made along the way.
 */
module TicketPhases {
  import opened Wrappers

  // ---------------------------------------------------------------------
  // Phases and their class attributes
  // ---------------------------------------------------------------------

  datatype Phase = Welcome | Tickets | Address | Confirm | Thanks | Closed

  const WelcomeName := "tickets_welcome_view"
  const TicketsName := "tickets_tickets_view"
  const AddressName := "tickets_address_view"
  const ConfirmName := "tickets_confirm_view"
  const ThanksName := "tickets_thanks_view"

  /** Where an unavailable phase sends an unconfirmed order. */
  const FirstPhase := WelcomeName
  /** Where an unavailable phase sends a confirmed order. */
  const LastPhase := AddressName

  /** The HTTP methods every phase accepts. */
  const Methods: seq<string> := ["GET", "POST"]

  /** The payment-initiation endpoint `ConfirmPhase.next` sends an unconfirmed order to. */
  const PaymentUrl := "http://localhost:8000/process/?test=1"

  /** The session value of `payment_status` that signals a completed payment. */
  const PaymentDone := 2

  /** The URL name a phase is registered under; the closed phase reuses the welcome name. */
  function Name(p: Phase): string
  {
    match p
    case Welcome => WelcomeName
    case Tickets => TicketsName
    case Address => AddressName
    case Confirm => ConfirmName
    case Thanks => ThanksName
    case Closed => WelcomeName
  }

  function PrevPhase(p: Phase): Option<string>
  {
    match p
    case Tickets => Some(WelcomeName)
    case Address => Some(TicketsName)
    case Confirm => Some(AddressName)
    case _ => None
  }

  /** `next_phase`; the confirm phase's attribute points back at the address phase. */
  function NextPhase(p: Phase): Option<string>
  {
    match p
    case Welcome => Some(TicketsName)
    case Tickets => Some(AddressName)
    case Address => Some(ConfirmName)
    case Confirm => Some(AddressName)
    case Thanks => Some(WelcomeName)
    case Closed => None
  }

  function CanCancel(p: Phase): bool
  {
    p != Thanks
  }

  function PaymentPhase(p: Phase): bool
  {
    p == Confirm
  }

  // ---------------------------------------------------------------------
  // The phase registry and its indices
  // ---------------------------------------------------------------------

  /** The registry, in wizard order; the closed phase is not part of it. */
  const AllPhases: seq<Phase> := [Welcome, Tickets, Address, Confirm, Thanks]

  predicate Distinct(ps: seq<Phase>)
  {
    forall i, j :: 0 <= i < j < |ps| ==> ps[i] != ps[j]
  }

  /**
   * The index table built by enumerating the registry and assigning each
   * phase its position (a phase listed twice keeps its last position).
   */
  function AssignIndices(ps: seq<Phase>): (m: map<Phase, nat>)
    ensures forall p :: p in m <==> p in ps
    ensures forall p :: p in m ==> m[p] < |ps| && ps[m[p]] == p
    ensures Distinct(ps) ==> forall i :: 0 <= i < |ps| ==> ps[i] in m && m[ps[i]] == i
  {
    if ps == [] then map[]
    else
      var init := ps[..|ps| - 1];
      var m0 := AssignIndices(init);
      assert forall p :: p in ps <==> p in init || p == ps[|ps| - 1];
      m0[ps[|ps| - 1] := |ps| - 1]
  }

  /** A phase's `index`: its registry position, or the closed phase's own 0. */
  function Index(p: Phase): nat
  {
    var m := AssignIndices(AllPhases);
    if p in m then m[p] else 0
  }

  // ---------------------------------------------------------------------
  // Session, request, collaborators and responses
  // ---------------------------------------------------------------------

  datatype Session = Session(
    confirmed: bool,               // order.is_confirmed
    completed: set<string>,        // names recorded by complete_phase
    paymentStatus: Option<int>)    // request.session['payment_status'], if set

  /** An HTTP request: its method and the POST field `action`, if sent. */
  datatype Request = Request(verb: string, action: Option<string>)

  type ProductId = int

  /** A product paired with a requested count (an order line or a ticket sub-form). */
  datatype Line = Line(product: ProductId, count: int)

  /** The collaborators whose behaviour is not part of this model. */
  datatype Env = Env(
    formValid: bool,                          // form.is_valid() of a single-form phase
    multiformErrors: seq<string>,             // multiform_validate(form)
    ticketLines: seq<Line>,                   // each ticket sub-form's product and cleaned count
    orderLines: seq<Line>,                    // the order's stored OrderProduct rows
    isSoldout: map<ProductId, int> -> bool,   // is_soldout
    destroy: Session -> Session,              // destroy_order
    clear: Session -> Session)                // clear_order

  /** A collaborator call with an effect outside the session fields above. */
  datatype Call =
    | MakeForm(phase: Phase)
    | Validate(phase: Phase)
    | Save(phase: Phase)
    | ConfirmOrder
    | DestroyOrder
    | ClearOrder

  /** The unrecoverable errors the view raises. */
  datatype Fatal =
    | EvilUser             // a POST action other than next, prev or cancel
    | NoPrevPhase          // `prev` on a phase whose prev_phase is None
    | NextMissingArgument  // ConfirmPhase.next's super() call without `event`

  datatype PhaseEntry = PhaseEntry(name: string, available: bool, current: bool)

  /** The `phase` dictionary handed to the template. */
  datatype PhaseMeta = PhaseMeta(
    name: string, hasNext: bool, hasPrev: bool, canCancel: bool, paymentPhase: bool)

  datatype View = View(
    phases: seq<PhaseEntry>,
    phase: PhaseMeta,
    errors: seq<string>,
    products: Option<seq<Line>>)   // the `products` template variable, where a phase sets one

  datatype Outcome =
    | NotAllowed(allowed: seq<string>)
    | RedirectPhase(target: string)
    | RedirectHomepage
    | RedirectExternal(url: string)
    | Render(view: View)
    | Raise(error: Fatal)

  datatype StepResult = StepResult(outcome: Outcome, session: Session, calls: seq<Call>)

  // ---------------------------------------------------------------------
  // Per-phase behaviour
  // ---------------------------------------------------------------------

  /** `available`: whether the phase may be shown to this session at all. */
  predicate Available(p: Phase, s: Session)
  {
    match p
    case Welcome => !s.confirmed
    case Thanks => s.confirmed
    case Closed => true
    case _ => PrevPhase(p).Some? && PrevPhase(p).value in s.completed && !s.confirmed
  }

  function Sum(lines: seq<Line>): int
  {
    if lines == [] then 0 else Sum(lines[..|lines| - 1]) + lines[|lines| - 1].count
  }

  /** No line after the `i`-th names the same product: line `i` is the last word on it. */
  predicate LastForProduct(lines: seq<Line>, i: nat)
    requires i < |lines|
  {
    forall j :: i < j < |lines| ==> lines[j].product != lines[i].product
  }

  /** The dictionary built from (product, count) pairs; a later pair for the same product wins. */
  function CountMap(lines: seq<Line>): (m: map<ProductId, int>)
    ensures forall i :: 0 <= i < |lines| ==> lines[i].product in m
    ensures forall p :: p in m ==> exists i :: 0 <= i < |lines| && lines[i].product == p && m[p] == lines[i].count
    ensures forall i :: 0 <= i < |lines| && LastForProduct(lines, i) ==> m[lines[i].product] == lines[i].count
  {
    if lines == [] then map[]
    else
      var init := lines[..|lines| - 1];
      var last := lines[|lines| - 1];
      var m := CountMap(init)[last.product := last.count];
      assert forall i :: 0 <= i < |init| ==> init[i] == lines[i];
      assert forall i :: 0 <= i < |init| && LastForProduct(lines, i) ==> LastForProduct(init, i);
      m
  }

  /** The order lines with a positive count, in order (the `count__gt=0` filter). */
  function PositiveLines(lines: seq<Line>): (r: seq<Line>)
    ensures forall l :: l in r <==> l in lines && l.count > 0
    ensures |r| <= |lines|
  {
    if lines == [] then []
    else if lines[0].count > 0 then [lines[0]] + PositiveLines(lines[1..])
    else PositiveLines(lines[1..])
  }

  /** `TicketsPhase.validate`: sub-form errors, then the zero-total check, then the stock check. */
  function ValidateTickets(env: Env): seq<string>
  {
    if env.multiformErrors != [] then env.multiformErrors
    else if Sum(env.ticketLines) <= 0 then ["zero"]
    else if env.isSoldout(CountMap(env.ticketLines)) then ["soldout"]
    else []
  }

  /** `ConfirmPhase.validate`: the sub-form errors count only when the order's positive lines are sold out. */
  function ValidateConfirm(env: Env): seq<string>
  {
    if env.isSoldout(CountMap(PositiveLines(env.orderLines))) then env.multiformErrors + ["soldout_confirm"]
    else []
  }

  function ValidatePhase(p: Phase, env: Env): seq<string>
  {
    match p
    case Tickets => ValidateTickets(env)
    case Confirm => ValidateConfirm(env)
    case _ => if env.formValid then [] else ["syntax"]
  }

  /** `get`'s phase list: every registry phase, with its availability and current flags. */
  function PhaseList(p: Phase, confirmed: bool): seq<PhaseEntry>
  {
    seq(|AllPhases|, i requires 0 <= i < |AllPhases| =>
      PhaseEntry(Name(AllPhases[i]), Index(AllPhases[i]) < Index(p) && !confirmed, AllPhases[i] == p))
  }

  function Meta(p: Phase): PhaseMeta
  {
    PhaseMeta(Name(p), NextPhase(p).Some?, PrevPhase(p).Some?, CanCancel(p), PaymentPhase(p))
  }

  /** `vars`: the confirm phase lists the positive order lines, the thanks phase all of them. */
  function Products(p: Phase, env: Env): Option<seq<Line>>
  {
    match p
    case Confirm => Some(PositiveLines(env.orderLines))
    case Thanks => Some(env.orderLines)
    case _ => None
  }

  function RenderPhase(p: Phase, s: Session, env: Env, errors: seq<string>, calls: seq<Call>): StepResult
  {
    StepResult(Render(View(PhaseList(p, s.confirmed), Meta(p), errors, Products(p, env))), s, calls)
  }

  /** `next`, taken after the phase was completed; reads the session as it stands then. */
  function Next(p: Phase, s: Session, env: Env, calls: seq<Call>): StepResult
  {
    match p
    case Confirm =>
      if !s.confirmed then StepResult(RedirectExternal(PaymentUrl), s, calls)
      else StepResult(Raise(NextMissingArgument), s, calls)
    case Thanks => StepResult(RedirectPhase(WelcomeName), env.clear(s), calls + [ClearOrder])
    case Closed => StepResult(RedirectHomepage, s, calls)
    case _ => StepResult(RedirectPhase(NextPhase(p).value), s, calls)
  }

  function Prev(p: Phase, s: Session, calls: seq<Call>): StepResult
  {
    if PrevPhase(p).Some? then StepResult(RedirectPhase(PrevPhase(p).value), s, calls)
    else StepResult(Raise(NoPrevPhase), s, calls)
  }

  function Cancel(s: Session, env: Env, calls: seq<Call>): StepResult
  {
    StepResult(RedirectHomepage, env.destroy(s), calls + [DestroyOrder])
  }

  // ---------------------------------------------------------------------
  // One request
  // ---------------------------------------------------------------------

  /** `Phase.__call__`: answer one request to phase `p`. */
  function Step(p: Phase, s: Session, r: Request, env: Env): (res: StepResult)
    ensures r.verb !in Methods ==> res == StepResult(NotAllowed(Methods), s, [])
    ensures r.verb in Methods && !Available(p, s) ==>
      res == StepResult(RedirectPhase(if s.confirmed then LastPhase else FirstPhase), s, [])
    ensures Save(p) in res.calls ==> Validate(p) in res.calls && ValidatePhase(p, env) == []
    ensures res.outcome.Raise? ==> res.session == s.(confirmed := res.session.confirmed)
  {
    if r.verb !in Methods then StepResult(NotAllowed(Methods), s, [])
    else if !Available(p, s) then
      StepResult(RedirectPhase(if s.confirmed then LastPhase else FirstPhase), s, [])
    else
      var formCalls := [MakeForm(p)];
      if r.verb == "POST" then
        var action := r.action.GetOr("cancel");
        if action == "cancel" then Cancel(s, env, formCalls)
        else if action != "next" && action != "prev" then StepResult(Raise(EvilUser), s, formCalls)
        else
          var errors := ValidatePhase(p, env);
          var checked := formCalls + [Validate(p)];
          if errors == [] then
            var saved := checked + [Save(p)];
            if action == "next" then Next(p, s.(completed := s.completed + {Name(p)}), env, saved)
            else Prev(p, s, saved)
          else if action == "prev" then Prev(p, s, checked)
          else RenderPhase(p, s, env, errors, checked)
      else
        // The only other accepted method is GET.
        if s.paymentStatus == Some(PaymentDone) then
          var cleared := s.(paymentStatus := None);
          if !s.confirmed then
            var res := Next(p, cleared.(confirmed := true, completed := cleared.completed + {Name(p)}), env,
                            formCalls + [ConfirmOrder]);
            // A raised error answers 500 and the session is not saved; the order's own save already happened.
            if res.outcome.Raise? then StepResult(res.outcome, s.(confirmed := true), res.calls) else res
          else StepResult(RedirectPhase(ConfirmName), cleared, formCalls)
        else RenderPhase(p, s, env, [], formCalls)
  }
}
