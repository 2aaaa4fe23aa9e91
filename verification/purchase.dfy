/**
 * The purchase hook: four remote steps against the content backend, each
 * awaited before the next is issued — create the customer, create the order,
 * point the customer at the order, point the order at the customer. The
 * first failure ends the sequence; nothing already created is undone.
 *
 * The remote calls are abstract: `responses[i]` is the answer to the i-th
 * request issued. When fewer answers than issued requests exist, the call
 * is still in flight.
 */
module Purchase {
  import opened Options

  datatype CustomerPayload = CustomerPayload(
    nombre: string,
    apellido: string,
    celular: string,
    direccion: string,
    distrito: string,
    provincia: string,
    departamento: string,
    referencia: Option<string>)

  datatype SalePayload = SalePayload(quantity: int, color: string, unitPrice: int, totalAmount: int)

  datatype PurchasePayload = PurchasePayload(customer: CustomerPayload, sale: SalePayload)

  /** The order body: the sale's fields plus the initial `state`. */
  datatype OrderBody = OrderBody(sale: SalePayload, state: string)

  const PendingState: string := "pending"

  /** A created entity as the backend returns it; an empty `documentId` stands for a missing one. */
  datatype Entity = Entity(id: int, documentId: string)

  datatype Request =
    | CreateCustomer(customer: CustomerPayload)               // POST /customers
    | CreateOrder(order: OrderBody)                           // POST /orders
    | LinkCustomer(customerId: string, orders: seq<string>)   // PUT /customers/:id
    | LinkOrder(orderId: string, customerRef: string)         // PUT /orders/:id

  /** Position of a request kind in the fixed sequence. */
  function StepIndex(r: Request): nat {
    match r
    case CreateCustomer(_) => 0
    case CreateOrder(_) => 1
    case LinkCustomer(_, _) => 2
    case LinkOrder(_, _) => 3
  }

  /**
   * Why a step failed: an HTTP-client error, carrying the backend's
   * `error.message` when its body had one, or any other exception.
   */
  datatype Failure = HttpError(backendMessage: Option<string>) | OtherError

  datatype Response = Ok(entity: Entity) | Err(failure: Failure)

  datatype PurchaseResponse = PurchaseResponse(customer: Entity, sale: Entity)

  datatype Phase =
    | CreatingCustomer
    | CreatingOrder(customer: Entity)
    | LinkingCustomer(customer: Entity, sale: Entity)
    | LinkingOrder(customer: Entity, sale: Entity)
    | Succeeded(result: PurchaseResponse)
    | Failed(message: string)
  {
    predicate InFlight() {
      !Succeeded? && !Failed?
    }

    function Index(): nat {
      match this
      case CreatingCustomer => 0
      case CreatingOrder(_) => 1
      case LinkingCustomer(_, _) => 2
      case LinkingOrder(_, _) => 3
      case _ => 4
    }
  }

  const GenericError: string := "Error procesando compra"

  /** The message stored in `error`: the backend's own message when it sent one, else the generic one. */
  function ErrorMessage(f: Failure): (m: string)
    ensures m != ""
    ensures f.HttpError? && Truthy(f.backendMessage) ==> m == f.backendMessage.value
    ensures !(f.HttpError? && Truthy(f.backendMessage)) ==> m == GenericError
  {
    if f.HttpError? && Truthy(f.backendMessage) then f.backendMessage.value else GenericError
  }

  /** The request issued in an in-flight phase. */
  function RequestFor(p: PurchasePayload, phase: Phase): (r: Request)
    requires phase.InFlight()
    ensures StepIndex(r) == phase.Index()
  {
    match phase
    case CreatingCustomer => CreateCustomer(p.customer)
    case CreatingOrder(_) => CreateOrder(OrderBody(p.sale, PendingState))
    case LinkingCustomer(c, s) => LinkCustomer(c.documentId, [s.documentId])
    case LinkingOrder(c, s) => LinkOrder(s.documentId, c.documentId)
  }

  /** The phase after the current request has been answered. */
  function Advance(phase: Phase, resp: Response): (next: Phase)
    requires phase.InFlight()
    ensures next.InFlight() ==> next.Index() == phase.Index() + 1
  {
    match resp
    case Err(f) => Failed(ErrorMessage(f))
    case Ok(e) =>
      match phase
      case CreatingCustomer => if e.documentId == "" then Failed(GenericError) else CreatingOrder(e)
      case CreatingOrder(c) => if e.documentId == "" then Failed(GenericError) else LinkingCustomer(c, e)
      case LinkingCustomer(c, s) => LinkingOrder(c, s)
      case LinkingOrder(c, s) => Succeeded(PurchaseResponse(c, s))
  }

  /** The requests issued so far and the phase reached. */
  datatype Run = Run(issued: seq<Request>, phase: Phase)

  function Drive(p: PurchasePayload, phase: Phase, responses: seq<Response>): (r: Run)
    ensures |r.issued| <= 4 - phase.Index()
    ensures forall i :: 0 <= i < |r.issued| ==> StepIndex(r.issued[i]) == phase.Index() + i
    ensures !phase.InFlight() ==> r == Run([], phase)
    decreases |responses|
  {
    if !phase.InFlight() then Run([], phase)
    else if |responses| == 0 then Run([RequestFor(p, phase)], phase)
    else
      var rest := Drive(p, Advance(phase, responses[0]), responses[1..]);
      Run([RequestFor(p, phase)] + rest.issued, rest.phase)
  }

  /**
   * `mutate(payload)` once the first `|responses|` requests have been answered:
   * the requests are issued strictly in the fixed order, at most four.
   */
  function Mutate(p: PurchasePayload, responses: seq<Response>): (r: Run)
    ensures |r.issued| <= 4
    ensures forall i :: 0 <= i < |r.issued| ==> StepIndex(r.issued[i]) == i
    ensures |r.issued| >= 1 && r.issued[0] == CreateCustomer(p.customer)
  {
    Drive(p, CreatingCustomer, responses)
  }

  /** The hook's observable state. */
  datatype Hook = Hook(loading: bool, error: Option<string>)

  function HookAfter(r: Run): Hook {
    Hook(r.phase.InFlight(), if r.phase.Failed? then Some(r.phase.message) else None)
  }

  /** The arguments `onSuccess` was called with, in order. */
  function SuccessCalls(r: Run): seq<PurchaseResponse> {
    if r.phase.Succeeded? then [r.phase.result] else []
  }

  predicate ErrorCalled(r: Run) {
    r.phase.Failed?
  }

  /** What the returned promise resolved to: `None` while pending, then the result or null. */
  function Returned(r: Run): Option<Option<PurchaseResponse>> {
    match r.phase
    case Succeeded(res) => Some(Some(res))
    case Failed(_) => Some(None)
    case _ => None
  }

  /** Step `k` (0-based) accepted its answer: the call succeeded and, for a create, returned a documentId. */
  predicate Accepts(k: nat, resp: Response) {
    resp.Ok? && (k < 2 ==> resp.entity.documentId != "")
  }

  /** The entity answered at position `k`, or a placeholder when there is none. */
  function EntityAt(responses: seq<Response>, k: nat): Entity {
    if k < |responses| && responses[k].Ok? then responses[k].entity else Entity(0, "")
  }

  /** The four requests of a purchase whose creates returned `c` and `s`. */
  function Plan(p: PurchasePayload, c: Entity, s: Entity): seq<Request> {
    [ CreateCustomer(p.customer),
      CreateOrder(OrderBody(p.sale, PendingState)),
      LinkCustomer(c.documentId, [s.documentId]),
      LinkOrder(s.documentId, c.documentId) ]
  }

  /** The message a rejected answer produces. */
  function RejectionMessage(resp: Response): string {
    if resp.Err? then ErrorMessage(resp.failure) else GenericError
  }

  /** The phase reached after the first `k` steps accepted their answers. */
  function PhaseAfter(k: nat, c: Entity, s: Entity): Phase
    requires k <= 4
  {
    if k == 0 then CreatingCustomer
    else if k == 1 then CreatingOrder(c)
    else if k == 2 then LinkingCustomer(c, s)
    else if k == 3 then LinkingOrder(c, s)
    else Succeeded(PurchaseResponse(c, s))
  }

  /** The customer entity a run from phase `k` ends up linking. */
  function CustomerOf(k: nat, c: Entity, responses: seq<Response>): Entity {
    if k == 0 then EntityAt(responses, 0) else c
  }

  /** The order entity a run from phase `k` ends up linking. */
  function SaleOf(k: nat, s: Entity, responses: seq<Response>): Entity {
    if k == 0 then EntityAt(responses, 1) else if k == 1 then EntityAt(responses, 0) else s
  }

  /** Phase `k + 1` after step `k` accepted `resp`. */
  lemma AdvanceAccepted(k: nat, c: Entity, s: Entity, resp: Response)
    requires k < 4 && Accepts(k, resp)
    ensures Advance(PhaseAfter(k, c, s), resp) ==
      PhaseAfter(k + 1, if k == 0 then resp.entity else c, if k == 1 then resp.entity else s)
  {
  }

  /** From phase `k`, the requests issued are the rest of the plan, built from the entities the creates returned. */
  lemma {:induction false} DriveIssuesPlan(p: PurchasePayload, k: nat, c: Entity, s: Entity, responses: seq<Response>)
    requires k <= 4
    ensures var r := Drive(p, PhaseAfter(k, c, s), responses);
      k + |r.issued| <= 4
      && r.issued == Plan(p, CustomerOf(k, c, responses), SaleOf(k, s, responses))[k..k + |r.issued|]
    decreases 4 - k
  {
    var phase := PhaseAfter(k, c, s);
    var plan := Plan(p, CustomerOf(k, c, responses), SaleOf(k, s, responses));
    if k < 4 {
      assert RequestFor(p, phase) == plan[k];
      if |responses| > 0 {
        var resp := responses[0];
        var tail := responses[1..];
        var rest := Drive(p, Advance(phase, resp), tail);
        if Accepts(k, resp) {
          var c' := if k == 0 then resp.entity else c;
          var s' := if k == 1 then resp.entity else s;
          AdvanceAccepted(k, c, s, resp);
          DriveIssuesPlan(p, k + 1, c', s', tail);
          assert Plan(p, CustomerOf(k + 1, c', tail), SaleOf(k + 1, s', tail)) == plan;
          var m := |rest.issued|;
          assert k + 1 + m <= 4 && |plan| == 4;
          assert [plan[k]] + plan[k + 1..k + 1 + m] == plan[k..k + 1 + m];
        }
      }
    }
  }

  /** From phase `k`, the run fails exactly at the first step that rejects its answer, with that answer's message. */
  lemma {:induction false} DriveFailure(p: PurchasePayload, k: nat, c: Entity, s: Entity, responses: seq<Response>)
    requires k <= 4
    ensures var r := Drive(p, PhaseAfter(k, c, s), responses);
      var n := |r.issued|;
      r.phase.Failed? ==>
        1 <= n <= |responses| && (forall j :: 0 <= j < n - 1 ==> Accepts(k + j, responses[j]))
        && !Accepts(k + n - 1, responses[n - 1])
        && r.phase.message == RejectionMessage(responses[n - 1])
    decreases 4 - k
  {
    var phase := PhaseAfter(k, c, s);
    if k < 4 && |responses| > 0 {
      var resp := responses[0];
      var tail := responses[1..];
      if Accepts(k, resp) {
        var c' := if k == 0 then resp.entity else c;
        var s' := if k == 1 then resp.entity else s;
        AdvanceAccepted(k, c, s, resp);
        DriveFailure(p, k + 1, c', s', tail);
        var r := Drive(p, phase, responses);
        if r.phase.Failed? {
          forall j | 0 <= j < |r.issued| - 1
            ensures Accepts(k + j, responses[j])
          {
            if j > 0 {
              assert responses[j] == tail[j - 1];
            }
          }
        }
      }
    }
  }

  /** From phase `k`, the run succeeds only after every remaining step accepted its answer. */
  lemma {:induction false} DriveSuccess(p: PurchasePayload, k: nat, c: Entity, s: Entity, responses: seq<Response>)
    requires k <= 4
    requires k >= 1 ==> c.documentId != ""
    requires k >= 2 ==> s.documentId != ""
    ensures var r := Drive(p, PhaseAfter(k, c, s), responses);
      (r.phase.Succeeded? && k < 4) <==>
        (k < 4 && 4 - k <= |responses| && forall j :: 0 <= j < 4 - k ==> Accepts(k + j, responses[j]))
    ensures var r := Drive(p, PhaseAfter(k, c, s), responses);
      r.phase.Succeeded? ==>
        |r.issued| == 4 - k
        && r.phase.result == PurchaseResponse(CustomerOf(k, c, responses), SaleOf(k, s, responses))
    decreases 4 - k
  {
    var phase := PhaseAfter(k, c, s);
    if k < 4 && |responses| > 0 {
      var resp := responses[0];
      var tail := responses[1..];
      if Accepts(k, resp) {
        var c' := if k == 0 then resp.entity else c;
        var s' := if k == 1 then resp.entity else s;
        AdvanceAccepted(k, c, s, resp);
        DriveSuccess(p, k + 1, c', s', tail);
        var all := 4 - k <= |responses| && forall j :: 0 <= j < 4 - k ==> Accepts(k + j, responses[j]);
        var allTail := 4 - (k + 1) <= |tail| && forall j :: 0 <= j < 4 - (k + 1) ==> Accepts(k + 1 + j, tail[j]);
        if allTail {
          forall j | 0 <= j < 4 - k
            ensures Accepts(k + j, responses[j])
          {
            if j > 0 {
              assert responses[j] == tail[j - 1];
            }
          }
        }
        if all {
          forall j | 0 <= j < 4 - (k + 1)
            ensures Accepts(k + 1 + j, tail[j])
          {
            assert tail[j] == responses[j + 1];
          }
        }
      } else {
        assert !Accepts(k + 0, responses[0]);
      }
    }
  }

  /** From phase `k`, a run still in flight has had every answer accepted and awaits one more. */
  lemma {:induction false} DriveInFlight(p: PurchasePayload, k: nat, c: Entity, s: Entity, responses: seq<Response>)
    requires k <= 4
    ensures var r := Drive(p, PhaseAfter(k, c, s), responses);
      r.phase.InFlight() ==>
        |r.issued| == |responses| + 1 && forall j :: 0 <= j < |responses| ==> Accepts(k + j, responses[j])
    decreases 4 - k
  {
    var phase := PhaseAfter(k, c, s);
    if k < 4 && |responses| > 0 {
      var resp := responses[0];
      var tail := responses[1..];
      if Accepts(k, resp) {
        var c' := if k == 0 then resp.entity else c;
        var s' := if k == 1 then resp.entity else s;
        AdvanceAccepted(k, c, s, resp);
        DriveInFlight(p, k + 1, c', s', tail);
        var r := Drive(p, phase, responses);
        if r.phase.InFlight() {
          forall j | 0 <= j < |responses|
            ensures Accepts(k + j, responses[j])
          {
            if j > 0 {
              assert responses[j] == tail[j - 1];
            }
          }
        }
      }
    }
  }

  /**
   * Every request `mutate` issues is the next one of the plan: the order body
   * is the sale plus `state = "pending"`, and the two links use exactly the
   * documentIds the two creates returned.
   */
  lemma MutateIssuesPlan(p: PurchasePayload, responses: seq<Response>)
    ensures var r := Mutate(p, responses);
      r.issued == Plan(p, EntityAt(responses, 0), EntityAt(responses, 1))[..|r.issued|]
  {
    DriveIssuesPlan(p, 0, Entity(0, ""), Entity(0, ""), responses);
  }

  /**
   * When step `k` is the first to reject its answer (a failed call, or a
   * create without a documentId), no later step is issued, `mutate` resolves
   * to null, `onError` runs, `onSuccess` does not, and `error` holds the
   * answer's message. The steps before `k` stay done: nothing is compensated.
   */
  lemma MutateAbortsAtFirstFailure(p: PurchasePayload, responses: seq<Response>, k: nat)
    requires k < 4 && k < |responses|
    requires forall j :: 0 <= j < k ==> Accepts(j, responses[j])
    requires !Accepts(k, responses[k])
    ensures var r := Mutate(p, responses);
      && r.issued == Plan(p, EntityAt(responses, 0), EntityAt(responses, 1))[..k + 1]
      && r.phase == Failed(RejectionMessage(responses[k]))
      && Returned(r) == Some(None)
      && SuccessCalls(r) == [] && ErrorCalled(r)
      && HookAfter(r) == Hook(false, Some(RejectionMessage(responses[k])))
  {
    var c0, s0 := Entity(0, ""), Entity(0, "");
    DriveIssuesPlan(p, 0, c0, s0, responses);
    DriveFailure(p, 0, c0, s0, responses);
    DriveSuccess(p, 0, c0, s0, responses);
    DriveInFlight(p, 0, c0, s0, responses);
    var r := Mutate(p, responses);
    assert !r.phase.InFlight();
    assert !r.phase.Succeeded?;
  }

  /**
   * `mutate` succeeds exactly when all four steps accept their answers; it
   * then issued the whole plan, resolves to `{customer, sale}` as the two
   * creates returned them, and calls `onSuccess` once with that result.
   */
  lemma MutateSucceedsIff(p: PurchasePayload, responses: seq<Response>)
    ensures Mutate(p, responses).phase.Succeeded? <==>
      4 <= |responses| && forall j :: 0 <= j < 4 ==> Accepts(j, responses[j])
    ensures var r := Mutate(p, responses);
      r.phase.Succeeded? ==>
        var result := PurchaseResponse(responses[0].entity, responses[1].entity);
        && r.issued == Plan(p, responses[0].entity, responses[1].entity)
        && Returned(r) == Some(Some(result))
        && SuccessCalls(r) == [result] && !ErrorCalled(r)
        && HookAfter(r) == Hook(false, None)
  {
    var c0, s0 := Entity(0, ""), Entity(0, "");
    DriveIssuesPlan(p, 0, c0, s0, responses);
    DriveSuccess(p, 0, c0, s0, responses);
    var r := Mutate(p, responses);
    if r.phase.Succeeded? {
      assert Accepts(0, responses[0]) && Accepts(1, responses[1]);
    }
  }

  /**
   * While answers are outstanding, `loading` is true, `error` has been reset
   * to null, no callback has run, and exactly one request is awaiting its answer.
   */
  lemma MutatePending(p: PurchasePayload, responses: seq<Response>)
    requires |responses| < 4
    requires forall j :: 0 <= j < |responses| ==> Accepts(j, responses[j])
    ensures var r := Mutate(p, responses);
      && |r.issued| == |responses| + 1
      && HookAfter(r) == Hook(true, None)
      && Returned(r) == None
      && SuccessCalls(r) == [] && !ErrorCalled(r)
  {
    var c0, s0 := Entity(0, ""), Entity(0, "");
    DriveFailure(p, 0, c0, s0, responses);
    DriveSuccess(p, 0, c0, s0, responses);
    DriveInFlight(p, 0, c0, s0, responses);
  }

  /** Once the outcome is known the hook is idle: `loading` is false after success and after failure. */
  lemma MutateSettles(p: PurchasePayload, responses: seq<Response>)
    requires 4 <= |responses|
    ensures !HookAfter(Mutate(p, responses)).loading
    ensures Returned(Mutate(p, responses)).Some?
  {
    var c0, s0 := Entity(0, ""), Entity(0, "");
    DriveInFlight(p, 0, c0, s0, responses);
  }
}
