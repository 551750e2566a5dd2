/**
 * The order form of the session view (agent-starter-react/components/session-view.tsx):
 * human edits kept locally, values extracted by the backend merged over them,
 * the "Clear Manual" button, and the submit handler with its two flags.
 */
module OrderForm {
  import opened Wrappers
  import opened Text

  /** The nine fields of the order form. */
  datatype Field =
    | CustomerName | ContactId | BookTitle | Author | Genre
    | Quantity | PaymentMethod | DeliveryOption | SpecialRequests

  /** One value per field, all strings (the form's text inputs). */
  datatype OrderFields = OrderFields(
    customerName: string, contactId: string, bookTitle: string, author: string, genre: string,
    quantity: string, paymentMethod: string, deliveryOption: string, specialRequests: string)
  {
    function Get(f: Field): string
    {
      match f
      case CustomerName => customerName
      case ContactId => contactId
      case BookTitle => bookTitle
      case Author => author
      case Genre => genre
      case Quantity => quantity
      case PaymentMethod => paymentMethod
      case DeliveryOption => deliveryOption
      case SpecialRequests => specialRequests
    }

    /** `{ ...prev, f: v }`. */
    function With(f: Field, v: string): (r: OrderFields)
      ensures r.Get(f) == v
      ensures forall g :: g != f ==> r.Get(g) == Get(g)
    {
      match f
      case CustomerName => this.(customerName := v)
      case ContactId => this.(contactId := v)
      case BookTitle => this.(bookTitle := v)
      case Author => this.(author := v)
      case Genre => this.(genre := v)
      case Quantity => this.(quantity := v)
      case PaymentMethod => this.(paymentMethod := v)
      case DeliveryOption => this.(deliveryOption := v)
      case SpecialRequests => this.(specialRequests := v)
    }
  }

  /** The initial local values, also what "Clear Manual" restores. */
  const Defaults := OrderFields("", "", "", "", "", "1", "Credit Card", "Home Delivery", "")

  /**
   * The order the backend extracted from the conversation, as the order-data
   * hook delivers it: each field may be missing (null/undefined); the quantity is a number.
   */
  datatype BackendOrder = BackendOrder(
    customerName: Option<string>, customerId: Option<string>, bookTitle: Option<string>,
    author: Option<string>, genre: Option<string>, quantity: Option<int>,
    paymentMethod: Option<string>, deliveryOption: Option<string>, specialRequests: Option<string>)

  const NoBackendOrder := BackendOrder(None, None, None, None, None, None, None, None, None)

  /** The backend's value for a field as a string; the quantity through `quantity?.toString()`. */
  function BackendValue(b: BackendOrder, f: Field): Option<string>
  {
    match f
    case CustomerName => b.customerName
    case ContactId => b.customerId
    case BookTitle => b.bookTitle
    case Author => b.author
    case Genre => b.genre
    case Quantity => if b.quantity.Some? then Some(IntToString(b.quantity.value)) else None
    case PaymentMethod => b.paymentMethod
    case DeliveryOption => b.deliveryOption
    case SpecialRequests => b.specialRequests
  }

  /** JavaScript truthiness of an optional string: present and non-empty. */
  predicate Truthy(v: Option<string>)
  {
    v.Some? && v.value != ""
  }

  /** `backend.x || local.x`, field by field. */
  function Merge(b: BackendOrder, local: OrderFields): (m: OrderFields)
    ensures forall f :: Truthy(BackendValue(b, f)) ==> m.Get(f) == BackendValue(b, f).value
    ensures forall f :: !Truthy(BackendValue(b, f)) ==> m.Get(f) == local.Get(f)
  {
    OrderFields(
      Pick(b.customerName, local.customerName),
      Pick(b.customerId, local.contactId),
      Pick(b.bookTitle, local.bookTitle),
      Pick(b.author, local.author),
      Pick(b.genre, local.genre),
      Pick(BackendValue(b, Quantity), local.quantity),
      Pick(b.paymentMethod, local.paymentMethod),
      Pick(b.deliveryOption, local.deliveryOption),
      Pick(b.specialRequests, local.specialRequests))
  }

  function Pick(v: Option<string>, fallback: string): string
  {
    if Truthy(v) then v.value else fallback
  }

  /** Any quantity the backend reports, zero included, hides the local one. */
  lemma AnyBackendQuantityWins(b: BackendOrder, local: OrderFields)
    requires b.quantity.Some?
    ensures Merge(b, local).quantity == IntToString(b.quantity.value)
    ensures b.quantity.value == 0 ==> Merge(b, local).quantity == "0"
  {
    assert Truthy(BackendValue(b, Quantity));
    assert Merge(b, local).Get(Quantity) == BackendValue(b, Quantity).value;
  }

  /** Without any backend data the form shows exactly the local values. */
  lemma NoBackendShowsLocal(local: OrderFields)
    ensures Merge(NoBackendOrder, local) == local
  {
    assert forall f :: !Truthy(BackendValue(NoBackendOrder, f));
    assert forall f :: Merge(NoBackendOrder, local).Get(f) == local.Get(f);
  }

  /**
   * "Clear Manual" removes only manual data: a field the backend supplies
   * shows the same value before and after, and every other field shows its default.
   */
  lemma ClearKeepsBackendValues(b: BackendOrder, local: OrderFields, f: Field)
    ensures Truthy(BackendValue(b, f)) ==> Merge(b, Defaults).Get(f) == Merge(b, local).Get(f)
    ensures !Truthy(BackendValue(b, f)) ==> Merge(b, Defaults).Get(f) == Defaults.Get(f)
  {
  }

  /**
   * Editing one field changes at most that field of the merged form, and
   * changes it to the typed value exactly when the backend does not supply it.
   */
  lemma EditTouchesOneField(b: BackendOrder, local: OrderFields, f: Field, v: string)
    ensures forall g :: g != f ==> Merge(b, local.With(f, v)).Get(g) == Merge(b, local).Get(g)
    ensures !Truthy(BackendValue(b, f)) ==> Merge(b, local.With(f, v)).Get(f) == v
    ensures Truthy(BackendValue(b, f)) ==> Merge(b, local.With(f, v)).Get(f) == Merge(b, local).Get(f)
  {
  }

  /** The three fields the handler insists on. */
  predicate Complete(m: OrderFields)
  {
    m.bookTitle != "" && m.customerName != "" && m.contactId != ""
  }

  /** The submit button is rendered only for a complete order, and is disabled while submitting or once submitted. */
  predicate ButtonEnabled(m: OrderFields, submitting: bool, submitted: bool)
  {
    Complete(m) && !submitting && !submitted
  }

  datatype Toast = Toast(title: string, description: string)

  const IncompleteToast := Toast("Incomplete Order", "Please ensure book title, customer name, and contact ID are filled.")
  const FailedToast := Toast("Order Submission Failed", "Please try again or contact support.")

  function SuccessToast(orderId: Option<string>): Toast
  {
    Toast("Order Submitted Successfully!",
          "Order ID: " + (if Truthy(orderId) then orderId.value else "Generated") + ". You will receive a confirmation shortly.")
  }

  /** The body posted to /orders/submit: the merged form plus status and date. */
  datatype SubmitRequest = SubmitRequest(roomId: Option<string>, order: OrderFields, orderStatus: string, orderDate: string)

  /** The first half of the handler, up to the `fetch`: validation, or the request to post. */
  datatype BeginOutcome = Incomplete(toast: Toast) | Post(request: SubmitRequest)

  /** How the awaited calls of the second half ended. */
  datatype SubmitResponse =
    | FetchThrew
    | HttpError(status: int)
    | HttpOk(jsonThrew: bool, orderId: Option<string>)

  /** `room?.name || room?.room?.name`: left out of the body when neither is truthy. */
  function SubmitRoomId(name: Option<string>, innerName: Option<string>): (r: Option<string>)
    ensures Truthy(name) ==> r == name
    ensures !Truthy(name) ==> r == innerName
  {
    if Truthy(name) then name else innerName
  }

  /** The outcome of the first half, as a function of the merged form. */
  function BeginFor(m: OrderFields, name: Option<string>, innerName: Option<string>, now: string): (o: BeginOutcome)
    ensures o.Incomplete? <==> !Complete(m)
    ensures o.Incomplete? ==> o.toast == IncompleteToast
    ensures o.Post? ==> o.request.order == m && o.request.orderStatus == "confirmed" && o.request.orderDate == now
  {
    if !Complete(m) then Incomplete(IncompleteToast)
    else Post(SubmitRequest(SubmitRoomId(name, innerName), m, "confirmed", now))
  }

  /** The toasts shown by the second half, in order. */
  function FinishToasts(r: SubmitResponse, chatSendThrew: bool): (ts: seq<Toast>)
    ensures 1 <= |ts| <= 2
    ensures ts[|ts| - 1] == FailedToast <==> !(r.HttpOk? && !r.jsonThrew && !chatSendThrew)
    ensures r.HttpOk? && !r.jsonThrew ==> ts[0] == SuccessToast(r.orderId)
    ensures !Accepted(r) ==> ts == [FailedToast]
    ensures |ts| == 2 <==> Accepted(r) && chatSendThrew
  {
    if r.HttpOk? && !r.jsonThrew then
      [SuccessToast(r.orderId)] + (if chatSendThrew then [FailedToast] else [])
    else [FailedToast]
  }

  /** Whether the response marks the order submitted: the flag is set right after the JSON body is read. */
  predicate Accepted(r: SubmitResponse)
  {
    r.HttpOk? && !r.jsonThrew
  }

  /** The component's order state. */
  class SessionOrder {
    var local: OrderFields
    var submitting: bool
    var submitted: bool

    constructor()
      ensures local == Defaults && !submitting && !submitted
    {
      local := Defaults;
      submitting := false;
      submitted := false;
    }

    /** An `onChange` of one input. */
    method Edit(f: Field, v: string)
      modifies this
      ensures local == old(local).With(f, v)
      ensures submitting == old(submitting) && submitted == old(submitted)
    {
      local := local.With(f, v);
    }

    /** The "Clear Manual" button. */
    method ClearManual()
      modifies this
      ensures local == Defaults
      ensures submitting == old(submitting) && submitted == old(submitted)
    {
      local := Defaults;
    }

    /** `handleOrderSubmit` up to its `fetch`, given the backend order and the clock reading. */
    method BeginSubmit(b: BackendOrder, name: Option<string>, innerName: Option<string>, now: string)
      returns (o: BeginOutcome)
      modifies this
      ensures o == BeginFor(Merge(b, old(local)), name, innerName, now)
      ensures local == old(local) && submitted == old(submitted)
      ensures submitting == (old(submitting) || o.Post?)
    {
      var m := Merge(b, local);
      if !Complete(m) {
        return Incomplete(IncompleteToast);
      }
      submitting := true;
      o := Post(SubmitRequest(SubmitRoomId(name, innerName), m, "confirmed", now));
    }

    /** `handleOrderSubmit` from the `fetch` on: the toasts shown, and the `finally`. */
    method FinishSubmit(r: SubmitResponse, chatSendThrew: bool) returns (toasts: seq<Toast>)
      modifies this
      ensures toasts == FinishToasts(r, chatSendThrew)
      ensures submitted == (old(submitted) || Accepted(r))
      ensures !submitting && local == old(local)
    {
      if r.HttpOk? && !r.jsonThrew {
        submitted := true;
        toasts := [SuccessToast(r.orderId)];
        if chatSendThrew {
          toasts := toasts + [FailedToast];
        }
      } else {
        toasts := [FailedToast];
      }
      submitting := false;
    }
  }

  /** A click on an enabled button never takes the "Incomplete Order" path, and always posts. */
  lemma EnabledClickPosts(b: BackendOrder, local: OrderFields, submitted: bool,
                          name: Option<string>, innerName: Option<string>, now: string)
    requires ButtonEnabled(Merge(b, local), false, submitted)
    ensures BeginFor(Merge(b, local), name, innerName, now).Post?
  {
  }

  /**
   * Once a submission has been accepted the button stays disabled, whatever
   * responses, edits or clears follow: the order cannot be submitted twice.
   */
  lemma AcceptedDisablesForGood(rs: seq<SubmitResponse>, m: OrderFields, submitting: bool)
    requires exists i :: 0 <= i < |rs| && Accepted(rs[i])
    ensures !ButtonEnabled(m, submitting, SubmittedAfter(false, rs))
  {
    SubmittedAfterIff(false, rs);
  }

  /** The submitted flag after a series of responses. */
  function SubmittedAfter(submitted: bool, rs: seq<SubmitResponse>): bool
    decreases |rs|
  {
    if rs == [] then submitted else SubmittedAfter(submitted || Accepted(rs[0]), rs[1..])
  }

  lemma {:induction false} SubmittedAfterIff(submitted: bool, rs: seq<SubmitResponse>)
    ensures SubmittedAfter(submitted, rs) <==> submitted || exists i :: 0 <= i < |rs| && Accepted(rs[i])
    decreases |rs|
  {
    if rs != [] {
      SubmittedAfterIff(submitted || Accepted(rs[0]), rs[1..]);
      if exists i :: 0 <= i < |rs[1..]| && Accepted(rs[1..][i]) {
        var i :| 0 <= i < |rs[1..]| && Accepted(rs[1..][i]);
        assert Accepted(rs[i + 1]);
      }
      if exists i :: 0 <= i < |rs| && Accepted(rs[i]) {
        var i :| 0 <= i < |rs| && Accepted(rs[i]);
        if i > 0 {
          assert Accepted(rs[1..][i - 1]);
        }
      }
    }
  }

  /** The agent's states as the voice-assistant hook reports them. */
  datatype AgentState = Disconnected | Connecting | Initializing | Listening | Thinking | Speaking

  /** `isAgentAvailable`: the agent is in a conversation turn. */
  predicate IsAgentAvailable(s: AgentState)
  {
    s == Listening || s == Thinking || s == Speaking
  }

  /** The agent is available exactly once the session is past connecting and initializing. */
  lemma AgentAvailability(s: AgentState)
    ensures IsAgentAvailable(s) <==> !(s.Disconnected? || s.Connecting? || s.Initializing?)
  {
  }
}
