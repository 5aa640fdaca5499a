/** The user's subscriptions page: it loads the subscription tiers and the user's
    membership, opens a free-membership or a payment dialog when a tier is chosen,
    records a paid subscription once the payment provider approves it, cancels a
    membership and redeems sponsor codes. Every API and payment-provider result is
    an input; the snackbar is the sequence `notices`; `reloads` counts the calls
    to `reloadData`, each of which starts a fresh `fetchSubscriptions`. */
module Subscriptions {
  import opened Api

  /** A subscription tier as the API lists it (only the fields the page reads). */
  datatype Tier = Tier(title: string, price: string, planId: string)

  /** `membershipSelectedState`: the tier chosen for checkout. */
  datatype Selection = Selection(price: string, planId: string)

  /** The tier title that selects the free membership instead of checkout. */
  const FreeTitle: string := "Free Membership"

  /** The data of a successful `fetchSubscriptions`. */
  datatype FetchData = FetchData(subscriptions: seq<Tier>, userMembership: string)

  /** What the payment button hands to `onApprove`: `details.orderID` and
      `details.subscriptionID`. */
  datatype Approval = Approval(orderId: string, subscriptionId: string)

  /** What the provider's `actions.subscription.get()` resolves to: `plan_id`,
      `start_time` and `billing_info.next_billing_time`. */
  datatype ProviderSubscription = ProviderSubscription(planId: string, startTime: string, nextBillingTime: string)

  /** The user API calls the page makes. */
  datatype Request =
    | FetchSubscriptions(userId: string)
    | CreateSubscription(userId: string, planId: string, orderId: string, startTime: string,
                         subscriptionId: string, nextBilling: string)
    | CancelSubscription(userId: string)
    | GetSponsor(userId: string, code: string, duration: string, durationPick: string)

  const PaymentCompleted: Notice := Notice("Your payment and subscription completed successfully", Success)
  const PaymentAttemptCancelled: Notice :=
    Notice("Your payment attempt to the memebership has been cancelled", Info)

  /** Everything the page holds, together with what it has emitted so far. */
  datatype View = View(
    isLoading: bool,
    showFreeDialog: bool,
    showPaymentDialog: bool,
    subscriptions: seq<Tier>,
    membership: string,
    selected: Selection,
    notices: seq<Notice>,
    requests: seq<Request>,
    reloads: nat)

  /** The page as first rendered: loading, no dialog, nothing listed or selected. */
  const Initial: View := View(true, false, false, [], "", Selection("", ""), [], [], 0)

  predicate SameDialogs(a: View, b: View)
  {
    a.showFreeDialog == b.showFreeDialog && a.showPaymentDialog == b.showPaymentDialog
  }

  predicate SameData(a: View, b: View)
  {
    a.subscriptions == b.subscriptions && a.membership == b.membership && a.selected == b.selected
  }

  /** `fetchSubscriptions`: on error the list and membership stay and the error is
      reported; on success both are replaced by the response. Either way loading ends. */
  function Fetched(v: View, userId: string, result: ApiResult<FetchData>): (r: View)
    ensures r.requests == v.requests + [FetchSubscriptions(userId)]
    ensures !r.isLoading
    ensures result.error ==>
      && r.subscriptions == v.subscriptions && r.membership == v.membership
      && r.notices == v.notices + [Notice(result.message, Error)]
    ensures !result.error ==>
      && r.subscriptions == result.data.subscriptions
      && r.membership == result.data.userMembership
      && r.notices == v.notices
    ensures SameDialogs(r, v) && r.selected == v.selected && r.reloads == v.reloads
  {
    var v := v.(requests := v.requests + [FetchSubscriptions(userId)]);
    if result.error then
      v.(isLoading := false, notices := v.notices + [Notice(result.message, Error)])
    else
      v.(subscriptions := result.data.subscriptions, membership := result.data.userMembership,
         isLoading := false)
  }

  /** `onGetMembership`: the free tier, recognised by its title alone, opens the
      free dialog; any other tier becomes the selection and opens checkout. */
  function TierSelected(v: View, tier: Tier): (r: View)
    ensures tier.title == FreeTitle ==>
      r.showFreeDialog && r.showPaymentDialog == v.showPaymentDialog && r.selected == v.selected
    ensures tier.title != FreeTitle ==>
      && r.showPaymentDialog && r.showFreeDialog == v.showFreeDialog
      && r.selected == Selection(tier.price, tier.planId)
    ensures r.isLoading == v.isLoading && r.subscriptions == v.subscriptions
    ensures r.membership == v.membership
    ensures r.notices == v.notices && r.requests == v.requests && r.reloads == v.reloads
  {
    if tier.title == FreeTitle then
      v.(showFreeDialog := true)
    else
      v.(selected := Selection(tier.price, tier.planId), showPaymentDialog := true)
  }

  /** The create request built from the provider's answers. */
  function CreateRequest(userId: string, approval: Approval, sub: ProviderSubscription): (req: Request)
    ensures req.CreateSubscription? && req.userId == userId
    ensures req.planId == sub.planId && req.startTime == sub.startTime
    ensures req.nextBilling == sub.nextBillingTime
    ensures req.orderId == approval.orderId && req.subscriptionId == approval.subscriptionId
    ensures ApprovalOf(req) == (approval, sub)
  {
    CreateSubscription(userId, sub.planId, approval.orderId, sub.startTime,
                       approval.subscriptionId, sub.nextBillingTime)
  }

  /** What a create request says the provider approved. */
  function ApprovalOf(req: Request): (Approval, ProviderSubscription)
    requires req.CreateSubscription?
  {
    (Approval(req.orderId, req.subscriptionId),
     ProviderSubscription(req.planId, req.startTime, req.nextBilling))
  }

  /** `onSuccessPayment` once the provider's subscription is known: it announces the
      payment, records the subscription, then reports the API's answer. Only a
      success closes checkout and reloads. */
  function PaymentApproved(v: View, userId: string, approval: Approval, sub: ProviderSubscription,
                           result: ApiResult<()>): (r: View)
    ensures r.requests == v.requests + [CreateRequest(userId, approval, sub)]
    ensures r.notices == v.notices + [PaymentCompleted, Report(result)]
    ensures !r.isLoading
    ensures r.showPaymentDialog <==> v.showPaymentDialog && result.error
    ensures r.reloads == if result.error then v.reloads else v.reloads + 1
    ensures r.showFreeDialog == v.showFreeDialog && SameData(r, v)
  {
    var v := v.(notices := v.notices + [PaymentCompleted], isLoading := true);
    var v := v.(requests := v.requests + [CreateRequest(userId, approval, sub)]);
    if result.error then
      v.(isLoading := false, notices := v.notices + [Notice(result.message, Error)])
    else
      v.(isLoading := false, showPaymentDialog := false,
         notices := v.notices + [Notice(result.message, Success)], reloads := v.reloads + 1)
  }

  /** `onCancelSubscription` (also the free dialog's YES): an error leaves both
      dialogs as they were; a success closes both and reloads once. */
  function Cancelled(v: View, userId: string, result: ApiResult<()>): (r: View)
    ensures r.requests == v.requests + [CancelSubscription(userId)]
    ensures r.notices == v.notices + [Report(result)]
    ensures !r.isLoading
    ensures result.error ==> SameDialogs(r, v) && r.reloads == v.reloads
    ensures !result.error ==> !r.showFreeDialog && !r.showPaymentDialog && r.reloads == v.reloads + 1
    ensures SameData(r, v)
  {
    var v := v.(isLoading := true, requests := v.requests + [CancelSubscription(userId)]);
    if result.error then
      v.(isLoading := false, notices := v.notices + [Notice(result.message, Error)])
    else
      v.(isLoading := false, showFreeDialog := false, showPaymentDialog := false,
         notices := v.notices + [Notice(result.message, Success)], reloads := v.reloads + 1)
  }

  /** `onGetSponsorCode` as written: the error branch does not return, so a failed
      redemption reports the error, then reports the same message as a success
      and reloads, exactly like a successful one. */
  function SponsorRedeemed(v: View, userId: string, code: string, duration: string,
                           durationPick: string, result: ApiResult<()>): (r: View)
    ensures r.requests == v.requests + [GetSponsor(userId, code, duration, durationPick)]
    ensures result.error ==>
      r.notices == v.notices + [Notice(result.message, Error), Notice(result.message, Success)]
    ensures !result.error ==> r.notices == v.notices + [Notice(result.message, Success)]
    ensures !r.isLoading && r.reloads == v.reloads + 1
    ensures SameDialogs(r, v) && SameData(r, v)
  {
    var v := v.(isLoading := true, requests := v.requests + [GetSponsor(userId, code, duration, durationPick)]);
    var v := if result.error
      then v.(isLoading := false, notices := v.notices + [Notice(result.message, Error)])
      else v;
    v.(isLoading := false, notices := v.notices + [Notice(result.message, Success)],
       reloads := v.reloads + 1)
  }

  /** The payment dialog's `onClose`: only that dialog's flag changes. */
  function PaymentDialogClosed(v: View): (r: View)
    ensures !r.showPaymentDialog
    ensures r.showFreeDialog == v.showFreeDialog && r.isLoading == v.isLoading && SameData(r, v)
    ensures r.notices == v.notices && r.requests == v.requests && r.reloads == v.reloads
  {
    v.(showPaymentDialog := false)
  }

  /** The free dialog's `onClose` and its NO button: only that dialog's flag changes. */
  function FreeDialogClosed(v: View): (r: View)
    ensures !r.showFreeDialog
    ensures r.showPaymentDialog == v.showPaymentDialog && r.isLoading == v.isLoading && SameData(r, v)
    ensures r.notices == v.notices && r.requests == v.requests && r.reloads == v.reloads
  {
    v.(showFreeDialog := false)
  }

  /** The payment button's error and cancel callbacks only notify. */
  function Notified(v: View, n: Notice): (r: View)
    ensures r.notices == v.notices + [n]
    ensures SameDialogs(r, v) && SameData(r, v) && r.isLoading == v.isLoading
    ensures r.requests == v.requests && r.reloads == v.reloads
  {
    v.(notices := v.notices + [n])
  }

  /** One handler of the page run to completion, with the results it awaited. */
  datatype Event =
    | Fetch(userId: string, fetched: ApiResult<FetchData>)
    | GetMembership(tier: Tier)
    | ApprovePayment(userId: string, approval: Approval, sub: ProviderSubscription, result: ApiResult<()>)
    | Cancel(userId: string, result: ApiResult<()>)
    | RedeemSponsor(userId: string, code: string, duration: string, durationPick: string, result: ApiResult<()>)
    | ClosePaymentDialog
    | CloseFreeDialog
    | PaymentError(message: string)
    | PaymentCancel

  function Step(v: View, e: Event): View
  {
    match e
    case Fetch(userId, fetched) => Fetched(v, userId, fetched)
    case GetMembership(tier) => TierSelected(v, tier)
    case ApprovePayment(userId, approval, sub, result) => PaymentApproved(v, userId, approval, sub, result)
    case Cancel(userId, result) => Cancelled(v, userId, result)
    case RedeemSponsor(userId, code, duration, pick, result) => SponsorRedeemed(v, userId, code, duration, pick, result)
    case ClosePaymentDialog => PaymentDialogClosed(v)
    case CloseFreeDialog => FreeDialogClosed(v)
    case PaymentError(message) => Notified(v, Notice(message, Error))
    case PaymentCancel => Notified(v, PaymentAttemptCancelled)
  }

  function Run(v: View, events: seq<Event>): View
    decreases |events|
  {
    if events == [] then v else Run(Step(v, events[0]), events[1..])
  }

  /** Events that finish a call to the API (and so end with loading cleared). */
  predicate CallsApi(e: Event)
  {
    e.Fetch? || e.ApprovePayment? || e.Cancel? || e.RedeemSponsor?
  }

  /** Once the first load is over, no handler leaves the spinner on: every API
      handler clears it and the others leave it alone. */
  lemma {:induction false} LoadingStaysCleared(v: View, events: seq<Event>)
    requires !v.isLoading || (events != [] && CallsApi(events[0]))
    ensures !Run(v, events).isLoading
    decreases |events|
  {
    if events != [] {
      var next := Step(v, events[0]);
      assert !next.isLoading;
      LoadingStaysCleared(next, events[1..]);
    }
  }

  /** Notifications and requests are only ever appended: a run never drops or
      rewrites what was already shown or sent. */
  lemma {:induction false} HistoryOnlyGrows(v: View, events: seq<Event>)
    ensures v.notices <= Run(v, events).notices
    ensures v.requests <= Run(v, events).requests
    ensures v.reloads <= Run(v, events).reloads
    decreases |events|
  {
    if events != [] {
      var next := Step(v, events[0]);
      assert v.notices <= next.notices && v.requests <= next.requests;
      HistoryOnlyGrows(next, events[1..]);
    }
  }

  /** The selection a run ends with: the last tier chosen that is not the free
      one, or the starting selection when there is none. */
  function SelectionAfter(selected: Selection, events: seq<Event>): Selection
    decreases |events|
  {
    if events == [] then selected
    else
      var e := events[0];
      SelectionAfter(
        if e.GetMembership? && e.tier.title != FreeTitle then Selection(e.tier.price, e.tier.planId)
        else selected,
        events[1..])
  }

  /** Only choosing a paid tier changes the selection, and the checkout's
      `plan_id` (the selection's `planId`) is the last paid tier chosen. */
  lemma {:induction false} RunSelection(v: View, events: seq<Event>)
    ensures Run(v, events).selected == SelectionAfter(v.selected, events)
    decreases |events|
  {
    if events != [] {
      var e := events[0];
      var next := Step(v, e);
      assert next.selected ==
        if e.GetMembership? && e.tier.title != FreeTitle then Selection(e.tier.price, e.tier.planId)
        else v.selected;
      RunSelection(next, events[1..]);
    }
  }

  /** A tier is chosen for checkout. */
  predicate ChoosesPaidTier(e: Event)
  {
    e.GetMembership? && e.tier.title != FreeTitle
  }

  /** The payment dialog is never opened except by choosing a tier not titled
      "Free Membership". */
  lemma {:induction false} PaymentDialogOpensOnlyOnPaidTier(v: View, events: seq<Event>)
    requires !v.showPaymentDialog
    requires Run(v, events).showPaymentDialog
    ensures exists i :: 0 <= i < |events| && ChoosesPaidTier(events[i])
    decreases |events|
  {
    if events == [] {
    } else {
      var next := Step(v, events[0]);
      if ChoosesPaidTier(events[0]) {
        assert ChoosesPaidTier(events[0]);
      } else {
        assert !next.showPaymentDialog;
        PaymentDialogOpensOnlyOnPaidTier(next, events[1..]);
        var i :| 0 <= i < |events[1..]| && ChoosesPaidTier(events[1..][i]);
        assert ChoosesPaidTier(events[i + 1]);
      }
    }
  }

  /** The free-membership dialog is never opened except by choosing the tier titled
      "Free Membership". */
  lemma {:induction false} FreeDialogOpensOnlyOnFreeTier(v: View, events: seq<Event>)
    requires !v.showFreeDialog
    requires Run(v, events).showFreeDialog
    ensures exists i :: 0 <= i < |events| && events[i].GetMembership? && events[i].tier.title == FreeTitle
    decreases |events|
  {
    if events != [] {
      var e := events[0];
      if !(e.GetMembership? && e.tier.title == FreeTitle) {
        var next := Step(v, e);
        assert !next.showFreeDialog;
        FreeDialogOpensOnlyOnFreeTier(next, events[1..]);
        var i :| 0 <= i < |events[1..]| && events[1..][i].GetMembership? && events[1..][i].tier.title == FreeTitle;
        assert events[i + 1] == events[1..][i];
      }
    }
  }

  /** Does the handler call `reloadData`? Successful cancellations and payments
      do; a sponsor redemption always does, whatever the API answered. */
  predicate Reloads(e: Event)
  {
    || (e.ApprovePayment? && !e.result.error)
    || (e.Cancel? && !e.result.error)
    || e.RedeemSponsor?
  }

  function ReloadCount(events: seq<Event>): nat
    decreases |events|
  {
    if events == [] then 0 else (if Reloads(events[0]) then 1 else 0) + ReloadCount(events[1..])
  }

  /** Every reload of a run comes from one handler that reloads, and each of
      those reloads exactly once. */
  lemma {:induction false} RunReloads(v: View, events: seq<Event>)
    ensures Run(v, events).reloads == v.reloads + ReloadCount(events)
    decreases |events|
  {
    if events != [] {
      var next := Step(v, events[0]);
      assert next.reloads == v.reloads + (if Reloads(events[0]) then 1 else 0);
      RunReloads(next, events[1..]);
    }
  }

  /** The page component: its state hooks plus what it has emitted. */
  class SubscriptionsList {
    var isLoading: bool
    var showFreeDialog: bool
    var showPaymentDialog: bool
    var subscriptions: seq<Tier>
    var membership: string
    var selected: Selection
    var notices: seq<Notice>
    var requests: seq<Request>
    var reloads: nat

    function Snapshot(): View
      reads this
    {
      View(isLoading, showFreeDialog, showPaymentDialog, subscriptions, membership,
           selected, notices, requests, reloads)
    }

    constructor ()
      ensures Snapshot() == Initial
    {
      isLoading := true;
      showFreeDialog := false;
      showPaymentDialog := false;
      subscriptions := [];
      membership := "";
      selected := Selection("", "");
      notices := [];
      requests := [];
      reloads := 0;
    }

    /** Run on mount and by every `reloadData`. */
    method FetchSubscriptions(userId: string, result: ApiResult<FetchData>)
      modifies this
      ensures Snapshot() == Fetched(old(Snapshot()), userId, result)
    {
      requests := requests + [Request.FetchSubscriptions(userId)];
      if result.error {
        isLoading := false;
        notices := notices + [Notice(result.message, Error)];
        return;
      }
      subscriptions := result.data.subscriptions;
      membership := result.data.userMembership;
      isLoading := false;
    }

    method OnGetMembership(tier: Tier)
      modifies this
      ensures Snapshot() == TierSelected(old(Snapshot()), tier)
    {
      if tier.title == FreeTitle {
        showFreeDialog := true;
      } else {
        selected := Selection(tier.price, tier.planId);
        showPaymentDialog := true;
      }
    }

    /** `onSuccessPayment`, from the point the provider's subscription is known. */
    method OnSuccessPayment(userId: string, approval: Approval, sub: ProviderSubscription,
                            result: ApiResult<()>)
      modifies this
      ensures Snapshot() == PaymentApproved(old(Snapshot()), userId, approval, sub, result)
    {
      notices := notices + [PaymentCompleted];
      isLoading := true;
      requests := requests + [CreateRequest(userId, approval, sub)];
      if result.error {
        isLoading := false;
        notices := notices + [Notice(result.message, Error)];
      } else {
        isLoading := false;
        showPaymentDialog := false;
        notices := notices + [Notice(result.message, Success)];
        ReloadData();
      }
    }

    method OnCancelSubscription(userId: string, result: ApiResult<()>)
      modifies this
      ensures Snapshot() == Cancelled(old(Snapshot()), userId, result)
    {
      isLoading := true;
      requests := requests + [Request.CancelSubscription(userId)];
      if result.error {
        isLoading := false;
        notices := notices + [Notice(result.message, Error)];
      } else {
        isLoading := false;
        showFreeDialog := false;
        showPaymentDialog := false;
        notices := notices + [Notice(result.message, Success)];
        ReloadData();
      }
    }

    method OnGetSponsorCode(userId: string, code: string, duration: string, durationPick: string,
                            result: ApiResult<()>)
      modifies this
      ensures Snapshot() == SponsorRedeemed(old(Snapshot()), userId, code, duration, durationPick, result)
    {
      isLoading := true;
      requests := requests + [GetSponsor(userId, code, duration, durationPick)];
      if result.error {
        isLoading := false;
        notices := notices + [Notice(result.message, Error)];
      }
      isLoading := false;
      notices := notices + [Notice(result.message, Success)];
      ReloadData();
    }

    /** `reloadData` starts a fetch whose answer arrives as a later `FetchSubscriptions`. */
    method ReloadData()
      modifies this`reloads
      ensures reloads == old(reloads) + 1
    {
      reloads := reloads + 1;
    }

    method OnClosePaymentDialog()
      modifies this`showPaymentDialog
      ensures Snapshot() == PaymentDialogClosed(old(Snapshot()))
    {
      showPaymentDialog := false;
    }

    /** The free dialog's `onClose` and its NO button. */
    method OnCloseFreeDialog()
      modifies this`showFreeDialog
      ensures Snapshot() == FreeDialogClosed(old(Snapshot()))
    {
      showFreeDialog := false;
    }

    /** The payment button's `onError` and `catchError`. */
    method OnPaymentError(message: string)
      modifies this`notices
      ensures Snapshot() == Notified(old(Snapshot()), Notice(message, Error))
    {
      notices := notices + [Notice(message, Error)];
    }

    method OnPaymentCancel()
      modifies this`notices
      ensures Snapshot() == Notified(old(Snapshot()), PaymentAttemptCancelled)
    {
      notices := notices + [PaymentAttemptCancelled];
    }
  }
}
