/**
  The signup section at the bottom of the page: three tabs (founder,
  waitlist, interested), an email form whose submission is routed by tab, a
  payment-method modal for founders, and an "I'm just interested" button.
  Network calls are split into the request that is sent and a later
  `Settle` that receives its outcome (success or failure).
 */
module ConversionCTA {
  import opened Prelude

  datatype Status = Idle | Success | Error

  datatype Tab = Waitlist | Founder | Interested

  function TabName(tab: Tab): string
  {
    match tab
    case Waitlist => "waitlist"
    case Founder => "founder"
    case Interested => "interested"
  }

  /** The screens of the payment modal. */
  datatype PayStep = Select | GPay | PayPal

  /** A registration request: the `email` and `type` fields of the posted body; `type` is the tab's name. */
  datatype Request = Request(email: string, kind: string)

  /** Where a form submission goes. */
  datatype Route = Reject | OpenPaymentModal | Send

  /**
    `handleFormSubmit`: an empty email is rejected, a founder is sent to the
    payment modal, anyone else is registered directly.
   */
  function RouteOf(email: string, tab: Tab): (r: Route)
    ensures r == Reject <==> email == ""
    ensures r == OpenPaymentModal <==> email != "" && tab == Founder
    ensures r == Send <==> email != "" && tab != Founder
  {
    if email == "" then Reject
    else if tab == Founder then OpenPaymentModal
    else Send
  }

  /** The status after an edit of the email field: an error is cleared, anything else kept. */
  function EditedStatus(status: Status): (r: Status)
    ensures r != Error
    ensures status == Error ==> r == Idle
    ensures status != Error ==> r == status
  {
    if status == Error then Idle else status
  }

  /** The status a settled registration request leaves behind. */
  function SettledStatus(ok: bool): (r: Status)
    ensures r == Success <==> ok
    ensures r == Error <==> !ok
  {
    if ok then Success else Error
  }

  class Signup {
    var email: string
    var status: Status
    var isLoading: bool
    var activeTab: Tab
    var showPaymentModal: bool
    /** The `step` of the payment modal; it starts again from `Select` whenever the modal is opened. */
    var modalStep: PayStep
    /** Registration requests sent and not yet answered, oldest first. */
    var inFlight: seq<Request>
    /** "interested" tracking calls sent and not yet answered. */
    var trackingInFlight: nat

    /** The spinner is shown only while some registration request is unanswered. */
    ghost predicate Valid()
      reads this
    {
      isLoading ==> |inFlight| > 0
    }

    constructor ()
      ensures Valid()
      ensures email == "" && status == Idle && !isLoading && activeTab == Founder
      ensures !showPaymentModal && modalStep == Select
      ensures inFlight == [] && trackingInFlight == 0
    {
      email := "";
      status := Idle;
      isLoading := false;
      activeTab := Founder;
      showPaymentModal := false;
      modalStep := Select;
      inFlight := [];
      trackingInFlight := 0;
    }

    /** `submitData` up to its `await`: the spinner starts, the status is reset and the request goes out. */
    method SubmitData()
      requires Valid()
      modifies this
      ensures Valid()
      ensures isLoading && status == Idle
      ensures inFlight == old(inFlight) + [Request(email, TabName(activeTab))]
      ensures email == old(email) && activeTab == old(activeTab)
      ensures showPaymentModal == old(showPaymentModal) && modalStep == old(modalStep)
      ensures trackingInFlight == old(trackingInFlight)
    {
      isLoading := true;
      status := Idle;
      inFlight := inFlight + [Request(email, TabName(activeTab))];
    }

    /** `handleFormSubmit`; the form is rendered on the waitlist and founder tabs only. */
    method SubmitForm()
      requires Valid()
      requires activeTab != Tab.Interested
      modifies this
      ensures Valid()
      ensures email == old(email) && activeTab == old(activeTab)
      ensures trackingInFlight == old(trackingInFlight)
      ensures RouteOf(old(email), old(activeTab)) == Reject ==>
                && status == Error
                && inFlight == old(inFlight)
                && isLoading == old(isLoading)
                && showPaymentModal == old(showPaymentModal)
                && modalStep == old(modalStep)
      ensures RouteOf(old(email), old(activeTab)) == OpenPaymentModal ==>
                && showPaymentModal
                && modalStep == (if old(showPaymentModal) then old(modalStep) else Select)
                && status == old(status)
                && inFlight == old(inFlight)
                && isLoading == old(isLoading)
      ensures RouteOf(old(email), old(activeTab)) == Send ==>
                && inFlight == old(inFlight) + [Request(old(email), TabName(old(activeTab)))]
                && isLoading
                && status == Idle
                && showPaymentModal == old(showPaymentModal)
                && modalStep == old(modalStep)
    {
      if email == "" {
        status := Error;
        return;
      }
      if activeTab == Founder {
        if !showPaymentModal {
          modalStep := Select;
        }
        showPaymentModal := true;
      } else {
        SubmitData();
      }
    }

    /**
      The answer to request `i` arrives: on success the status turns to
      success, the email field is emptied and the modal closes; on failure
      (a non-ok response or an exception) the status turns to error and
      the email is kept. Either way the spinner stops.
     */
    method Settle(i: nat, ok: bool)
      requires Valid()
      requires i < |inFlight|
      modifies this
      ensures Valid()
      ensures inFlight == old(inFlight[..i] + inFlight[i + 1..])
      ensures status == SettledStatus(ok)
      ensures !isLoading
      ensures ok ==> email == "" && !showPaymentModal
      ensures !ok ==> email == old(email) && showPaymentModal == old(showPaymentModal)
      ensures activeTab == old(activeTab) && modalStep == old(modalStep)
      ensures trackingInFlight == old(trackingInFlight)
    {
      inFlight := inFlight[..i] + inFlight[i + 1..];
      if ok {
        status := Success;
        email := "";
        showPaymentModal := false;
      } else {
        status := Error;
      }
      isLoading := false;
    }

    /**
      `handleInterested` up to its `await`: the tracking call goes out and
      nothing else changes. Its button is rendered on the interested tab only.
     */
    method Interested()
      requires Valid()
      requires activeTab == Tab.Interested
      modifies this
      ensures Valid()
      ensures trackingInFlight == old(trackingInFlight) + 1
      ensures email == old(email) && status == old(status) && isLoading == old(isLoading)
      ensures activeTab == old(activeTab) && showPaymentModal == old(showPaymentModal)
      ensures modalStep == old(modalStep) && inFlight == old(inFlight)
    {
      trackingInFlight := trackingInFlight + 1;
    }

    /** A tracking call ends, well or badly: the visitor is thanked either way. */
    method SettleTracking(ok: bool)
      requires Valid()
      requires trackingInFlight > 0
      modifies this
      ensures Valid()
      ensures status == Success
      ensures trackingInFlight == old(trackingInFlight) - 1
      ensures email == old(email) && isLoading == old(isLoading) && activeTab == old(activeTab)
      ensures showPaymentModal == old(showPaymentModal) && modalStep == old(modalStep)
      ensures inFlight == old(inFlight)
    {
      trackingInFlight := trackingInFlight - 1;
      status := Success;
    }

    /** A tab button: the tab changes and the status is reset. */
    method SelectTab(tab: Tab)
      requires Valid()
      modifies this
      ensures Valid()
      ensures activeTab == tab && status == Idle
      ensures email == old(email) && isLoading == old(isLoading)
      ensures showPaymentModal == old(showPaymentModal) && modalStep == old(modalStep)
      ensures inFlight == old(inFlight) && trackingInFlight == old(trackingInFlight)
    {
      activeTab := tab;
      status := Idle;
    }

    /** The email field's `onChange`. */
    method EditEmail(text: string)
      requires Valid()
      modifies this
      ensures Valid()
      ensures email == text
      ensures status == EditedStatus(old(status))
      ensures isLoading == old(isLoading) && activeTab == old(activeTab)
      ensures showPaymentModal == old(showPaymentModal) && modalStep == old(modalStep)
      ensures inFlight == old(inFlight) && trackingInFlight == old(trackingInFlight)
    {
      email := text;
      if status == Error {
        status := Idle;
      }
    }

    /** The modal's close button. */
    method CloseModal()
      requires Valid()
      modifies this
      ensures Valid()
      ensures !showPaymentModal
      ensures email == old(email) && status == old(status) && isLoading == old(isLoading)
      ensures activeTab == old(activeTab) && modalStep == old(modalStep)
      ensures inFlight == old(inFlight) && trackingInFlight == old(trackingInFlight)
    {
      showPaymentModal := false;
    }

    /** A payment-method button, offered on the modal's first screen. */
    method ChooseMethod(choice: PayStep)
      requires Valid()
      requires showPaymentModal && modalStep == Select && choice != Select
      modifies this
      ensures Valid()
      ensures modalStep == choice
      ensures email == old(email) && status == old(status) && isLoading == old(isLoading)
      ensures activeTab == old(activeTab) && showPaymentModal == old(showPaymentModal)
      ensures inFlight == old(inFlight) && trackingInFlight == old(trackingInFlight)
    {
      modalStep := choice;
    }

    /** "← Back" on a QR screen: always returns to the method choice. */
    method BackToMethods()
      requires Valid()
      requires showPaymentModal && modalStep != Select
      modifies this
      ensures Valid()
      ensures modalStep == Select
      ensures email == old(email) && status == old(status) && isLoading == old(isLoading)
      ensures activeTab == old(activeTab) && showPaymentModal == old(showPaymentModal)
      ensures inFlight == old(inFlight) && trackingInFlight == old(trackingInFlight)
    {
      modalStep := Select;
    }

    /** "I've Completed Payment" on a QR screen sends the registration. */
    method CompletePayment()
      requires Valid()
      requires showPaymentModal && modalStep != Select
      modifies this
      ensures Valid()
      ensures isLoading && status == Idle
      ensures inFlight == old(inFlight) + [Request(email, TabName(activeTab))]
      ensures email == old(email) && activeTab == old(activeTab)
      ensures showPaymentModal && modalStep == old(modalStep)
      ensures trackingInFlight == old(trackingInFlight)
    {
      SubmitData();
    }
  }

  /**
    A waitlist sign-up: the request carries the address and the tab; on
    success the field is emptied, on failure the address stays for a retry.
   */
  method WaitlistSignup(address: string, ok: bool) returns (sent: seq<Request>, status: Status, left: string)
    requires address != ""
    ensures sent == [Request(address, "waitlist")]
    ensures status == SettledStatus(ok)
    ensures left == (if ok then "" else address)
  {
    var form := new Signup();
    form.SelectTab(Waitlist);
    form.EditEmail(address);
    form.SubmitForm();
    sent := form.inFlight;
    form.Settle(0, ok);
    status, left := form.status, form.email;
  }

  /**
    A founder sign-up goes through the payment modal: nothing is sent until
    "I've Completed Payment", and a successful answer closes the modal.
   */
  method FounderSignup(address: string, choice: PayStep) returns (sentBeforePayment: seq<Request>, sent: seq<Request>, modalOpen: bool, status: Status)
    requires address != "" && choice != Select
    ensures sentBeforePayment == []
    ensures sent == [Request(address, "founder")]
    ensures !modalOpen && status == Success
  {
    var form := new Signup();
    form.EditEmail(address);
    form.SubmitForm();
    sentBeforePayment := form.inFlight;
    form.ChooseMethod(choice);
    form.CompletePayment();
    sent := form.inFlight;
    form.Settle(0, true);
    modalOpen, status := form.showPaymentModal, form.status;
  }

  /** Submitting an empty field on either form tab is an error and sends nothing. */
  method EmptySubmission(tab: Tab) returns (sent: seq<Request>, modalOpen: bool, status: Status)
    requires tab != Interested
    ensures sent == [] && !modalOpen && status == Error
  {
    var form := new Signup();
    form.SelectTab(tab);
    form.SubmitForm();
    sent, modalOpen, status := form.inFlight, form.showPaymentModal, form.status;
  }
}
