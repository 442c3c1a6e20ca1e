/** What each handler of bot.py does to one user's FSM session and which
    transport calls it makes, as functions of the session before the update.
    The session is aiogram's per-user FSM record: a state (`None`,
    `OrderStates.choosing_service` or `OrderStates.waiting_phone`) and a data
    dictionary that only ever holds `service_name` and `price_from`. */
module Conversation {
  import opened Wrappers
  import Catalog
  import Tokens
  import Keyboard
  import Phone

  type UserId = int

  datatype State = Idle | ChoosingService | WaitingPhone

  /** The FSM data dictionary: each key present or absent. */
  datatype OrderData = OrderData(serviceName: Option<string>, priceFrom: Option<nat>)

  datatype Session = Session(state: State, data: OrderData)

  const NoData: OrderData := OrderData(None, None)

  /** What `state.clear()` leaves behind: no state, empty data. */
  const Cleared: Session := Session(Idle, NoData)

  /** The sender of an update: numeric id and optional Telegram username. */
  datatype User = User(id: UserId, username: Option<string>)

  /** What a message carries: text, a shared contact card, or anything else. */
  datatype Content = Text(text: string) | Contact(phoneNumber: string) | OtherContent

  datatype Update =
    | Message(from: User, content: Content)
    | Callback(from: User, data: string)

  /** The messages the bot renders, without their wording. */
  datatype Reply =
    | WelcomeMenu              // welcome text with the main keyboard
    | ServiceMenu(buttons: seq<Keyboard.Button>)
    | PhoneRequest             // phone prompt with the share-contact keyboard
    | InvalidPhone             // re-prompt after a rejected phone
    | OrderAccepted            // success text with the main keyboard
    | OrderCancelled           // cancellation text with the main keyboard

  /** The transport calls a handler makes, in order. */
  datatype Output =
    | Answer(reply: Reply)                     // message.answer
    | EditText(reply: Reply)                   // callback.message.edit_text
    | InvalidChoiceAlert                       // callback.answer("invalid choice")
    | NotifyOwner(chat: string, handle: string, userId: UserId,
                  phone: string, serviceName: string, priceFrom: nat)   // bot.send_message to the owner

  /** Exceptions that abort a handler: a missing data key, or a failed owner notification. */
  datatype Fault = MissingField | DeliveryFailed

  datatype Effect = Effect(session: Session, outs: seq<Output>, fault: Option<Fault>)

  /** `if owner_id:` — set and not the empty string. */
  predicate OwnerConfigured(owner: Option<string>)
  {
    owner.Some? && owner.value != ""
  }

  /** `message.from_user.username or "—"`. */
  function DisplayHandle(u: User): (handle: string)
    ensures handle != ""
    ensures handle != "—" ==> u.username == Some(handle)
    ensures u.username.Some? && u.username.value != "" ==> handle == u.username.value
  {
    if u.username.Some? && u.username.value != "" then u.username.value else "—"
  }

  predicate HasOrder(d: OrderData)
  {
    d.serviceName.Some? && d.priceFrom.Some?
  }

  /** The invariant the handlers rely on: waiting for a phone implies a stored service. */
  predicate WellFormed(s: Session)
  {
    s.state == WaitingPhone ==> HasOrder(s.data)
  }

  function NotifyCount(outs: seq<Output>): nat
  {
    if outs == [] then 0 else (if outs[0].NotifyOwner? then 1 else 0) + NotifyCount(outs[1..])
  }

  lemma {:induction false} NotifyCountAppend(a: seq<Output>, b: seq<Output>)
    ensures NotifyCount(a + b) == NotifyCount(a) + NotifyCount(b)
  {
    if a == [] {
      assert a + b == b;
    } else {
      assert (a + b)[1..] == a[1..] + b;
      NotifyCountAppend(a[1..], b);
    }
  }

  /** `welcome`: clear the session, show the welcome menu. */
  function WelcomeStep(s: Session): (r: Effect)
    ensures r.session == Cleared && NotifyCount(r.outs) == 0 && r.fault.None?
  {
    Effect(Cleared, [Answer(WelcomeMenu)], None)
  }

  /** `start_order`: show the service menu and enter `choosing_service`; data is kept. */
  function StartOrderStep(s: Session): (r: Effect)
    ensures r.session.state == ChoosingService && r.session.data == s.data
    ensures WellFormed(r.session) && NotifyCount(r.outs) == 0 && r.fault.None?
  {
    Effect(Session(ChoosingService, s.data), [EditText(ServiceMenu(Keyboard.ServiceKeyboard()))], None)
  }

  /** `choose_service`: look the key up; an unknown key only alerts, a known one
      stores that entry's name and price and asks for the phone. */
  function ChooseServiceStep(s: Session, data: string): (r: Effect)
    requires Tokens.IsServiceToken(data)
    ensures !Catalog.Listed(Catalog.Services, Tokens.ServiceKey(data)) ==>
              r.session == s && r.outs == [InvalidChoiceAlert]
    ensures Catalog.Listed(Catalog.Services, Tokens.ServiceKey(data)) ==>
              exists e :: e in Catalog.Services && e.key == Tokens.ServiceKey(data) &&
                r.session == Session(WaitingPhone, OrderData(Some(e.name), Some(e.priceFrom)))
    ensures WellFormed(s) ==> WellFormed(r.session)
    ensures NotifyCount(r.outs) == 0 && r.fault.None?
  {
    match Catalog.Lookup(Tokens.ServiceKey(data))
    case None => Effect(s, [InvalidChoiceAlert], None)
    case Some(e) =>
      Effect(Session(WaitingPhone, OrderData(Some(e.name), Some(e.priceFrom))), [Answer(PhoneRequest)], None)
  }

  /** `_process_order`: read the stored service, notify the owner when one is
      configured, acknowledge the user and clear the session. A missing key or a
      failed notification raises before the session is cleared. */
  function FinaliseStep(owner: Option<string>, delivered: bool, from: User, s: Session, phone: string): (r: Effect)
    ensures NotifyCount(r.outs) <= 1
    ensures NotifyCount(r.outs) == 1 <==> HasOrder(s.data) && OwnerConfigured(owner)
    ensures forall o :: o in r.outs && o.NotifyOwner? ==>
              HasOrder(s.data) && OwnerConfigured(owner) &&
              o == NotifyOwner(owner.value, DisplayHandle(from), from.id, phone, s.data.serviceName.value, s.data.priceFrom.value)
    ensures r.fault.None? <==> HasOrder(s.data) && (delivered || !OwnerConfigured(owner))
    ensures r.fault.None? ==> r.session == Cleared && |r.outs| > 0 && r.outs[|r.outs| - 1] == Answer(OrderAccepted)
    ensures r.fault.Some? ==> r.session == s && Answer(OrderAccepted) !in r.outs
  {
    if !HasOrder(s.data) then Effect(s, [], Some(MissingField))
    else
      var notify :=
        if OwnerConfigured(owner)
        then [NotifyOwner(owner.value, DisplayHandle(from), from.id, phone, s.data.serviceName.value, s.data.priceFrom.value)]
        else [];
      if OwnerConfigured(owner) && !delivered then Effect(s, notify, Some(DeliveryFailed))
      else
        NotifyCountAppend(notify, [Answer(OrderAccepted)]);
        Effect(Cleared, notify + [Answer(OrderAccepted)], None)
  }

  /** `phone_from_text`: strip the text; with fewer than ten digits re-prompt and
      change nothing, otherwise finalise with the stripped text as the phone. */
  function PhoneTextStep(owner: Option<string>, delivered: bool, from: User, s: Session, text: string): (r: Effect)
    ensures !Phone.Accepted(text) ==> r == Effect(s, [Answer(InvalidPhone)], None)
    ensures Phone.Accepted(text) ==> r == FinaliseStep(owner, delivered, from, s, Phone.Strip(text))
  {
    var phone := Phone.Strip(text);
    Phone.AcceptedIffEnoughDigits(text);
    if !Phone.HasEnoughDigits(phone) then Effect(s, [Answer(InvalidPhone)], None)
    else FinaliseStep(owner, delivered, from, s, phone)
  }

  /** `cancel`: clear the session and show the cancellation text. */
  function CancelStep(s: Session): (r: Effect)
    ensures r.session == Cleared && NotifyCount(r.outs) == 0 && r.fault.None?
  {
    Effect(Cleared, [EditText(OrderCancelled)], None)
  }

  /** A waiting session always carries its service, so finalisation never hits a missing key. */
  lemma FinaliseNeverMissesField(owner: Option<string>, delivered: bool, from: User, s: Session, phone: string)
    requires WellFormed(s) && s.state == WaitingPhone
    ensures FinaliseStep(owner, delivered, from, s, phone).fault != Some(MissingField)
  {
  }
}
