/** aiogram's routing made explicit: the handlers in registration order, each
    with the filters it was registered with; an update goes to the first
    handler whose filters match, and an update no handler matches is dropped. */
module Dispatch {
  import opened Wrappers
  import Tokens
  import Phone
  import Keyboard
  import Catalog
  import opened Conversation

  datatype HandlerId = Welcome | StartOrder | ChooseService | PhoneFromContact | PhoneFromText | Cancel

  /** The filters of each handler's decorator. `welcome` has none. */
  predicate Matches(h: HandlerId, st: State, up: Update)
  {
    match h
    case Welcome => up.Message?
    case StartOrder => up.Callback? && up.data == Tokens.StartToken
    case ChooseService => up.Callback? && st == ChoosingService && Tokens.IsServiceToken(up.data)
    case PhoneFromContact => up.Message? && st == WaitingPhone && up.content.Contact?
    case PhoneFromText => up.Message? && st == WaitingPhone && up.content.Text? && up.content.text != ""
    case Cancel => up.Callback? && up.data == Tokens.CancelToken
  }

  /** The order in which bot.py registers its handlers. */
  const Registered: seq<HandlerId> := [Welcome, StartOrder, ChooseService, PhoneFromContact, PhoneFromText, Cancel]

  /** The same handlers with the filterless catch-all registered last. */
  const Intended: seq<HandlerId> := [StartOrder, ChooseService, PhoneFromContact, PhoneFromText, Cancel, Welcome]

  /** Index of the first handler whose filters match. */
  function FirstMatch(table: seq<HandlerId>, st: State, up: Update): (r: Option<nat>)
    ensures r.Some? ==> r.value < |table| && Matches(table[r.value], st, up)
    ensures r.Some? ==> forall j :: 0 <= j < r.value ==> !Matches(table[j], st, up)
    ensures r.None? ==> forall j :: 0 <= j < |table| ==> !Matches(table[j], st, up)
  {
    if table == [] then None
    else if Matches(table[0], st, up) then Some(0)
    else
      match FirstMatch(table[1..], st, up)
      case None => None
      case Some(i) => Some(i + 1)
  }

  function Route(table: seq<HandlerId>, st: State, up: Update): (r: Option<HandlerId>)
    ensures r.Some? ==> r.value in table && Matches(r.value, st, up)
    ensures r.None? <==> forall h :: h in table ==> !Matches(h, st, up)
  {
    match FirstMatch(table, st, up)
    case None => None
    case Some(i) => Some(table[i])
  }

  /** The handler at index i is chosen when it matches and no earlier one does. */
  lemma RouteAt(table: seq<HandlerId>, st: State, up: Update, i: nat)
    requires i < |table| && Matches(table[i], st, up)
    requires forall j :: 0 <= j < i ==> !Matches(table[j], st, up)
    ensures Route(table, st, up) == Some(table[i])
  {
  }

  /** The body of one handler, given that its filters matched. */
  function Run(h: HandlerId, owner: Option<string>, delivered: bool, s: Session, up: Update): (r: Effect)
    requires Matches(h, s.state, up)
    ensures WellFormed(s) ==> WellFormed(r.session) && r.fault != Some(MissingField)
    ensures NotifyCount(r.outs) <= 1
    ensures NotifyCount(r.outs) == 1 ==>
              OwnerConfigured(owner) &&
              (h == PhoneFromContact || (h == PhoneFromText && Phone.Accepted(up.content.text)))
  {
    match h
    case Welcome => WelcomeStep(s)
    case StartOrder => StartOrderStep(s)
    case ChooseService => ChooseServiceStep(s, up.data)
    case PhoneFromContact => FinaliseStep(owner, delivered, up.from, s, up.content.phoneNumber)
    case PhoneFromText =>
      var r := PhoneTextStep(owner, delivered, up.from, s, up.content.text);
      assert !Phone.Accepted(up.content.text) ==> NotifyCount(r.outs) == 0;
      r
    case Cancel => CancelStep(s)
  }

  /** One update of one user against that user's session. */
  function Feed(table: seq<HandlerId>, owner: Option<string>, delivered: bool, s: Session, up: Update): (r: Effect)
    ensures WellFormed(s) ==> WellFormed(r.session) && r.fault != Some(MissingField)
    ensures NotifyCount(r.outs) <= 1
    ensures NotifyCount(r.outs) == 1 ==>
              OwnerConfigured(owner) && s.state == WaitingPhone && up.Message? &&
              (up.content.Contact? || (up.content.Text? && Phone.Accepted(up.content.text)))
    ensures Route(table, s.state, up).None? ==> r.session == s && r.outs == [] && r.fault.None?
  {
    match Route(table, s.state, up)
    case None => Effect(s, [], None)
    case Some(h) => Run(h, owner, delivered, s, up)
  }

  /** As registered, the filterless `welcome` takes every message, in every state. */
  lemma RegisteredWelcomeTakesMessages(st: State, up: Update)
    requires up.Message?
    ensures Route(Registered, st, up) == Some(Welcome)
  {
  }

  /** As registered, neither phone handler can ever run. */
  lemma RegisteredPhoneHandlersUnreachable(st: State, up: Update)
    ensures Route(Registered, st, up) != Some(PhoneFromContact)
    ensures Route(Registered, st, up) != Some(PhoneFromText)
  {
    if up.Message? {
      RegisteredWelcomeTakesMessages(st, up);
    }
  }

  /** As registered, no update ever reaches the owner: every order is lost. */
  lemma RegisteredNeverNotifies(owner: Option<string>, delivered: bool, s: Session, up: Update)
    ensures NotifyCount(Feed(Registered, owner, delivered, s, up).outs) == 0
  {
    RegisteredPhoneHandlersUnreachable(s.state, up);
  }

  /** With the catch-all last, a non-empty text while waiting reaches `phone_from_text`
      and a contact card reaches `phone_from_contact`. */
  lemma IntendedRoutesPhone(up: Update)
    requires up.Message?
    ensures up.content.Contact? ==> Route(Intended, WaitingPhone, up) == Some(PhoneFromContact)
    ensures up.content.Text? && up.content.text != "" ==> Route(Intended, WaitingPhone, up) == Some(PhoneFromText)
    ensures up.content.OtherContent? ==> Route(Intended, WaitingPhone, up) == Some(Welcome)
  {
    if up.content.Contact? {
      RouteAt(Intended, WaitingPhone, up, 2);
    } else if up.content.Text? && up.content.text != "" {
      RouteAt(Intended, WaitingPhone, up, 3);
    } else if up.content.OtherContent? {
      RouteAt(Intended, WaitingPhone, up, 5);
    }
  }

  /** Outside `waiting_phone`, every message still reaches `welcome`. */
  lemma IntendedWelcomeElsewhere(st: State, up: Update)
    requires up.Message? && st != WaitingPhone
    ensures Route(Intended, st, up) == Some(Welcome)
  {
    RouteAt(Intended, st, up, 5);
  }

  /** A text phone while waiting: rejected without any change, or finalised with the
      stripped text. (`F.text` rejects an empty text, which then falls to `welcome`;
      Telegram never delivers one.) */
  lemma IntendedPhoneText(owner: Option<string>, delivered: bool, s: Session, u: User, text: string)
    requires WellFormed(s) && s.state == WaitingPhone && text != ""
    ensures var r := Feed(Intended, owner, delivered, s, Message(u, Text(text)));
      && (!Phone.Accepted(text) ==> r.session == s && r.outs == [Answer(InvalidPhone)] && r.fault.None?)
      && (Phone.Accepted(text) && (delivered || !OwnerConfigured(owner)) ==>
            r.session == Cleared && r.outs[|r.outs| - 1] == Answer(OrderAccepted))
      && (Phone.Accepted(text) && OwnerConfigured(owner) ==>
            NotifyOwner(owner.value, DisplayHandle(u), u.id, Phone.Strip(text),
                        s.data.serviceName.value, s.data.priceFrom.value) in r.outs)
  {
    var up := Message(u, Text(text));
    IntendedRoutesPhone(up);
    if Phone.Accepted(text) && OwnerConfigured(owner) {
      var r := FinaliseStep(owner, delivered, u, s, Phone.Strip(text));
      assert NotifyCount(r.outs) == 1;
      assert r.outs[0].NotifyOwner?;
    }
  }

  /** With the catch-all last, an accepted text phone sends exactly one owner
      notification and then the acknowledgement, and clears the session. */
  lemma IntendedPhoneAccepted(owner: Option<string>, s: Session, u: User, text: string)
    requires WellFormed(s) && s.state == WaitingPhone && text != ""
    requires Phone.Accepted(text) && OwnerConfigured(owner)
    ensures Feed(Intended, owner, true, s, Message(u, Text(text)))
         == Effect(Cleared, [NotifyOwner(owner.value, DisplayHandle(u), u.id, Phone.Strip(text),
                                         s.data.serviceName.value, s.data.priceFrom.value),
                             Answer(OrderAccepted)], None)
  {
    IntendedRoutesPhone(Message(u, Text(text)));
  }

  /** A contact card while waiting is finalised with its number, whatever its digits. */
  lemma IntendedContactTrusted(owner: Option<string>, delivered: bool, s: Session, u: User, phone: string)
    requires WellFormed(s) && s.state == WaitingPhone
    requires delivered || !OwnerConfigured(owner)
    ensures var r := Feed(Intended, owner, delivered, s, Message(u, Contact(phone)));
      && r.session == Cleared && r.fault.None?
      && NotifyCount(r.outs) == (if OwnerConfigured(owner) then 1 else 0)
      && (OwnerConfigured(owner) ==> r.outs[0].NotifyOwner? && r.outs[0].phone == phone)
  {
    var up := Message(u, Contact(phone));
    IntendedRoutesPhone(up);
    var r := FinaliseStep(owner, delivered, u, s, phone);
    if OwnerConfigured(owner) {
      assert r.outs[0] in r.outs;
    }
  }

  /** `cancel` works from every state, in either registration order, and clears the session. */
  lemma CancelFromAnyState(table: seq<HandlerId>, owner: Option<string>, delivered: bool, s: Session, u: User)
    requires table == Registered || table == Intended
    ensures Feed(table, owner, delivered, s, Callback(u, Tokens.CancelToken)) == Effect(Cleared, [EditText(OrderCancelled)], None)
  {
    var up := Callback(u, Tokens.CancelToken);
    Tokens.ControlTokensNotService();
    if table == Registered {
      RouteAt(table, s.state, up, 5);
    } else {
      RouteAt(table, s.state, up, 4);
    }
  }

  /** `start_order` works from every state, in either registration order, and keeps the data. */
  lemma StartFromAnyState(table: seq<HandlerId>, owner: Option<string>, delivered: bool, s: Session, u: User)
    requires table == Registered || table == Intended
    ensures var r := Feed(table, owner, delivered, s, Callback(u, Tokens.StartToken));
      r.session == Session(ChoosingService, s.data) && r.outs == [EditText(ServiceMenu(Keyboard.ServiceKeyboard()))]
  {
    var up := Callback(u, Tokens.StartToken);
    Tokens.ControlTokensNotService();
    if table == Registered {
      RouteAt(table, s.state, up, 1);
    } else {
      RouteAt(table, s.state, up, 0);
    }
  }

  /** A service button pressed outside `choosing_service` (a stale keyboard) is dropped. */
  lemma StaleServiceButtonIgnored(table: seq<HandlerId>, owner: Option<string>, delivered: bool, s: Session, u: User, data: string)
    requires table == Registered || table == Intended
    requires s.state != ChoosingService && Tokens.IsServiceToken(data)
    ensures Feed(table, owner, delivered, s, Callback(u, data)) == Effect(s, [], None)
  {
    Tokens.ControlTokensNotService();
    assert forall h :: h in table ==> !Matches(h, s.state, Callback(u, data));
  }

  /** Every button the bot shows is handled where it is shown: the start button in
      every state, and each service-menu button in `choosing_service`. */
  lemma ShownButtonsHandled(table: seq<HandlerId>, st: State, u: User, b: Keyboard.Button)
    requires table == Registered || table == Intended
    requires b in Keyboard.MainKeyboard || (st == ChoosingService && b in Keyboard.ServiceKeyboard())
    ensures Route(table, st, Callback(u, b.token)).Some?
  {
    var kb := Keyboard.ServiceKeyboard();
    if b in Keyboard.MainKeyboard {
      assert Matches(StartOrder, st, Callback(u, b.token));
    } else {
      var i :| 0 <= i < |kb| && kb[i] == b;
      if i == |kb| - 1 {
        assert Matches(Cancel, st, Callback(u, b.token));
      } else {
        assert Matches(ChooseService, st, Callback(u, b.token));
      }
    }
  }

  /** Pressing a catalog button (with or without a further `_suffix`) in
      `choosing_service` stores that entry and asks for the phone, in either
      registration order. */
  lemma ServiceButtonPressed(table: seq<HandlerId>, owner: Option<string>, delivered: bool,
                             s: Session, u: User, i: nat, data: string, suffix: string)
    requires table == Registered || table == Intended
    requires s.state == ChoosingService && i < |Catalog.Services|
    requires data == Tokens.ServicePrefix + Catalog.Services[i].key
          || data == Tokens.ServicePrefix + Catalog.Services[i].key + [Tokens.Separator] + suffix
    ensures Feed(table, owner, delivered, s, Callback(u, data))
         == Effect(Session(WaitingPhone, OrderData(Some(Catalog.Services[i].name), Some(Catalog.Services[i].priceFrom))),
                   [Answer(PhoneRequest)], None)
  {
    Keyboard.CatalogKeysUnsplit(i);
    Tokens.ServiceKeyOf(Catalog.Services[i].key, suffix);
    Tokens.ControlTokensNotService();
    assert data != Tokens.StartToken && data != Tokens.CancelToken;
    RouteAt(table, ChoosingService, Callback(u, data), if table == Registered then 2 else 1);
    Catalog.LookupEntry(i);
  }

  /** Any `service_` token whose key (the text between the first and second `_`)
      is not in the catalog only raises the alert; the session is untouched. */
  lemma UnknownServiceRejected(table: seq<HandlerId>, owner: Option<string>, delivered: bool,
                               s: Session, u: User, data: string)
    requires table == Registered || table == Intended
    requires s.state == ChoosingService
    requires Tokens.IsServiceToken(data) && !Catalog.Listed(Catalog.Services, Tokens.ServiceKey(data))
    ensures Feed(table, owner, delivered, s, Callback(u, data)) == Effect(s, [InvalidChoiceAlert], None)
  {
    Tokens.ControlTokensNotService();
    assert data != Tokens.StartToken && data != Tokens.CancelToken;
    RouteAt(table, ChoosingService, Callback(u, data), if table == Registered then 2 else 1);
  }
}
