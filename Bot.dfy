/** The running bot: the dispatcher's `MemoryStorage` as a per-user map that the
    handlers update step by step through the FSM context (`set_state`,
    `update_data`, `clear`). Each handler method is proved to have exactly the
    effect of its step function, and all of them keep every stored session
    well formed. */
module Bot {
  import opened Wrappers
  import opened Conversation
  import Dispatch
  import Catalog
  import Tokens
  import Keyboard
  import Phone

  class OrderBot {
    /** The handlers in registration order. */
    const handlers: seq<Dispatch.HandlerId>
    /** `os.getenv("OWNER_CHAT_ID")`. */
    const ownerChatId: Option<string>
    /** FSM storage: one record per user seen. */
    var storage: map<UserId, Session>

    ghost predicate Valid()
      reads this
    {
      forall u :: u in storage ==> WellFormed(storage[u])
    }

    /** A user never seen has no state and empty data. */
    function SessionOf(u: UserId): Session
      reads this
    {
      if u in storage then storage[u] else Cleared
    }

    constructor (handlers: seq<Dispatch.HandlerId>, ownerChatId: Option<string>)
      ensures Valid()
      ensures this.handlers == handlers && this.ownerChatId == ownerChatId && storage == map[]
    {
      this.handlers := handlers;
      this.ownerChatId := ownerChatId;
      storage := map[];
    }

    /** Reading a user's state creates their default record (a `defaultdict`). */
    method Touch(u: UserId)
      modifies this
      ensures storage == old(storage)[u := old(SessionOf(u))]
    {
      storage := storage[u := SessionOf(u)];
    }

    /** `state.set_state(st)`: the data is kept. */
    method SetState(u: UserId, st: State)
      requires u in storage
      modifies this
      ensures storage == old(storage)[u := Session(st, old(storage[u]).data)]
    {
      storage := storage[u := Session(st, storage[u].data)];
    }

    /** `state.update_data(service_name=..., price_from=...)`: the state is kept. */
    method UpdateData(u: UserId, serviceName: string, priceFrom: nat)
      requires u in storage
      modifies this
      ensures storage == old(storage)[u := Session(old(storage[u]).state, OrderData(Some(serviceName), Some(priceFrom)))]
    {
      storage := storage[u := Session(storage[u].state, OrderData(Some(serviceName), Some(priceFrom)))];
    }

    /** `state.clear()`. */
    method ClearSession(u: UserId)
      modifies this
      ensures storage == old(storage)[u := Cleared]
    {
      storage := storage[u := Cleared];
    }

    method Welcome(u: UserId) returns (outs: seq<Output>)
      requires Valid() && u in storage
      modifies this
      ensures Valid()
      ensures var e := WelcomeStep(old(storage[u]));
        storage == old(storage)[u := e.session] && outs == e.outs
    {
      ClearSession(u);
      outs := [Answer(WelcomeMenu)];
    }

    method StartOrder(u: UserId) returns (outs: seq<Output>)
      requires Valid() && u in storage
      modifies this
      ensures Valid()
      ensures var e := StartOrderStep(old(storage[u]));
        storage == old(storage)[u := e.session] && outs == e.outs
    {
      outs := [EditText(ServiceMenu(Keyboard.ServiceKeyboard()))];
      SetState(u, ChoosingService);
    }

    method ChooseService(u: UserId, data: string) returns (outs: seq<Output>)
      requires Valid() && u in storage
      requires Tokens.IsServiceToken(data)
      modifies this
      ensures Valid()
      ensures var e := ChooseServiceStep(old(storage[u]), data);
        storage == old(storage)[u := e.session] && outs == e.outs
    {
      ghost var e := ChooseServiceStep(storage[u], data);
      var key := Tokens.ServiceKey(data);
      var entry := Catalog.Lookup(key);
      if entry.None? {
        assert e == Effect(storage[u], [InvalidChoiceAlert], None);
        outs := [InvalidChoiceAlert];
        return;
      }
      assert e.session == Session(WaitingPhone, OrderData(Some(entry.value.name), Some(entry.value.priceFrom)));
      UpdateData(u, entry.value.name, entry.value.priceFrom);
      outs := [Answer(PhoneRequest)];
      SetState(u, WaitingPhone);
    }

    /** `_process_order`; a raised exception leaves the session as it was. */
    method ProcessOrder(from: User, phone: string, delivered: bool) returns (outs: seq<Output>, fault: Option<Fault>)
      requires Valid() && from.id in storage
      modifies this
      ensures Valid()
      ensures var e := FinaliseStep(ownerChatId, delivered, from, old(storage[from.id]), phone);
        storage == old(storage)[from.id := e.session] && outs == e.outs && fault == e.fault
    {
      var data := storage[from.id].data;
      if data.serviceName.None? || data.priceFrom.None? {
        outs, fault := [], Some(MissingField);
        return;
      }
      outs := [];
      if OwnerConfigured(ownerChatId) {
        outs := outs + [NotifyOwner(ownerChatId.value, DisplayHandle(from), from.id, phone,
                                    data.serviceName.value, data.priceFrom.value)];
        if !delivered {
          fault := Some(DeliveryFailed);
          return;
        }
      }
      outs := outs + [Answer(OrderAccepted)];
      ClearSession(from.id);
      fault := None;
    }

    method PhoneFromContact(from: User, phoneNumber: string, delivered: bool) returns (outs: seq<Output>, fault: Option<Fault>)
      requires Valid() && from.id in storage
      modifies this
      ensures Valid()
      ensures var e := FinaliseStep(ownerChatId, delivered, from, old(storage[from.id]), phoneNumber);
        storage == old(storage)[from.id := e.session] && outs == e.outs && fault == e.fault
    {
      outs, fault := ProcessOrder(from, phoneNumber, delivered);
    }

    method PhoneFromText(from: User, text: string, delivered: bool) returns (outs: seq<Output>, fault: Option<Fault>)
      requires Valid() && from.id in storage
      modifies this
      ensures Valid()
      ensures var e := PhoneTextStep(ownerChatId, delivered, from, old(storage[from.id]), text);
        storage == old(storage)[from.id := e.session] && outs == e.outs && fault == e.fault
    {
      var phone := Phone.Strip(text);
      var digits := Phone.Digits(phone);
      if |digits| < Phone.MinDigits {
        outs, fault := [Answer(InvalidPhone)], None;
        return;
      }
      outs, fault := ProcessOrder(from, phone, delivered);
    }

    method Cancel(u: UserId) returns (outs: seq<Output>)
      requires Valid() && u in storage
      modifies this
      ensures Valid()
      ensures var e := CancelStep(old(storage[u]));
        storage == old(storage)[u := e.session] && outs == e.outs
    {
      ClearSession(u);
      outs := [EditText(OrderCancelled)];
    }

    /** Runs the handler the dispatcher picked for the sender's stored session. */
    method RunHandler(h: Dispatch.HandlerId, up: Update, delivered: bool) returns (outs: seq<Output>, fault: Option<Fault>)
      requires Valid() && up.from.id in storage
      requires Dispatch.Matches(h, storage[up.from.id].state, up)
      modifies this
      ensures Valid()
      ensures var e := Dispatch.Run(h, ownerChatId, delivered, old(storage[up.from.id]), up);
        storage == old(storage)[up.from.id := e.session] && outs == e.outs && fault == e.fault
    {
      var u := up.from.id;
      fault := None;
      match h {
        case Welcome => outs := Welcome(u);
        case StartOrder => outs := StartOrder(u);
        case ChooseService => outs := ChooseService(u, up.data);
        case PhoneFromContact => outs, fault := PhoneFromContact(up.from, up.content.phoneNumber, delivered);
        case PhoneFromText => outs, fault := PhoneFromText(up.from, up.content.text, delivered);
        case Cancel => outs := Cancel(u);
      }
    }

    /** One incoming update: read the sender's state, pick the first handler whose
        filters match and run it; an update nobody handles changes nothing. */
    method FeedUpdate(up: Update, delivered: bool) returns (route: Option<Dispatch.HandlerId>, outs: seq<Output>, fault: Option<Fault>)
      requires Valid()
      modifies this
      ensures Valid()
      ensures route == Dispatch.Route(handlers, old(SessionOf(up.from.id)).state, up)
      ensures var e := Dispatch.Feed(handlers, ownerChatId, delivered, old(SessionOf(up.from.id)), up);
        storage == old(storage)[up.from.id := e.session] && outs == e.outs && fault == e.fault
    {
      var u := up.from.id;
      ghost var before := storage;
      ghost var s := SessionOf(u);
      ghost var e := Dispatch.Feed(handlers, ownerChatId, delivered, s, up);
      Touch(u);
      assert storage == before[u := s];
      route := Dispatch.Route(handlers, storage[u].state, up);
      if route.None? {
        outs, fault := [], None;
        assert e == Effect(s, [], None);
      } else {
        assert e == Dispatch.Run(route.value, ownerChatId, delivered, s, up);
        outs, fault := RunHandler(route.value, up, delivered);
        assert storage == before[u := e.session];
      }
    }
  }
}
