/** End-to-end runs of one customer through the order flow, under the
    registration order of bot.py and with the catch-all registered last. */
module Scenarios {
  import opened Wrappers
  import opened Conversation
  import Dispatch
  import Tokens
  import Phone
  import Catalog

  /** Digit count of a digit chunk between two digit-free chunks. */
  lemma CountChunks(a: string, d: string, b: string)
    requires forall i :: 0 <= i < |a| ==> !Phone.IsDigit(a[i])
    requires forall i :: 0 <= i < |d| ==> Phone.IsDigit(d[i])
    requires forall i :: 0 <= i < |b| ==> !Phone.IsDigit(b[i])
    ensures Phone.DigitCount(a + d + b) == |d|
  {
    Phone.DigitCountExtremes(a);
    Phone.DigitCountExtremes(d);
    Phone.DigitCountExtremes(b);
    Phone.DigitCountAppend(a, d);
    Phone.DigitCountAppend(a + d, b);
  }

  /** The first half of the formatted number, `+7 (912) `, holds four digits. */
  lemma AreaCodeDigits(p1: string, p2: string)
    requires p1 == "+7 (" && p2 == "912) "
    ensures Phone.DigitCount(p1 + p2) == 4
  {
    CountChunks("+", "7", " (");
    CountChunks("", "912", ") ");
    assert "+" + "7" + " (" == p1;
    assert "" + "912" + ") " == p2;
    Phone.DigitCountAppend(p1, p2);
  }

  /** The second half, `345-67-89`, holds seven digits. */
  lemma LineNumberDigits(p3: string, p4: string, p5: string)
    requires p3 == "345-" && p4 == "67-" && p5 == "89"
    ensures Phone.DigitCount(p3 + p4 + p5) == 7
  {
    CountChunks("", "345", "-");
    CountChunks("", "67", "-");
    CountChunks("", "89", "");
    assert "" + "345" + "-" == p3;
    assert "" + "67" + "-" == p4;
    assert "" + "89" + "" == p5;
    Phone.DigitCountAppend(p3, p4);
    Phone.DigitCountAppend(p3 + p4, p5);
  }

  /** The number used in `PhoneExamples` and `ForwardedPhoneKeepsFormatting`:
      eleven digits among eighteen characters. */
  lemma FormattedNumberDigits()
    ensures Phone.DigitCount("+7 (912) 345-67-89") == 11
  {
    var p1, p2, p3, p4, p5 := "+7 (", "912) ", "345-", "67-", "89";
    AreaCodeDigits(p1, p2);
    LineNumberDigits(p3, p4, p5);
    Phone.DigitCountAppend(p1 + p2, p3 + p4 + p5);
    assert (p1 + p2) + (p3 + p4 + p5) == "+7 (912) 345-67-89";
  }

  /** The digit rule on concrete inputs: formatting is ignored, only digits count. */
  lemma PhoneExamples()
    ensures Phone.Accepted("+7 (912) 345-67-89")
    ensures Phone.Accepted("89123456789")
    ensures !Phone.Accepted("12345")
    ensures !Phone.Accepted("123")
  {
    FormattedNumberDigits();
    Phone.DigitCountExtremes("89123456789");
    Phone.DigitCountExtremes("12345");
    Phone.DigitCountExtremes("123");
  }

  /** The number forwarded to the owner keeps its formatting; only the
      surrounding whitespace goes. */
  lemma ForwardedPhoneKeepsFormatting(raw: string, t: string)
    requires t == "+7 (912) 345-67-89" && raw == " " + t + "\n"
    ensures Phone.Strip(raw) == t
  {
    assert Phone.AllSpace(" ") && Phone.AllSpace("\n");
    assert t[0] == '+' && t[|t| - 1] == '9';
    Phone.StripAround(" ", t, "\n");
  }

  /** That forwarded number is not its digit string. */
  lemma ForwardedPhoneNotDigits()
    ensures Phone.Digits("+7 (912) 345-67-89") != "+7 (912) 345-67-89"
  {
    FormattedNumberDigits();
    Phone.DigitsLength("+7 (912) 345-67-89");
  }

  const Customer: User := User(7, None)
  const Owner: Option<string> := Some("42")
  const Restoration: Session := Session(WaitingPhone, OrderData(Some("Реставрация фото"), Some(500)))

  /** Start, then the restoration button: the entry's name and price are stored
      and the bot waits for a phone, in either registration order. */
  lemma ChooseRestoration(table: seq<Dispatch.HandlerId>)
    requires table == Dispatch.Registered || table == Dispatch.Intended
    ensures Dispatch.Feed(table, Owner, true, Cleared, Callback(Customer, Tokens.StartToken)).session
         == Session(ChoosingService, NoData)
    ensures Dispatch.Feed(table, Owner, true, Session(ChoosingService, NoData), Callback(Customer, "service_restoration"))
         == Effect(Restoration, [Answer(PhoneRequest)], None)
  {
    Dispatch.StartFromAnyState(table, Owner, true, Cleared, Customer);
    RestorationToken("service_restoration");
    Dispatch.ServiceButtonPressed(table, Owner, true, Session(ChoosingService, NoData), Customer, 0, "service_restoration", []);
  }

  /** `service_restoration` is the token of the first catalog entry. */
  lemma RestorationToken(data: string)
    requires data == "service_restoration"
    ensures data == Tokens.ServicePrefix + Catalog.Services[0].key
  {
    assert Catalog.Services[0].key == "restoration";
  }

  /** A token with a further `_suffix` still selects the entry named before it. */
  lemma SuffixedTokenSelects(table: seq<Dispatch.HandlerId>)
    requires table == Dispatch.Registered || table == Dispatch.Intended
    ensures Dispatch.Feed(table, Owner, true, Session(ChoosingService, NoData),
                          Callback(Customer, "service_restoration_old")).session == Restoration
  {
    Dispatch.ServiceButtonPressed(table, Owner, true, Session(ChoosingService, NoData), Customer, 0, "service_restoration_old", "old");
  }

  /** An unknown key only raises the alert, whatever follows it: `service_printing`
      and `service_printing_old` are both refused. */
  lemma UnknownServiceExample(table: seq<Dispatch.HandlerId>, key: string, rest: string)
    requires table == Dispatch.Registered || table == Dispatch.Intended
    requires key == "printing" && rest == "old"
    ensures var s := Session(ChoosingService, NoData);
      Dispatch.Feed(table, Owner, true, s, Callback(Customer, Tokens.ServicePrefix + key)) == Effect(s, [InvalidChoiceAlert], None)
    ensures var s := Session(ChoosingService, NoData);
      Dispatch.Feed(table, Owner, true, s, Callback(Customer, Tokens.ServicePrefix + key + [Tokens.Separator] + rest))
        == Effect(s, [InvalidChoiceAlert], None)
  {
    var s := Session(ChoosingService, NoData);
    Tokens.ServiceKeyOf(key, rest);
    assert !Catalog.Listed(Catalog.Services, key);
    Dispatch.UnknownServiceRejected(table, Owner, true, s, Customer, Tokens.ServicePrefix + key);
    Dispatch.UnknownServiceRejected(table, Owner, true, s, Customer, Tokens.ServicePrefix + key + [Tokens.Separator] + rest);
  }

  /** With the catch-all last, a valid phone completes the order: one notification
      to the owner carrying the phone as typed, then the acknowledgement, then idle. */
  lemma IntendedOrderCompletes(t: string)
    requires t == "89123456789"
    ensures var e3 := Dispatch.Feed(Dispatch.Intended, Owner, true, Restoration, Message(Customer, Text(t)));
      && e3.outs == [NotifyOwner("42", "—", 7, t, "Реставрация фото", 500), Answer(OrderAccepted)]
      && e3.session == Cleared && e3.fault.None?
  {
    PhoneExamples();
    assert !Phone.IsSpace(t[0]) && !Phone.IsSpace(t[|t| - 1]);
    Phone.StripAround([], t, []);
    assert [] + t + [] == t;
    assert Phone.Strip(t) == t;
    assert DisplayHandle(Customer) == "—";
    Dispatch.IntendedPhoneAccepted(Owner, Restoration, Customer, t);
  }

  /** With the catch-all last, a short phone is re-prompted and the order stays pending. */
  lemma IntendedShortPhoneRejected()
    ensures Dispatch.Feed(Dispatch.Intended, Owner, true, Restoration, Message(Customer, Text("123")))
         == Effect(Restoration, [Answer(InvalidPhone)], None)
  {
    PhoneExamples();
    Dispatch.IntendedPhoneText(Owner, true, Restoration, Customer, "123");
  }

  /** As registered, the same phone reaches `welcome`: the pending order is
      wiped and the owner never hears of it. */
  lemma RegisteredOrderLost()
    ensures var e3 := Dispatch.Feed(Dispatch.Registered, Owner, true, Restoration, Message(Customer, Text("89123456789")));
      && e3.outs == [Answer(WelcomeMenu)]
      && e3.session == Cleared
      && NotifyCount(e3.outs) == 0
  {
    Dispatch.RegisteredWelcomeTakesMessages(WaitingPhone, Message(Customer, Text("89123456789")));
  }
}
