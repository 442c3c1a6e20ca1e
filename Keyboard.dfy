/** The inline keyboards the bot renders (bot.py:24-35). Each button sits on
    its own row; only the label's service name and price and the callback
    token are kept, not the decorations of the label text. */
module Keyboard {
  import opened Wrappers
  import Catalog
  import Tokens

  datatype Label = StartLabel | ServiceLabel(name: string, priceFrom: nat) | CancelLabel

  datatype Button = Button(caption: Label, token: string)

  /** `get_main_kb`: the single "start" button. */
  const MainKeyboard: seq<Button> := [Button(StartLabel, Tokens.StartToken)]

  const CancelButton: Button := Button(CancelLabel, Tokens.CancelToken)

  /** The button of one catalog entry: `service_<key>`. */
  function ServiceButton(e: Catalog.Service): (b: Button)
    ensures Tokens.IsServiceToken(b.token) && b.token != Tokens.CancelToken
    ensures Tokens.Separator !in e.key ==> Tokens.ServiceKey(b.token) == e.key
  {
    Tokens.ServiceKeyAfterPrefix(e.key);
    var b := Button(ServiceLabel(e.name, e.priceFrom), Tokens.ServicePrefix + e.key);
    if Tokens.Separator in e.key then b else Tokens.ServiceKeyOf(e.key, []); b
  }

  /** The list comprehension over `SERVICES.items()`. */
  function ServiceButtons(entries: seq<Catalog.Service>): seq<Button>
  {
    seq(|entries|, i requires 0 <= i < |entries| => ServiceButton(entries[i]))
  }

  /** `get_service_kb`: one button per catalog entry, then the cancel button appended. */
  function ServiceKeyboard(): (kb: seq<Button>)
    ensures |kb| == |Catalog.Services| + 1
    ensures kb[|kb| - 1] == CancelButton
    ensures forall i :: 0 <= i < |Catalog.Services| ==>
              kb[i].caption == ServiceLabel(Catalog.Services[i].name, Catalog.Services[i].priceFrom)
    ensures forall i :: 0 <= i < |kb| - 1 ==> Tokens.IsServiceToken(kb[i].token) && kb[i].token != Tokens.CancelToken
    ensures forall i :: 0 <= i < |Catalog.Services| ==> kb[i].token == Tokens.ServicePrefix + Catalog.Services[i].key
  {
    var buttons := ServiceButtons(Catalog.Services);
    assert forall i :: 0 <= i < |buttons| ==> buttons[i].token[..|Tokens.ServicePrefix|] == Tokens.ServicePrefix;
    buttons + [CancelButton]
  }

  /** Catalog keys carry no separator, so `split("_")[1]` recovers them. */
  lemma CatalogKeysUnsplit(i: nat)
    requires i < |Catalog.Services|
    ensures Tokens.Separator !in Catalog.Services[i].key
  {
  }

  /** Pressing the i-th service button selects exactly the i-th catalog entry. */
  lemma ServiceButtonSelects(i: nat)
    requires i < |Catalog.Services|
    ensures Tokens.IsServiceToken(ServiceKeyboard()[i].token)
    ensures Catalog.Lookup(Tokens.ServiceKey(ServiceKeyboard()[i].token)) == Some(Catalog.Services[i])
  {
    var e := Catalog.Services[i];
    assert ServiceKeyboard()[i].token == Tokens.ServicePrefix + e.key;
    CatalogKeysUnsplit(i);
    Tokens.ServiceKeyOf(e.key, []);
    Catalog.LookupEntry(i);
  }
}
