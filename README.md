# Photo-service order bot: verified model of the intake state machine

The bot (`bot.py`) takes orders for a small photo studio over Telegram. Each
user has an aiogram FSM session: no state (idle), `choosing_service` or
`waiting_phone`, plus a data dictionary holding the chosen `service_name` and
`price_from`. The start button shows the catalog. A service button stores that
entry and asks for a phone. The phone handlers, for a text with at least ten
digits or a contact card, are meant to forward the order to the owner's chat
when `OWNER_CHAT_ID` is set, thank the user and clear the session. As
registered, `welcome` takes every message first, so this never happens (see
"## Findings"). Cancel and welcome reset the session from any state.

The model has these modules:

- `Catalog`: the ordered `SERVICES` price list and its lookup.
- `Tokens`: callback tokens and Python's `split("_")`, with its inverse `join`.
- `Keyboard`: the service keyboard.
- `Phone`: `strip()`, the digit filter and the ten-digit rule.
- `Conversation`: what each handler does to one session and which transport calls it makes, as functions.
- `Dispatch`: aiogram's routing as an explicit ordered table of handlers with their filters. The first match wins.
- `Bot`: the class `OrderBot`. It holds the FSM storage as a `map` and has one method per handler. The methods update the storage step by step through `set_state`, `update_data` and `clear`, and each is proved equal to its step function.
- `Scenarios`: end-to-end runs of one customer.

Transport calls are recorded as an ordered list of outputs: `Answer`,
`EditText`, `InvalidChoiceAlert` and `NotifyOwner`. The owner chat id is a
constructor parameter. The outcome of the owner notification, a foreign call,
is a `delivered` flag. An exception is recorded as a `Fault`, and the session
keeps whatever the handler had written before it.

Behaviour of `bot.py` worth noting:

- The flow asks for one detail only, the phone. There are no comment, confirmation or payment states.
- A failed owner notification is not caught (bot.py:113). The user gets no acknowledgement and the session is not cleared.
- `cancel`, `start_order` and `welcome` also work from idle.

## Model

| member | source | states |
|---|---|---|
| Catalog.Find | bot.py:63-68 | the lookup finds an entry iff the key is listed, and what it returns is a listed entry with that key |
| Catalog.CatalogKeysDistinct | bot.py:13-18 | the four catalog keys are pairwise distinct |
| Catalog.FindUnique | bot.py:63-68 | with distinct keys, looking up an entry's key returns exactly that entry |
| Catalog.Lookup | bot.py:13-18 | `key in SERVICES` holds iff some entry of the four-entry catalog has that key, and then the entry returned is that one |
| Catalog.LookupEntry | bot.py:13-18 | every catalog entry is found by its own key |
| Tokens.ControlTokensNotService | bot.py:55 | `start_order` and `cancel` never pass the `service_` filter and are distinct |
| Tokens.Split | bot.py:62 | `split` yields at least one piece, at least two when the separator occurs, and no piece contains the separator |
| Tokens.JoinSplit | bot.py:62 | joining the pieces of a split with the separator gives back the text |
| Tokens.SplitJoin | bot.py:62 | splitting a join of separator-free pieces gives back the pieces |
| Tokens.ServiceKey | bot.py:62 | `split("_")[1]` of a `service_` token is defined and contains no `_` |
| Tokens.ServiceKeyAfterPrefix | bot.py:62 | the key of a `service_` token is the first separator-free piece after the prefix |
| Tokens.ServiceKeyOf | bot.py:62 | the key of `service_<key>` is `<key>`, also when `_<anything>` follows |
| Keyboard.ServiceButton | bot.py:31 | a catalog entry's button carries a `service_` token other than `cancel`, and the key read back from it is the entry's key when that key has no `_` |
| Keyboard.ServiceKeyboard | bot.py:29-35 | one button per catalog entry in catalog order with its name and price and the token `service_<key>`, then exactly one cancel button, last; every other button carries a service token |
| Keyboard.CatalogKeysUnsplit | bot.py:13-18 | no catalog key contains `_` |
| Keyboard.ServiceButtonSelects | bot.py:31 | the key recovered from the i-th service button is that of the i-th catalog entry |
| Phone.TrimStart | bot.py:88 | the result is a suffix of the text, everything dropped is whitespace, and it does not start with whitespace |
| Phone.TrimEnd | bot.py:88 | the result is a prefix of the text, everything dropped is whitespace, and it does not end with whitespace |
| Phone.Digits | bot.py:90 | the filtered string is no longer than the text and holds only digits |
| Phone.DigitsLength | bot.py:90-91 | the length of the filtered string is the number of digit characters of the text |
| Phone.DigitCountExtremes | bot.py:90 | a digit string counts all its characters, a digit-free one counts none |
| Phone.StripKeepsDigits | bot.py:88-90 | stripping removes no digit |
| Phone.AcceptedIffEnoughDigits | bot.py:88-91 | the check on the stripped text passes iff the raw text has at least ten digits |
| Phone.Strip | bot.py:88 | `strip()` over Python's whitespace set (`Phone.IsSpace`): the result is no longer than the text and neither starts nor ends with whitespace |
| Phone.HasEnoughDigits | bot.py:90-91 | the ten-digit check passes iff the text holds at least ten digit characters |
| Phone.StripAround | bot.py:88 | `strip` of whitespace, then text, then whitespace returns exactly that text |
| Phone.StripIdempotent | bot.py:88 | stripping twice equals stripping once |
| Conversation.WelcomeStep | bot.py:47-53 | welcome clears the session and notifies nobody |
| Conversation.StartOrderStep | bot.py:55-58 | start enters `choosing_service` and keeps the data |
| Conversation.ChooseServiceStep | bot.py:60-79 | an unknown key changes nothing and only alerts; a listed key stores exactly that entry's name and price and enters `waiting_phone`; the invariant is kept |
| Conversation.DisplayHandle | bot.py:100 | a set, non-empty username is the handle; otherwise the handle is `—`; it is never empty |
| Conversation.FinaliseStep | bot.py:96-121 | at most one owner notification, sent iff the data is present and `OWNER_CHAT_ID` is set and non-empty (`OwnerConfigured`, bot.py:104-105), with the phone, handle, id, name and price; success ends cleared with the acknowledgement last; a fault leaves the session unchanged |
| Conversation.PhoneTextStep | bot.py:86-94 | a text with fewer than ten digits re-prompts and changes nothing; otherwise the stripped text is finalised |
| Conversation.CancelStep | bot.py:123-129 | cancel clears the session and notifies nobody |
| Conversation.FinaliseNeverMissesField | bot.py:96-99 | in a well-formed `waiting_phone` session the data lookups cannot fail |
| Dispatch.Matches | bot.py:47-129 | the decorator filters of each handler, with `Dispatch.Registered` the order of bot.py and `Dispatch.Intended` the same with `welcome` last; what they imply is stated by the routing lemmas below |
| Dispatch.Run | bot.py:47-129 | a handler whose filters matched keeps the invariant, never hits a missing field, and notifies at most once, only as a phone handler with an owner configured and, for a typed phone, an accepted one |
| Dispatch.FirstMatch | bot.py:47-129 | the chosen handler matches and no earlier one does; with none, no handler matches |
| Dispatch.Route | bot.py:47-129 | the routed handler is in the table and its filters match; nothing is routed iff no handler matches |
| Dispatch.Feed | bot.py:47-129 | every update keeps the invariant, never hits a missing field, and notifies at most once, and only for a phone in `waiting_phone` with an owner configured; an unhandled update changes nothing |
| Dispatch.RegisteredWelcomeTakesMessages | bot.py:47-48 | as registered, every message in every state goes to `welcome` |
| Dispatch.RegisteredPhoneHandlersUnreachable | bot.py:81-94 | as registered, neither phone handler is ever chosen |
| Dispatch.RegisteredNeverNotifies | bot.py:104-113 | as registered, no update ever notifies the owner |
| Dispatch.IntendedRoutesPhone | bot.py:81-94 | with the catch-all last, a contact or text in `waiting_phone` reaches its phone handler |
| Dispatch.IntendedWelcomeElsewhere | bot.py:47-53 | with the catch-all last, every message outside `waiting_phone` still reaches `welcome` |
| Dispatch.IntendedPhoneText | bot.py:86-94 | a rejected phone leaves the session as it was and only re-prompts; an accepted one forwards the stripped text and ends cleared |
| Dispatch.IntendedPhoneAccepted | bot.py:94-121 | an accepted phone with an owner yields exactly the notification then the acknowledgement, and clears |
| Dispatch.IntendedContactTrusted | bot.py:81-84 | a contact card is finalised with its number whatever its digits |
| Dispatch.CancelFromAnyState | bot.py:123-129 | cancel from any state clears the session, in either table |
| Dispatch.StartFromAnyState | bot.py:55-58 | start from any state enters `choosing_service` with the data unchanged |
| Dispatch.StaleServiceButtonIgnored | bot.py:60 | a service button outside `choosing_service` is dropped without effect |
| Dispatch.ShownButtonsHandled | bot.py:24-35 | every button the bot shows (`Keyboard.MainKeyboard`, `Keyboard.ServiceButtons` and cancel) has a handler where it is shown |
| Dispatch.ServiceButtonPressed | bot.py:60-79 | pressing a catalog button stores that entry and asks for the phone |
| Dispatch.UnknownServiceRejected | bot.py:60-65 | in `choosing_service`, any `service_` token whose `split("_")[1]` is not a catalog key only alerts and leaves the session unchanged, in either table |
| Bot.OrderBot.constructor | bot.py:45 | the storage starts empty and well formed |
| Bot.OrderBot.Touch | bot.py:45 | reading a user's state materialises their default record |
| Bot.OrderBot.SetState | bot.py:58 | `set_state` replaces the state and keeps the data |
| Bot.OrderBot.UpdateData | bot.py:70 | `update_data` replaces both fields and keeps the state |
| Bot.OrderBot.ClearSession | bot.py:121 | `clear` resets the user's record to idle with no data |
| Bot.OrderBot.Welcome | bot.py:47-53 | the storage and outputs are those of `WelcomeStep`; the invariant is kept |
| Bot.OrderBot.StartOrder | bot.py:55-58 | the storage and outputs are those of `StartOrderStep`; the invariant is kept |
| Bot.OrderBot.ChooseService | bot.py:60-79 | the storage and outputs are those of `ChooseServiceStep`; the invariant is kept |
| Bot.OrderBot.ProcessOrder | bot.py:96-121 | the storage, outputs and fault are those of `FinaliseStep`; the invariant is kept |
| Bot.OrderBot.PhoneFromContact | bot.py:81-84 | the contact number is finalised unchecked |
| Bot.OrderBot.PhoneFromText | bot.py:86-94 | the storage, outputs and fault are those of `PhoneTextStep` |
| Bot.OrderBot.Cancel | bot.py:123-129 | the storage and outputs are those of `CancelStep` |
| Bot.OrderBot.RunHandler | bot.py:47-129 | running the routed handler has the effect of its step function |
| Bot.OrderBot.FeedUpdate | bot.py:45-129 | the route is the first matching handler, and the storage changes only at the sender's entry, to the session `Feed` gives; the invariant is kept |
| Scenarios.FormattedNumberDigits | bot.py:90 | `+7 (912) 345-67-89` holds eleven digits |
| Scenarios.PhoneExamples | bot.py:86-93 | `+7 (912) 345-67-89` and `89123456789` pass; `12345` and `123` fail |
| Scenarios.ForwardedPhoneKeepsFormatting | bot.py:88 | surrounding whitespace is stripped, inner formatting is kept |
| Scenarios.ForwardedPhoneNotDigits | bot.py:90-94 | the forwarded number differs from its digit string |
| Scenarios.ChooseRestoration | bot.py:55-79 | start then `service_restoration` stores "Реставрация фото" at 500 and waits for the phone |
| Scenarios.SuffixedTokenSelects | bot.py:62 | `service_restoration_old` also selects restoration |
| Scenarios.UnknownServiceExample | bot.py:62-65 | `service_printing` and `service_printing_old` only alert |
| Scenarios.IntendedOrderCompletes | bot.py:86-121 | with the catch-all last, `89123456789` notifies the owner once with that phone, acknowledges and clears |
| Scenarios.IntendedShortPhoneRejected | bot.py:91-93 | with the catch-all last, `123` re-prompts and keeps the pending order |
| Scenarios.RegisteredOrderLost | bot.py:47-53 | as registered, the same phone only shows the welcome and wipes the pending order |

## Findings

| source | as written | input that shows it | evidently intended | confidence | as-written member | corrected member |
|---|---|---|---|---|---|---|
| bot.py:47-53 | `welcome` is registered first with no filter. aiogram 3 picks the first matching handler, so `welcome` takes every message in every state, and `phone_from_contact` and `phone_from_text` never run | a session in `waiting_phone` and the text `89123456789` | the phone handlers take messages in `waiting_phone`, and `welcome` is the fallback registered last | high; not executed | Scenarios.RegisteredOrderLost | Scenarios.IntendedOrderCompletes |

`Dispatch.Registered` is the table as written, and `Dispatch.RegisteredNeverNotifies` proves that no update ever reaches the owner. `Dispatch.Intended` is the same table with `welcome` moved last. `OrderBot` takes the table as a constructor argument. The phone and finalisation properties (`IntendedPhoneText`, `IntendedPhoneAccepted`, `IntendedContactTrusted`) are stated for `Intended`. Cancel, start, service selection and stale buttons are proved for both tables.

## Left out

- Bot construction, `start_polling`, `asyncio.run` and the bot token are not modelled. The owner chat id is a parameter rather than an `os.getenv` call.
- Message wording, emoji and markup details are not modelled. This covers the reply-keyboard flags and the request-contact button. Replies are tags, and service labels keep only the name and price.
- Failures of `message.answer`, `edit_text` and `callback.answer` are not modelled; they are assumed to succeed. Only the owner notification's outcome is a parameter.
- Telegram errors for editing a message (gone, or unchanged) are not modelled.
- Concurrency is not modelled. aiogram may run one user's updates concurrently; the model processes each user's updates one at a time.
- The FSM storage is keyed by user id. aiogram keys it by bot, chat and user, which is the same thing in a private chat.
- Updates without a sender and callbacks without data are not modelled.
- Phone.IsDigit: accepts only `0`-`9`. Python's `str.isdigit` also accepts other Unicode digits, such as Arabic-Indic digits and superscripts.
- The typed phone goes into the owner message unescaped, with `parse_mode="HTML"` (bot.py:109, 113). A text such as `<89123456789>` passes the digit check, but Telegram would refuse the message; the user then gets no acknowledgement and stays in `waiting_phone`. The model's `delivered` flag covers that outcome but does not depend on the phone.
- Dispatch.Matches: `F.text` rejects an empty text, which then falls through to `welcome`. Telegram never delivers an empty text, so `IntendedPhoneText` assumes a non-empty one.
