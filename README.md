# Blackjack round and consent-gated storage, modelled in Dafny

This project models the two rule engines of a set of classroom web pages:

- **The blackjack round** of the week-10 page (`blackjack.dfy`, module `Blackjack`).
  A hand is scored by counting every ace as 11, then demoting aces to 1 one at a time while the
  total is over 21. The page keeps one game state: the deck id, the player's hand, the dealer's
  hand and a `gameOver` flag. Deal, hit, stand and end-of-game change that state. `Round` is a
  class with those fields and two more. `shoe` holds the cards still in the remote shuffled deck,
  dealt from the front. `result` is the page's result line: blank, or one of the six end-of-round
  messages. `CalculateHand` keeps the page's two loops: sum with aces at 11, then demote. It is
  proved equal to `Score`, a closed-form definition: the aces-as-1 total plus 10 for each ace that
  can stay at 11 without passing 21. The dealer draws while under 17. That loop ends because every
  card adds at least 1 to the aces-as-1 total. The score itself can stay flat: A,5 and then a 10 is
  still 16.
- **The privacy manager** of the week-7 page (`privacy_manager.dfy`, module `PrivacyManager`).
  It wraps the browser's localStorage. Its keys carry the prefix `driftHub_`, and every entry
  carries an absolute expiry time in milliseconds. Saves are refused without consent, except a
  save of the consent answer itself. Reads delete expired entries. A bulk clear removes only
  prefixed keys, and a listing strips the prefix. A sweep at page load removes expired prefixed
  entries. `PrivacyStore` holds localStorage as a `map` field, `items`. The current time `now` is
  a parameter of every operation that reads the clock. Each method is tied to a pure function of
  the old store: `ReadReply`/`AfterRead`, `SaveReply`/`AfterSave`, `ConsentReply`,
  `AfterSetConsent`, `Cleared` and `Swept`. The lemmas state what the page promises about those
  functions.

`options.dfy` holds the `Option` type, which stands for JavaScript's `null` and `undefined`.

How the code behaves, as modelled:

- Round state. There is no status enumeration. The round is over when `gameOver` is set, and the
  outcome is only the message shown. The model keeps that message in `result`. `Round.Valid`
  states that `gameOver` holds exactly when a message is shown. It also states that the message
  matches the hands it was decided on.
- The opening deal. Of the four cards drawn, the player gets the first and third and the dealer
  gets the second and fourth (`wa/week10/week10.js:31-32`).
- Hit guard. Nothing in `hit` or `stand` checks `gameOver`; only disabled buttons stop a click.
  The model states this as a precondition.
- Failed card draws. These are not rolled back: `drawCards` returns `undefined` and `hit` pushes
  it. The model assumes draws succeed. See "Left out".
- Refused saves. A refused save can still change the store. `saveData` always reads the consent
  entry first. If that entry has expired, the read deletes it. So "unchanged" holds up to that one
  entry (`SaveRefused`).

## Model

| member | source | states |
|---|---|---|
| `Blackjack.Score` | wa/week10/week10.js:112-133 | The score is the aces-as-1 total plus 10 for some number of aces between none and all of them. It is over 21 only when every ace already counts 1. |
| `Blackjack.CalculateHand` | wa/week10/week10.js:112-133 | The page's two loops return exactly `Score(hand)`. The first sums with aces at 11; the second demotes aces while the total is over 21. |
| `Blackjack.HighIsLowPlusAces` | wa/week10/week10.js:116-125 | Counting aces as 11 instead of 1 adds exactly 10 per ace. |
| `Blackjack.ScoreWithoutAces` | wa/week10/week10.js:116-125 | A hand with no aces scores the plain sum of its cards. Numbered cards count face value and king, queen and jack count 10. |
| `Blackjack.ScoreIsBest` | wa/week10/week10.js:127-130 | Suppose some choice of aces at 11 keeps the hand at or under 21. Then the score is at least that total and at most 21. So the score is the best total. |
| `Blackjack.ScoreExamples` | wa/week10/week10.js:112-133 | A+A scores 12, A+9 scores 20, A+A+9 scores 21. |
| `Blackjack.TwoCardScore` | wa/week10/week10.js:31-32 | Two dealt cards never score over 21. |
| `Blackjack.NaturalTwentyOne` | wa/week10/week10.js:40-42 | Two cards score 21 iff they add to 21 with the ace at 11, that is, iff they are an ace and a ten-point card. |
| `Blackjack.StandOutcome` | wa/week10/week10.js:99-109 | Every pair of totals gets exactly one outcome. Dealer over 21 gives a dealer bust. Otherwise the higher total wins, and equal totals push. |
| `Blackjack.DealerDrewIsDeterministic` | wa/week10/week10.js:92-97 | The draw-while-under-17 rule leaves no choice. The same starting hand and deck give the same final hand and the same remaining deck. |
| `Blackjack.DealerDrawLimit` | wa/week10/week10.js:92-97 | The dealer draws at most 17 minus the aces-as-1 total of the starting hand, and none if that total is already 17 or more. |
| `Blackjack.StandOnSeventeen` | wa/week10/week10.js:90-109 | Player 10+7, dealer 6+Q, next cards 4 and 5. The dealer takes the 4, stops at 20 and wins. |
| `Blackjack.Round.constructor` | wa/week10/week10.js:9-14 | The initial game state has an empty deck id, empty hands and `gameOver` false, and it satisfies the round invariant. |
| `Blackjack.Round.DrawCards` | wa/week10/week10.js:50-69 | A draw takes `count` cards from the front of the deck. A draw of four replaces the dealer's hand and returns nothing; any other draw returns its first card. Nothing else changes. |
| `Blackjack.Round.EndGame` | wa/week10/week10.js:157-163 | Sets `gameOver` and shows the message. Both hands and the deck are unchanged. |
| `Blackjack.Round.DealGame` | wa/week10/week10.js:16-48 | On a new deck the player holds cards 0 and 2 and the dealer holds cards 1 and 3. The round is over, with the blackjack message, iff the player scores 21. A failed shuffle request changes nothing. The invariant is kept. |
| `Blackjack.Round.Hit` | wa/week10/week10.js:71-82 | Appends the deck's next card to the player's hand. Over 21: the game ends as a bust with the dealer's hand unchanged. Exactly 21: the dealer plays by the rule and the stand outcome is shown. Under 21: play continues with nothing else changed. |
| `Blackjack.Round.Stand` | wa/week10/week10.js:84-110 | The player's hand is unchanged. The dealer's hand grows only by the deck's next cards, drawn while its score is under 17, and ends at 17 or more. The shown outcome is `StandOutcome` of the final totals. |
| `PrivacyManager.Key` | wa/week7/privacy-manager.js:58-60 | A storage key starts with the prefix, and stripping the prefix gives back the name. |
| `PrivacyManager.PrivacyStore.GetData` | wa/week7/privacy-manager.js:22-35 | Returns `ReadReply` of the old store and leaves `AfterRead`: only an expired entry is removed. |
| `PrivacyManager.PrivacyStore.RemoveData` | wa/week7/privacy-manager.js:38-40 | Removes exactly the prefixed key of the name. |
| `PrivacyManager.PrivacyStore.SaveData` | wa/week7/privacy-manager.js:5-19 | Returns `SaveReply` and leaves `AfterSave`, after the consent check and then the write. |
| `PrivacyManager.PrivacyStore.SetConsent` | wa/week7/privacy-manager.js:73-79 | Writes the consent answer with a 365-day expiry, without a consent check. Every other key is kept. |
| `PrivacyManager.PrivacyStore.GetConsent` | wa/week7/privacy-manager.js:82-84 | Returns whether the consent entry reads as `true`, with the read's lazy expiry. |
| `PrivacyManager.PrivacyStore.HasAnsweredConsent` | wa/week7/privacy-manager.js:87-89 | True iff the raw consent key is present, which is `Answered(items)`. That holds even when the entry has expired (`AnsweredEvenIfExpired`). |
| `PrivacyManager.PrivacyStore.ClearAllData` | wa/week7/privacy-manager.js:43-50 | The key-by-key loop leaves exactly `Cleared` of the old store. |
| `PrivacyManager.PrivacyStore.GetAllStoredData` | wa/week7/privacy-manager.js:53-70 | Throws iff some prefixed entry is unparseable. Otherwise the result lists the prefixed entries exactly: one record per key, named without the prefix, with that entry's value and expiry. |
| `PrivacyManager.PrivacyStore.RequestLocation` | wa/week7/privacy-manager.js:92-96 | The request is refused with "need consent" iff consent reads false. It goes on to the browser iff consent reads true. |
| `PrivacyManager.PrivacyStore.GetLocation` | wa/week7/privacy-manager.js:134-136 | Reads the `userLocation` name like `GetData`. |
| `PrivacyManager.PrivacyStore.RemoveLocation` | wa/week7/privacy-manager.js:139-141 | Removes exactly the `userLocation` entry. |
| `PrivacyManager.PrivacyStore.SweepExpired` | wa/week7/privacy-manager.js:144-158 | The page-load loop leaves exactly `Swept` of the old store. |
| `PrivacyManager.SaveRefused` | wa/week7/privacy-manager.js:5-10 | Without consent, a save under any name but the consent name returns false. The store is unchanged, except that an expired consent entry is removed by the check. |
| `PrivacyManager.SaveAccepted` | wa/week7/privacy-manager.js:12-18 | With consent, or when saving the consent answer, the save returns true. The store becomes the old store with the prefixed key set to the value and an expiry 30 days on. |
| `PrivacyManager.SaveThrows` | wa/week7/privacy-manager.js:6-7 | An unparseable consent entry makes the save throw and change nothing. |
| `PrivacyManager.ReadCases` | wa/week7/privacy-manager.js:22-34 | A missing name reads null and a live entry reads its value; neither changes the store. An expired entry (`now > expiry`) reads null and exactly that entry is removed. |
| `PrivacyManager.SavedValueReadsBack` | wa/week7/privacy-manager.js:12-34 | After a successful save the value reads back at any time up to its expiry. After the expiry it reads null and is removed. |
| `PrivacyManager.ConsentReadsBack` | wa/week7/privacy-manager.js:73-84 | After `SetConsent(g)` the consent check reads `g` at any time within 365 days. The question counts as answered. |
| `PrivacyManager.AnsweredEvenIfExpired` | wa/week7/privacy-manager.js:87-89 | Granted consent implies the question was answered. An expired consent entry still counts as answered while it reads as no consent. |
| `PrivacyManager.ClearedKeepsOthers` | wa/week7/privacy-manager.js:43-50 | Clearing removes exactly the prefixed keys and keeps every other key and value. Afterwards every name reads null, consent is unanswered and the empty listing is exact. |
| `PrivacyManager.ListingCount` | wa/week7/privacy-manager.js:53-70 | An exact listing has as many records as the store has prefixed keys. |
| `PrivacyManager.SweptRemovesExpired` | wa/week7/privacy-manager.js:144-157 | The sweep removes exactly the prefixed entries with `now > expiry` and skips unparseable ones. It keeps the rest unchanged, and a second sweep changes nothing. |
| `PrivacyManager.SweepAgreesWithReads` | wa/week7/privacy-manager.js:144-157 | At the same time, every name reads the same before and after the sweep. Reads on a swept store remove nothing. Sweeping after a read gives the same store as sweeping alone. |

## Left out

- Network calls: fetching a new deck, drawing cards, and reverse geocoding. A new deck is a parameter of `DealGame` (`None` when the request fails). The remote deck's remaining cards are the field `shoe`.
- `Blackjack.Round.DealGame`: requires the new deck to hold at least four cards. A failed four-card draw makes the page split `undefined` cards and then throw while rendering; that is not modelled.
- `Blackjack.Round.Hit`: requires a next card and a deck that can still complete the dealer's draws (`DealerDrawLimit` gives the bound). A failed draw makes the page push `undefined` onto the hand; that is not modelled. It also requires `!gameOver`, the rule the page enforces only by disabling the button.
- `Blackjack.Round.Stand`: requires `!gameOver` (the disabled button) and enough cards for the dealer's draws, for the same reason as `Hit`.
- Card values other than ace, king, queen, jack and the numbers 2 to 10 (`ValidCard`). The page would add `NaN` for them.
- Asynchrony: a click while a draw is pending could interleave two handlers. Each operation here runs to completion.
- Rendering: `displayHands`, alerts, console logging, enabling and disabling buttons, and the hidden dealer card.
- JSON: entries are stored as structured values. Only text that does not parse at all is modelled (`Unparseable`). Stored text that parses to something other than an entry object, such as `5`, `null` or `{}`, is not modelled; `Unparseable` must not be used for such text.
- `Value`: `Data` never holds the text of a JSON boolean. A boolean is always `Bool`, so `Data("true")` does not stand for the page's `true`.
- `getAllStoredData` formats the expiry with `toLocaleDateString`; `StoredItem.expires` keeps the raw milliseconds. The order of the listing follows the browser's key order, which the model leaves open.
- `saveData` reads the clock twice, once in the consent check and once for the expiry. The model uses one `now` for both.
- `setItem` throwing when storage is full is not modelled.
- The geolocation flow of `requestLocation` past its consent gate (`wa/week7/privacy-manager.js:98-130`). This includes saving the location it finds.
- The other pages are not part of this model: the trivia fetcher, the movie search with fuzzy matching, the chart page, the particle background and the privacy settings UI.
