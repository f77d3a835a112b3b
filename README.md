# Memory cards game: a verified model of the deck loader and the recall game

The application is a browser flashcard trainer. Images are kept in the
browser's `localStorage` under their file names. At start-up the `App`
component reads every entry, derives a numeric sort key from each name,
sorts the records by that key and hands their image data, in order, to the
`MemoryGame` component. The game shows one card at a time. A click reveals
or hides the card. "Remembered" or "forgot" counts the card, but only while
it is revealed, and moves on. After the last card an alert reports the
tally and the round starts over.

This project models those two pieces of `src/App.js`:

- `SortKey` (sort_key.dfy): `lastIndexOf`, `substring` with its clamping,
  and the numeric value of the text before a name's last `.`.
- `Deck` (deck.dfy): the loop that builds one `{key, name, data}` record
  per store entry, the stable sort by key, the projection of the sorted
  records onto their `data`, and the load effect that combines them.
- `Recall` (memory_game.dfy): the class `MemoryGame` with its four state
  fields, the `images` prop, and the handlers `revealCard`,
  `handleRemember`, `handleForget` and `nextCard`. Each handler is one
  atomic step. What a handler reads is the state of the render that
  created it, and its queued updates are applied in order.
- `Wrappers` (wrappers.dfy): an `Option` type.

The browser store is an input `seq<(string, string)>` of `(name, value)`
entries, in the order `localStorage.key(i)` enumerates them. The
`getItem(key(i))` call is the value of entry i. The game-over `alert` is
returned as an `Option<Tally>`.

In three places the code does something other than what its names
suggest; the model follows the code:

- `nextCard` never sets `isRevealed` back to false (src/App.js:150-161).
  After a mark the next card is already revealed, so a second click hides
  it and a mark made then is ignored. `Recall.ThreeCardRound` plays this out.
- The alert shows the counts from before the mark that ended the round,
  because `nextCard` reads the render's values (src/App.js:154-156). In a
  three-card round marked remembered, forgot, remembered, the summary is
  1 remembered and 1 forgotten, not 2 and 1.
- A name with no `.` is not left without a key. `lastIndexOf` gives -1,
  `substring(0, -1)` gives `""`, and `+""` is 0, so such names get key 0
  and keep their store order among themselves.

## Model

| member | source | states |
|---|---|---|
| `SortKey.LastIndexOf` | src/App.js:192 | the result is -1 exactly when the character does not occur; otherwise it is a position holding the character with none after it |
| `SortKey.Substring` | src/App.js:192 | `substring(start, end)` with bounds in order and inside the string is the span between them; two bounds at or below 0 (such as `substring(0, -1)`) give `""`, and so do two bounds at or past the end |
| `SortKey.SubstringSymmetric` | src/App.js:192 | `substring` gives the same text whichever order its two bounds come in |
| `SortKey.KeyPrefix` | src/App.js:192 | the part of the name before its last '.': a prefix of the name followed by that '.', with no '.' after it; `""` when the name has no '.' |
| `SortKey.DecimalValue` | src/App.js:192 | a digit string of length L denotes a number below 10^L |
| `SortKey.NatToDecimal` | src/App.js:192 | the decimal spelling of n is a non-empty digit string with no leading zero unless n is 0 |
| `SortKey.Key` | src/App.js:192 | a name containing no '.' gets key 0 |
| `SortKey.DecimalRoundTrip` | src/App.js:192 | reading back the decimal spelling of n gives n |
| `SortKey.LeadingZeroIgnored` | src/App.js:192 | a leading zero does not change the key, as with `Number("007")` |
| `SortKey.IndexedNameKey` | src/App.js:192 | a name "<digits>.<ext>" whose extension has no '.' has the value of the digits as key, leading zeros included |
| `SortKey.NumberedNameKey` | src/App.js:192 | a name "<n>.<ext>", n written in decimal, whose extension has no '.' has key n |
| `SortKey.ZeroPaddedKey` | src/App.js:192 | "007.png" has key 7 |
| `SortKey.KeyUsesLastDot` | src/App.js:192 | a name is keyed by the text before its last '.': the prefix of "1.2.png" is "1.2", which has no key in the model |
| `SortKey.NumericKeys` | src/App.js:192 | "2.png" and "10.png" get keys 2 and 10 |
| `Deck.Records` | src/App.js:187-196 | one record per store entry, in store order, with name equal to the entry's key, data equal to its value and key equal to the name's sort key |
| `Deck.CollectRecords` | src/App.js:187-196 | the loop builds exactly the records of the store |
| `Deck.WithKey` | src/App.js:197 | the records picked for a key are records of the input and carry that key |
| `Deck.WithKeyComplete` | src/App.js:197 | every record of the input with the key is picked |
| `Deck.Insert` | src/App.js:197 | inserting adds exactly one record: the multiset grows by that record |
| `Deck.InsertSorted` | src/App.js:197 | inserting into a key-sorted sequence keeps it sorted |
| `Deck.InsertWithKey` | src/App.js:197 | the inserted record comes before every record of equal key, and the others of equal key keep their order |
| `Deck.SortByKey` | src/App.js:197 | the sorted copy has the same length, is in non-decreasing key order and is a permutation of the records |
| `Deck.SortByKeyStable` | src/App.js:197 | for every key, the records with that key keep their original relative order |
| `Deck.SortByKeyIsStableSort` | src/App.js:197 | the sorted copy is sorted and stable for all keys at once |
| `Deck.StableSortUnique` | src/App.js:197 | two sorted sequences whose records of each key appear in the same order are equal |
| `Deck.StableSortIsSortByKey` | src/App.js:197 | any result a stable sort by key may return is the model's sorted copy |
| `Deck.Images` | src/App.js:184 | the deck has one entry per sorted record, and its i-th entry is the data of the i-th record |
| `Deck.LoadSorted` | src/App.js:186-201 | the loaded list has one record per store entry, is sorted by key, is a permutation of the store's records and is stable for every key |
| `Deck.ImagesInsert` | src/App.js:184 | inserting a record adds exactly its data to the multiset of the deck |
| `Deck.ImagesSortByKey` | src/App.js:184 | sorting does not change the multiset of image data |
| `Deck.DeckHoldsStoredValues` | src/App.js:184-201 | the deck has one entry per store entry and holds exactly the stored values, each as often as it is stored |
| `Deck.NumericOrderExample` | src/App.js:192-197 | "2.png" is dealt before "10.png": keys compare as numbers, not as text |
| `Deck.NoDotKeepsStoreOrder` | src/App.js:192-197 | names without a '.' all get key 0 and are dealt in store order |
| `Recall.MemoryGame.constructor` | src/App.js:127-132 | a game starts at index 0 with both counters 0, the card hidden and the invariant holding |
| `Recall.MemoryGame.RevealCard` | src/App.js:133 | `isRevealed` flips and no other field changes; the invariant is kept |
| `Recall.MemoryGame.NextCard` | src/App.js:150-161 | before the last card the index grows by 1 and the counters are untouched; on the last card or an empty deck the captured counts are reported and index and counters become 0; `isRevealed` is never changed |
| `Recall.MemoryGame.HandleRemember` | src/App.js:136-140 | hidden: nothing changes and nothing is reported; revealed before the last card: the index and the remembered count grow by 1, the forgotten count and `isRevealed` stay; revealed on the last card: the counts from before the mark are reported and index and counters become 0; the invariant is kept |
| `Recall.MemoryGame.HandleForget` | src/App.js:143-147 | as HandleRemember, with the forgotten count in place of the remembered count |
| `Recall.MemoryGame.CurrentImage` | src/App.js:172 | the card shown exists exactly when the deck is non-empty, and is a card of the deck |
| `Recall.MemoryGame.ReceiveImages` | src/App.js:205 | a new `images` prop keeps the game state, and the invariant survives whenever the index is still a card of the new deck, in particular at index 0 |
| `Recall.RevealTwice` | src/App.js:133 | revealing twice restores every field |

## Left out

- `ImageUploader` (src/App.js:4-90): file reading through `FileReader`
  callbacks, `window.location.reload()`, the empty `setTimeout` and the
  thumbnail lists. This is asynchronous browser I/O with no logic to state.
- `localStorage` itself: `setItem` overwriting, `clear` (src/App.js:55) and
  its capacity limit. The store is an input sequence of entries.
- The `.sort((a, b) => a.key - b.key)` on the rendered `<img>` elements
  (src/App.js:72, src/App.js:86). It orders React elements by their index
  keys, a rendering concern.
- `Deck.CollectRecords`, `Deck.Records`, `Deck.LoadSorted`: require every
  name's text before its last '.' to be decimal digits or empty. `Number`
  on any other text (NaN, fractions such as "1.5", hex, exponents,
  surrounding blanks) is floating point, and a NaN-returning comparator
  leaves the sort order implementation-defined.
- `SortKey.Key`: keys are unbounded naturals; `Number` rounds digit strings
  above 2^53 to doubles, which can make distinct prefixes compare equal.
- `SortByKey` is one stable sort, not the engine's algorithm.
  `Deck.StableSortIsSortByKey` shows that every stable sort by key gives the
  same result, so the choice does not matter.
- The JSX of `Card`, `MemoryGame` and `App`, `console.log` (src/App.js:198)
  and the exact alert text.
- React's rendering schedule. Each handler is applied as a whole step
  before the next event, which is what one click does.
