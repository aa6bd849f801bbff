# Warehouse and shop inventory: a Dafny model

This project models the core of a small Python program, `main.py`. It is a
console simulation of a warehouse and a shop:

- `Store` is the warehouse. It maps item titles to quantities and holds at most 100 units.
- `Shop` is a `Store` with capacity 25. It also refuses a sixth distinct title.
- `check_request` validates a tokenised Russian command, for example
  `доставить 3 елки из склад в магазин` (deliver) or `забрать 2 елки из магазин` (collect).
- The body of the `main` loop runs a validated request. A delivery is a warehouse
  `remove` followed by a shop `add`. If the shop refuses, the stock is put back into
  the warehouse.

Containers are immutable `Store` values, `Store(items: map<string, int>, capacity: int)`.
Each operation returns a `Reply` that holds the outcome and the container afterwards.
The messages main.py prints become values:

- refusals become `Failure` (`NoRoom(free)`, `TooManyTitles(5)`, `NotFound(title)`, `NotEnough`);
- validator messages become `RequestError`;
- a whole command yields `Step(outcome, World(warehouse, shop))`.

Modules:

- `Text`: the `Option` type, lower-casing, and the `int()` stand-in `ParseInt` with its inverse `ShowInt`.
- `Totals`: `Total`, the sum of a map's values, and the executable loop `SumValues`.
- `Inventory`: `Store.add` (`Add`), `Store.remove` (`Remove`), `Shop.add` (`ShopAdd`), free space, and the invariants.
- `Commands`: `check_request` (`CheckRequest`), a declarative grammar `WellFormed`, and `Render` for writing commands. `CheckRequest` reads words 4 and 6 only behind the length checks main.py makes, and Dafny's index checks on its body confirm that no word past the end is read.
- `Transfer`: request building, `Deliver`, `Collect`, and dispatch (`Execute`, `Handle`), with the all-or-nothing and invariant lemmas.
- `Sessions`: runs of operations and of commands from fresh containers, plus the seed stock that `main` adds before reading input.
- `Scenarios`: concrete single-command runs.

The invariant kept by both containers is `Valid`: every quantity is positive and the total is
strictly below capacity. It is strict because `add` refuses an add that would fill the
container exactly. The shop also keeps at most 5 titles (`ShopValid`). The free unit that
strictness guarantees is what makes the ignored compensating add at `main.py:170` always succeed.

Some behaviours of `main.py` that are easy to misread:

- The result of the compensating add at main.py:170 is ignored. `Transfer.DeliverRollsBack` proves
  that it cannot fail on a valid warehouse.
- The request takes its destination from word 7 whenever there are 7 or more words, collections
  included (main.py:154-157, `MakeRequest`, `Transfer.ValidatedRequest`).
- `add` refuses an add that would make the total equal to the capacity (main.py:38), so the total
  always stays strictly below capacity.
- `add` and `remove` do not check the sign of the quantity (main.py:36-56). The model takes any
  `int`; the invariant lemmas assume a positive quantity, which validation guarantees.
- Dispatch compares the source word as typed, case-sensitively (main.py:160), although validation
  lower-cased it (see Findings).
- The executable free-space computation, `Inventory.GetFreeSpace` on top of `Totals.SumValues`, is
  proved equal to the ghost `Inventory.FreeSpace`. The container operations are stated with the
  ghost `FreeSpace`; nothing in the model calls `GetFreeSpace`.

## Model

| member | source | states |
|---|---|---|
| Totals.TotalAtLeastSize | main.py:60 | when every quantity is positive, the sum is at least the number of titles |
| Totals.TotalRemove | main.py:60 | the sum of the quantities does not depend on the order in which keys are visited |
| Totals.SumValues | main.py:60 | the summing loop over the keys returns exactly the sum of all quantities |
| Inventory.GetFreeSpace | main.py:58-60 | free space is the capacity minus the summed quantities |
| Inventory.FreeSpace | main.py:58-60 | an empty container has its whole capacity free; with positive quantities the free space is at most the capacity minus the number of titles |
| Inventory.DistinctTitles | main.py:66-68 | the count is zero exactly when nothing is held, and with positive quantities it never exceeds the units held |
| Inventory.Add | main.py:36-44 | succeeds exactly when free space strictly exceeds the quantity (equality refused); a refusal reports the free space and changes nothing; success adds the quantity to the title (created if absent), leaves every other title and the capacity alone, and lowers the free space by the quantity |
| Inventory.Remove | main.py:46-56 | an absent title is NotFound and a larger quantity is NotEnough, both with nothing changed; success lowers only that title, drops it exactly when it reaches zero, and raises the free space by the quantity |
| Inventory.ShopAdd | main.py:76-79 | a new title with 5 titles already held is refused before any capacity check, even with room left; a held title, or fewer than 5 titles, goes to the plain add |
| Inventory.EmptyContainersValid | main.py:32-34 | a fresh warehouse (100 free) and a fresh shop (25 free) satisfy their invariants |
| Inventory.AddPreservesValid | main.py:38-44 | a positive add keeps every quantity positive and the total strictly below capacity |
| Inventory.RemovePreservesValid | main.py:50-55 | a positive remove keeps every quantity positive and the total strictly below capacity |
| Inventory.ShopAddPreservesValid | main.py:76-79 | the shop add also keeps the number of distinct titles at most 5 |
| Inventory.ShopRemovePreservesValid | main.py:46-56 | removing from the shop keeps the shop invariant, title limit included |
| Inventory.RemoveThenAdd | main.py:165-170 | putting back what a successful remove took succeeds exactly when one unit was free beforehand, and then restores the original container exactly |
| Inventory.AddThenRemove | main.py:38-55 | taking back what a successful add put in restores a container of positive quantities exactly |
| Text.Lower | main.py:103-116 | lower-casing keeps the length, lowers each character on its own, and leaves no upper-case letter in the result |
| Text.LowerIdempotent | main.py:103-116 | lower-casing an already lower-cased word changes nothing |
| Text.LowerOfLowerCase | main.py:103-116 | a word without upper-case letters is its own lower-case form |
| Text.ParseInt | main.py:95-98 | a number is read only from a token that starts with a digit or a sign, a negative one only after `-`, and never from more than 4300 digits |
| Text.ParseShowInt | main.py:95-98 | the amount parser reads the canonical decimal text of every integer of at most 4300 digits, sign included, back to that integer, and refuses the text of every longer one |
| Commands.CheckRequest | main.py:90-118 | fewer than 5 words is always TooFewWords; each later error arises exactly when all earlier checks pass and its own check fails; acceptance implies the grammar with a positive amount |
| Commands.CheckRequestAcceptsExactly | main.py:92-118 | the validator accepts with amount n exactly the commands matching the order-free grammar with amount n |
| Commands.ExtraWordsIgnored | main.py:106-116 | words after the seventh never change the verdict, so no word beyond those read matters |
| Commands.CaseInsensitive | main.py:103-116 | commands that agree after lower-casing and have the same amount word get the same verdict |
| Commands.KeywordsAreLowerCase | main.py:103-116 | the four command words are their own lower-case form |
| Commands.PromptVerbsLowerToVerbs | main.py:136-137 | the capitalised verbs the prompt prints, `Доставить` and `Забрать`, lower-case to the verbs the validator expects |
| Commands.RenderAccepted | main.py:136-137 | both prompt templates as printed, capitalised verb included, filled with a positive amount of at most 4300 digits, are accepted with that amount; a longer amount is reported as not an integer |
| Transfer.MakeRequest | main.py:154-158 | the request keeps word 5 as typed as its source and has a destination exactly when there are 7 or more words, that destination being word 7 |
| Transfer.ValidatedRequest | main.py:149-158 | a request built from a validated command has a positive amount; its source names the warehouse exactly for a delivery verb and the shop exactly for a collect verb; a delivery always has the shop as destination, a collection has a destination exactly when it has 7 or more words |
| Transfer.Deliver | main.py:160-170 | a delivery completes exactly when the warehouse remove and the shop add both succeed; otherwise the shop is unchanged, and with a free warehouse unit the warehouse is too (the lemmas DeliverFirstLegRefused, DeliverRollsBack, DeliverMoves and DeliverAllOrNothing state the rest) |
| Transfer.Collect | main.py:172-174 | a collection never touches the warehouse; it completes exactly when the shop holds at least the amount of the product, and then only that product falls by the amount; otherwise it is refused with NotFound for an absent product or NotEnough, and nothing changes |
| Transfer.Execute | main.py:160 | a source word other than the exact warehouse word leaves the warehouse unchanged; with a valid warehouse a request either completes or changes nothing |
| Transfer.Handle | main.py:149-174 | a command is reported invalid exactly when the validator rejects it; with a valid warehouse a command either completes or changes nothing (the lemmas RejectedChangesNothing, SourceWordCaseQuirk, CollectVerbCollects, WarehouseWordDelivers and HandlePreservesValid state the rest) |
| Transfer.DeliverFirstLegRefused | main.py:162-165 | a refused warehouse remove ends the delivery with its failure and both containers unchanged |
| Transfer.DeliverRollsBack | main.py:166-170 | when the shop refuses and the warehouse had a free unit, the compensating add succeeds and both containers end exactly as before, with the shop's failure reported |
| Transfer.RollbackNeedsFreeUnit | main.py:170 | without a free unit before the delivery, the compensating add would be refused |
| Transfer.DeliverMoves | main.py:162-168 | a completed delivery moves the amount of the product from warehouse to shop, touches no other title, and conserves the combined stock |
| Transfer.DeliverAllOrNothing | main.py:160-170 | with a valid warehouse a delivery either completes or leaves both containers unchanged, and never changes the combined stock |
| Transfer.CollectTakes | main.py:172-174 | a collection never touches the warehouse; it succeeds exactly when the shop holds enough, then lowers only the product by the amount and the combined stock by the same amount; a refusal names NotFound or NotEnough and changes nothing |
| Transfer.RejectedChangesNothing | main.py:149-152 | a command the validator rejects changes neither container |
| Transfer.SourceWordCaseQuirk | main.py:158-160 | a validated command whose source word is not exactly the lower-case warehouse word runs only the shop remove and leaves the warehouse unchanged |
| Transfer.CollectVerbCollects | main.py:158-174 | every validated collect command runs the shop remove |
| Transfer.WarehouseWordDelivers | main.py:158-170 | a validated command whose source word is exactly the warehouse word is a delivery verb and runs the delivery |
| Transfer.HandlePreservesValid | main.py:149-174 | every command keeps both containers valid and never raises the combined stock |
| Transfer.IntendedDispatchFollowsVerb | main.py:160 | with dispatch on the lower-cased word, every validated command runs what its verb says |
| Transfer.IntendedAgreesOnLowerCase | main.py:160 | the intended and the written dispatch agree whenever the source word is typed in lower case |
| Transfer.HandleIntendedPreservesValid | main.py:160-174 | the intended dispatch keeps both containers valid and never raises the combined stock |
| Sessions.RunStoreValid | main.py:36-56 | any run of positive adds and removes keeps a valid container valid |
| Sessions.RunShopValid | main.py:71-79 | any run of positive shop adds and removes keeps the shop valid, title limit included |
| Sessions.FreshContainersStayValid | main.py:32-34 | from empty, any run of positive operations keeps quantities positive, at least one unit free, and at most 5 shop titles |
| Sessions.RunCommandsValid | main.py:141-174 | any sequence of commands keeps both containers valid and never creates stock |
| Sessions.RunFreshPuts | main.py:38-41 | adding fresh, distinct titles whose quantities sum below the free space succeeds every time and lowers the free space by that sum |
| Sessions.SeedStockAdded | main.py:127-132 | the six seed adds all succeed, leaving 81 units in six titles and 19 free |
| Scenarios.DeliveryCompletes | main.py:160-168 | warehouse {елки: 10} and an empty shop: `Доставить 5 елки из склад в магазин` leaves 5 in each |
| Scenarios.DeliveryRolledBack | main.py:166-170 | warehouse {елки: 10} and a shop with 5 other titles: the delivery is refused with TooManyTitles(5) and the warehouse stays at 10 |
| Scenarios.CollectionsDrain | main.py:172-174 | shop {елки: 5}: collecting 3 leaves 2; collecting 2 more drops the title |
| Scenarios.ShortCommandRejected | main.py:92-93 | the two-word command `купить много` is TooFewWords, although neither word is valid |
| Scenarios.SixWordDeliveryRejected | main.py:106-110 | a six-word delivery naming the warehouse is TooFewWordsForDelivery, not a keyword error |
| Scenarios.CapitalisedWarehouseWordCollects | main.py:160-174 | `Доставить 5 елки из Склад в магазин` is accepted, then runs a shop remove: NotFound on an empty shop, warehouse untouched |
| Scenarios.CapitalisedWarehouseWordDeliversWhenIntended | main.py:160 | with the intended dispatch the same command completes the delivery |

## Left out

- The console loop is not modelled: the prompt, `input()`, the exit word and all printing (main.py:133-152, 176-177). `Handle` is one iteration of the loop, and `RunCommands` is a sequence of them.
- Message text is not modelled. Outcomes are `Failure`/`RequestError` values, which carry only the data the text shows: the free space (main.py:39) and the title (main.py:49). The success text of `add` (main.py:44) carries no data. The success text of `remove` (main.py:56) repeats the quantity and the title, which the caller already has, so `Ok` carries nothing.
- Text.ParseInt: `int()` is modelled only for ASCII digits with an optional sign and single underscores between digits, with the 4300-digit limit of Python 3.11 and later (and of the 3.10.7, 3.9.14, 3.8.14 and 3.7.14 security releases); older Pythons convert any length. Surrounding whitespace cannot occur in a token from `split()`. Non-ASCII Unicode digits are left out.
- Text.Lower: `str.lower()` is modelled only for ASCII A-Z and the Cyrillic capitals U+0400-U+042F. Other letters map to themselves, and one-to-many lowerings are left out. No letter outside these ranges lowers to a letter of the four command words, so keyword matching is unaffected.
- The in-place overwrite of the amount word (main.py:96) is not modelled. `Accepted(amount)` carries the parsed value, and `MakeRequest` receives it.
- The abstract base class (main.py:4-28) is left out. `get_items` returning the live dictionary (main.py:62-64) is left out too: a map value is already a snapshot. `get_unique_items_count` is `DistinctTitles`.
- Inventory.RemovePreservesValid: stated for positive quantities only. `Store.remove` with a negative quantity raises the stock without a capacity check. No validated command can do that, because validation demands a positive amount.
- Sessions.RunStoreValid: stated for positive quantities only, for the same reason.
- Sessions.RunShopValid: stated for positive quantities only, for the same reason.

## Findings

| source | as written | input that shows it | evidently intended | confidence | as-written member | corrected member |
|---|---|---|---|---|---|---|
| main.py:160 | dispatch compares the source word as typed (`== "склад"`), although validation accepted it after lower-casing | `Доставить 5 елки из Склад в магазин`: accepted, then run as a shop remove of 5 елки, and no delivery happens | dispatch on the lower-cased word, so that every validated delivery delivers | high; not executed | Transfer.SourceWordCaseQuirk | Transfer.IntendedDispatchFollowsVerb |

The written behaviour is `Transfer.Handle`. Its concrete counterexample is
`Scenarios.CapitalisedWarehouseWordCollects`. The corrected command step is
`Transfer.HandleIntended`, and `Scenarios.CapitalisedWarehouseWordDeliversWhenIntended` shows
the same input delivering under it. Both dispatches are proved to keep the invariants, and they
agree on every command whose source word is typed in lower case. The rest of the model keeps the
written dispatch, because that is what the program does.
