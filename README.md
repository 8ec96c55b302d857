# Marketplace front end: verified model of its input rules

The marketplace front end renders contracts streamed from a DAML ledger and
collects input for the choices it exercises. Almost all of it is presentation.
This project models the few rules in it that decide something:

- **Selection helpers** (`ui2/src/pages/common.ts`). The run-time string-array
  test, the multi-select dropdown update, dropdown-item defaulting, and the two
  list-to-map builders (`wrapTextMap`, `makeDamlSet`).
- **Order entry** (`ui/src/components/Investor/OrderForm.tsx`). The precision
  check on typed input, the sufficient-funds check, the Bid/Offer dispatch to the
  ledger, and the rule that disables the buttons.
- **New auction** (`ui/src/pages/distribution/auction/New.tsx`). The version-'0'
  asset lookup, the de-duplicated held labels, the two mutually exclusive
  dropdowns, the submit guard, the first-match deposit choice, the
  split-only-if-larger rule and the request the page sends.
- **Party cache** (`ui/src/Parties.ts`). Storing and reading the imported parties
  in browser storage, dropping an entry the converter rejects, and the user-party
  filter.

Modules, one per file:

| file | module | models |
|---|---|---|
| `wrappers.dfy` | `Wrappers` | `undefined` and thrown errors as `Option`, `Result`, `Outcome` |
| `seqs.dfy` | `Seqs` | `filter`, `find`, `findIndex`, `indexOf`, `split`, the `indexOf` de-duplication idiom |
| `numbers.dfy` | `Numbers` | unary `+` and `parseFloat` on text, exactly, with NaN |
| `daml.dfy` | `Daml` | ledger records, and the ledger as a log of exercised choices |
| `common.dfy` | `Common` | `ui2/src/pages/common.ts` |
| `order_form.dfy` | `OrderForm` | `OrderForm.tsx` |
| `new_auction.dfy` | `NewAuction` | `New.tsx` |
| `parties.dfy` | `Parties` | `Parties.ts` |

Numbers are exact reals, not doubles. A text that is not a number becomes
`NaN`, and `NaN` is carried through sums and comparisons as JavaScript does.
This exposes two behaviours of the code as written:

- `validateDeposits` never reports insufficient funds when some deposit quantity
  or the amount is not a number. Any comparison with NaN is false.
- The order buttons stay enabled for fields that are not numbers. Only empty
  fields and literal zeros disable them.

On the New Auction page, Submit can be enabled while no deposit qualifies. The
request then does nothing.

Ledger calls are only recorded. `Daml.Ledger` keeps the sequence of choices
exercised, with their arguments. Where the page uses a ledger answer (the
contract id produced by a split), that answer is a parameter of the method.

## Model

| member | source | states |
|---|---|---|
| `Common.AllStringsFrom` | ui2/src/pages/common.ts:11-13 | the `reduce` fold is true exactly when the seed is true and every element is a string |
| `Common.IsStringArray` | ui2/src/pages/common.ts:9-17 | true exactly for an array whose every element is a string (the empty array included); false for every non-array |
| `Common.SelectMultipleUpdate` | ui2/src/pages/common.ts:19-29 | a single string appends to the current list; a string array replaces it wholesale; any other value means the setter is not called |
| `Common.SelectionState.HandleSelectMultiple` | ui2/src/pages/common.ts:19-29 | the selection cell becomes current + [s], or the given string array, or stays as it was |
| `Common.OrElse` | ui2/src/pages/common.ts:36-37 | `x \|\| fallback`: a non-empty given text wins; undefined and "" fall back |
| `Common.CreateDropdownProp` | ui2/src/pages/common.ts:31-39 | text is kept; value falls back to text when absent or empty; key falls back to the resulting value |
| `Common.TextOnlyDropdownProp` | ui2/src/pages/common.ts:35-38 | with only a text, key, value and text are all that text |
| `Common.CreateDropdownPropIdempotent` | ui2/src/pages/common.ts:35-38 | feeding an item's own non-empty key and value back in reproduces the item |
| `Common.SetFrom` | ui2/src/pages/common.ts:52 | the `reduce` with `map.set(val, {})` gives the seed's keys plus every item |
| `Common.MakeDamlSet` | ui2/src/pages/common.ts:51-53 | the key set is exactly the set of items, each mapped to `{}` |
| `Common.MakeDamlSetDuplicate` | ui2/src/pages/common.ts:51-53 | adding an item already present changes nothing: duplicates collapse |
| `Common.MakeDamlSetSize` | ui2/src/pages/common.ts:51-53 | one entry per distinct item: at most as many entries as items, and as many exactly when no item repeats |
| `Common.WrapTextMap` | ui2/src/pages/common.ts:41-49 | the `forEach` loop yields exactly one `{}` entry per distinct item, the same map as `makeDamlSet` |
| `Seqs.Filter` | ui/src/pages/distribution/auction/New.tsx:43 | `filter` keeps exactly the elements that pass, never more than the input |
| `Seqs.FilterConcat` | ui/src/pages/distribution/auction/New.tsx:43 | `filter` preserves relative order: it distributes over concatenation |
| `Seqs.FilterKeepsAll` | ui/src/Parties.ts:35 | `filter` returns its input unchanged exactly when every element passes |
| `Seqs.Find` | ui/src/pages/distribution/auction/New.tsx:44 | `find` answers undefined exactly when nothing matches, else the first match |
| `Seqs.FindInFilter` | ui/src/pages/distribution/auction/New.tsx:96-100 | `find` after `filter` is the first element passing both tests |
| `Seqs.FilterHeadIsFind` | ui/src/pages/distribution/auction/New.tsx:77 | element 0 of a filtered array is what `find` would answer |
| `Seqs.FindAfterFilters` | ui/src/pages/distribution/auction/New.tsx:96-100 | `find` after three filters is the first element passing all four tests |
| `Seqs.FindIndex` | ui/src/pages/distribution/auction/New.tsx:97 | `findIndex` is -1 exactly when nothing matches, else the first matching index |
| `Seqs.IndexOf` | ui/src/pages/distribution/auction/New.tsx:50 | `indexOf` is -1 exactly when absent, else the first index holding the value |
| `Seqs.FirstOccurrencesFrom` | ui/src/pages/distribution/auction/New.tsx:50 | the filter run from index i keeps exactly the values whose first occurrence is at or after i, ordered by that occurrence |
| `Seqs.FirstOccurrences` | ui/src/pages/distribution/auction/New.tsx:50 | the `indexOf(v) === i` filter has no duplicates, keeps every value, and orders them by first occurrence |
| `Seqs.Split` | ui/src/components/Investor/OrderForm.tsx:107 | `split` yields at least one piece and no piece holds the separator |
| `Seqs.JoinSplit` | ui/src/components/Investor/OrderForm.tsx:107 | joining the pieces of a split with the separator gives back the text |
| `Seqs.SplitHead` | ui/src/components/Investor/OrderForm.tsx:107 | piece 0 is the text before the first separator; there is one piece exactly when there is no separator |
| `Seqs.SplitSecond` | ui/src/components/Investor/OrderForm.tsx:107 | piece 1 is the text between the first and the second separator |
| `Numbers.LeadingDigits` | ui/src/pages/distribution/auction/New.tsx:84 | the longest all-digit prefix: a prefix, all digits, followed by a non-digit or the end |
| `Numbers.ToNumber` | ui/src/components/Investor/OrderForm.tsx:43 | unary `+`: "" reads as 0, and a text starting with anything but a digit, a sign or '.' is NaN |
| `Numbers.ParseFloat` | ui/src/pages/distribution/auction/New.tsx:84 | `parseFloat`: "" and a text starting with anything but a digit, a sign or '.' are NaN; it agrees with unary `+` wherever that gives a number, and is NaN only where unary `+` is too (or on "") |
| `Numbers.Add` | ui/src/components/Investor/OrderForm.tsx:43 | `+` on numbers: finite exactly when both operands are, and then the exact sum |
| `Numbers.LiteralConverts` | ui/src/pages/distribution/auction/New.tsx:84 | a decimal literal converts to the value it denotes, and `parseFloat` agrees with unary plus on it |
| `Numbers.ToNumberFinite` | ui/src/components/Investor/OrderForm.tsx:43-45 | unary plus gives a number exactly for "" and for the decimal literals |
| `Numbers.ToNumberZero` | ui/src/components/Investor/OrderForm.tsx:121-123 | `+s === 0` exactly for "" and for literals with no digit other than '0' |
| `OrderForm.Fractional` | ui/src/components/Investor/OrderForm.tsx:107 | `split(".")[1]` is defined exactly when the text holds a '.', and holds no '.' itself |
| `OrderForm.Utf16Length` | ui/src/components/Investor/OrderForm.tsx:108 | `.length` counts UTF-16 code units: at least one and at most two per character |
| `OrderForm.Utf16LengthBasic` | ui/src/components/Investor/OrderForm.tsx:108 | `.length` equals the character count exactly when no character lies beyond U+FFFF |
| `OrderForm.ValidateInput` | ui/src/components/Investor/OrderForm.tsx:102-114 | a value without '.' is always accepted |
| `OrderForm.FractionalIs` | ui/src/components/Investor/OrderForm.tsx:107 | `value.split(".")[1]` is the text after the first '.' up to the next one, and undefined when there is no '.' |
| `OrderForm.ValidateInputIff` | ui/src/components/Investor/OrderForm.tsx:107-110 | accepts exactly when there is no '.', or the text between the first and the next '.' is empty or at most `precision` UTF-16 units long |
| `OrderForm.SumFrom` | ui/src/components/Investor/OrderForm.tsx:42-43 | the `reduce` gives a number exactly when the seed and every quantity are numbers |
| `OrderForm.SumFromValue` | ui/src/components/Investor/OrderForm.tsx:42-43 | the running sum of quantities is the exact total, or NaN when some quantity is not a number |
| `OrderForm.ContractIds` | ui/src/components/Investor/OrderForm.tsx:52 | one contract id per deposit, in the deposits' order |
| `OrderForm.ValidateDeposits` | ui/src/components/Investor/OrderForm.tsx:41-53 | raises "Insufficient <label> amount. Try:" exactly when the amount exceeds the total held; otherwise answers every deposit's contract id in order |
| `OrderForm.Blank` | ui/src/components/Investor/OrderForm.tsx:121 | `!s \|\| +s === 0` holds exactly when `+s` is 0: the emptiness test adds nothing |
| `OrderForm.DisableButton` | ui/src/components/Investor/OrderForm.tsx:120-123 | an empty field disables the buttons; they are disabled exactly when some field reads as 0 |
| `OrderForm.DisableButtonIff` | ui/src/components/Investor/OrderForm.tsx:120-123 | the buttons are disabled exactly when price, amount or total is empty or a literal zero; a field that is not a number never disables them on its own |
| `OrderForm.Form.constructor` | ui/src/components/Investor/OrderForm.tsx:23-39 | the three cells start empty; the props are kept |
| `OrderForm.Form.ComputeValues` | ui/src/components/Investor/OrderForm.tsx:76-100 | a rejected value changes no cell; an accepted one is stored unchanged in the edited cell, and the dependent cell is set |
| `OrderForm.Form.PlaceOrder` | ui/src/components/Investor/OrderForm.tsx:55-71 | validates first and makes no ledger call on insufficient funds; otherwise BID exercises PlaceBid and OFFER PlaceOffer, with the key, price, amount, deposit ids and pair |
| `OrderForm.Form.PlaceBid` | ui/src/components/Investor/OrderForm.tsx:73 | a bid uses the bid deposits with the quote total |
| `OrderForm.Form.PlaceOffer` | ui/src/components/Investor/OrderForm.tsx:74 | an offer uses the offer deposits with the base amount |
| `Daml.Ledger.Exercise` | ui/src/pages/distribution/auction/New.tsx:110 | an exercised choice is appended to the ledger's log |
| `NewAuction.CustomerService` | ui/src/pages/distribution/auction/New.tsx:41-78 | the service used is the first whose customer is the party; none exists exactly when no service has that customer |
| `NewAuction.Assets` | ui/src/pages/distribution/auction/New.tsx:43 | exactly the asset descriptions of version '0' |
| `NewAuction.LookupAsset` | ui/src/pages/distribution/auction/New.tsx:43-45 | the first version-'0' description with the label; undefined exactly when there is none |
| `NewAuction.OwnedLabels` | ui/src/pages/distribution/auction/New.tsx:47-49 | exactly the labels of deposits whose account owner is the party |
| `NewAuction.HeldAssetLabels` | ui/src/pages/distribution/auction/New.tsx:47-50 | no duplicates; exactly the labels of the party's deposits; in order of first occurrence |
| `NewAuction.LabelOptions` | ui/src/pages/distribution/auction/New.tsx:127 | one option per label, in the labels' order, each with key, text and value equal to the label |
| `NewAuction.AuctionedAssetOptions` | ui/src/pages/distribution/auction/New.tsx:125-127 | exactly the held labels other than the current quoted label |
| `NewAuction.QuotedAssetOptions` | ui/src/pages/distribution/auction/New.tsx:142-148 | exactly the version-'0' labels other than the current auctioned label |
| `NewAuction.DropdownsExclusive` | ui/src/pages/distribution/auction/New.tsx:125-143 | a choice from either dropdown never equals the other dropdown's current label |
| `NewAuction.CanRequest` | ui/src/pages/distribution/auction/New.tsx:53-60 | enabled only with auction id, quantity and floor price filled in, and never when there is no asset description |
| `NewAuction.CanRequestIff` | ui/src/pages/distribution/auction/New.tsx:53-60 | Submit is enabled exactly when both labels, auction id, quantity and floor price are non-empty and both labels name a version-'0' asset |
| `NewAuction.Eligible` | ui/src/pages/distribution/auction/New.tsx:96-100 | a qualifying deposit is referenced by no auction request, and both its quantity and the requested quantity parse as numbers |
| `NewAuction.SelectDeposit` | ui/src/pages/distribution/auction/New.tsx:96-100 | the first deposit not referenced by an auction request, not the allocation account object, with the auctioned label and at least the quantity; none exactly when no deposit qualifies |
| `NewAuction.EnabledRequestNeedsOnlyDeposit` | ui/src/pages/distribution/auction/New.tsx:101 | once Submit is enabled, the request goes ahead exactly when some deposit qualifies |
| `NewAuction.History.Push` | ui/src/pages/distribution/auction/New.tsx:111 | navigation appends the path to the history |
| `NewAuction.RightsizeAsset` | ui/src/pages/distribution/auction/New.tsx:80-93 | splits, and answers the split-off id, only when the deposit is strictly larger; otherwise no ledger call and the deposit's own id |
| `NewAuction.SubmitAuctionRequest` | ui/src/pages/distribution/auction/New.tsx:102-111 | the optional split, then RequestCreateAuction with the quantity, the deposit's asset id, the quoted asset id, the floor price and the right-sized id, then navigation |
| `NewAuction.RequestCreateAuctionAction` | ui/src/pages/distribution/auction/New.tsx:95-112 | no ledger call and no navigation when an asset is missing or no deposit qualifies; otherwise exactly the calls above |
| `Wrappers.Option.GetOr` | ui/src/Parties.ts:33 | `retrieveParties() \|\| []`: the parties when defined, else the default |
| `Parties.AdminParty` | ui/src/Parties.ts:34 | the first entry named 'UserAdmin'; undefined exactly when there is none |
| `Parties.UserParties` | ui/src/Parties.ts:34-35 | keeps exactly the entries that are neither the admin's party nor the public party; with no 'UserAdmin' entry only the public party is dropped |
| `Parties.UserPartiesKeepOrder` | ui/src/Parties.ts:35 | the survivors keep their order |
| `Parties.UserPartiesKeepsAll` | ui/src/Parties.ts:34-35 | nothing is dropped when no entry is the admin or the public party |
| `Parties.PartyCache.constructor` | ui/src/Parties.ts:1-5 | the cache starts from the given storage and configuration |
| `Parties.PartyCache.Retrieved` | ui/src/Parties.ts:11-30 | undefined when nothing is cached; without validation, or when the error is absent or empty, exactly the converter's parties |
| `Parties.PartyCache.StoreParties` | ui/src/Parties.ts:7-9 | writes the serialised list under 'imported_parties' and changes no other key |
| `Parties.PartyCache.RetrieveParties` | ui/src/Parties.ts:11-30 | undefined and storage untouched when the key is absent or empty; on a non-empty conversion error with validation on, the key is removed and undefined answered; otherwise the converted parties, storage untouched |
| `Parties.PartyCache.RetrieveUserParties` | ui/src/Parties.ts:32-36 | the user-party filter of what is retrieved with validation on, [] when nothing is; an entry whose conversion reports a non-empty error is removed |
| `Parties.StoreThenRetrieve` | ui/src/Parties.ts:7-29 | after storing, retrieval hands the stored text to the converter and answers undefined only for a non-empty error with validation on, else the converter's parties |

## Left out

- React rendering, routing, hooks and DOM work are not modelled: screens, tables, cards, headers, themes and the claim-graph effects (New.tsx:62-74).
- `useState` cells update immediately in the model; React's deferred, batched updates are not modelled.
- The New Auction form cells are taken as one `Form` value. Their `onChange` setters (New.tsx:128-172) are plain assignments.
- OrderForm.Form.ComputeValues: the dependent cell gets the parameter `derived`. It stands for the floating-point product or quotient rounded by `toFixed` (OrderForm.tsx:86-99), which is not reproduced. This includes the division-by-zero guard of the 'total' case.
- Numbers: quantities are exact decimals. Double rounding in sums and comparisons is not reproduced.
- Numbers.ToNumber: only [sign] digits ['.' digits] and "" are numbers. Whitespace padding, exponents, `Infinity`, and hex, octal and binary literals give NaN here, not a number.
- Numbers.ParseFloat: reads no exponent, skips no leading whitespace, and does not read an "Infinity" prefix, which JavaScript reads as Infinity; the model answers NaN there.
- Common.WrapTextMap: keys are the items themselves. JavaScript turns object keys into strings, so distinct non-string items with the same string form would share one entry; that is not modelled.
- Common.MakeDamlSet: DAML's `Map` compares keys structurally, modelled with Dafny map keys. Its serialised key encoding is not modelled.
- OrderForm.Form.PlaceOrder: only BID and OFFER exist as order kinds. The `else if` branch that makes no call for any other kind is unreachable here. `OrderKind` (InvestorTrade) is not part of this model.
- Ledger calls are recorded, not executed. Their failures, the errors `FormErrorHandled` shows, and their asynchrony are not modelled. The split's answer is the parameter `splitCid`.
- The streamed contract lists (`useStreamQueries`) are parameters, as they stood when the page rendered.
- The allocation-account test at New.tsx:98 is JavaScript object identity. It is modelled by the number `Account.identity`, not by comparing contents.
- `convertPartiesJson` and `JSON.stringify` are external. They are the function-valued fields `convert` and `stringify` of `PartyCache`. The configured `ledgerId` and `publicParty` are fields too; the config module is not part of this model.
- `console.log` and `console.warn` output is not modelled.
