# MB voucher storefront — a Dafny model of its ordering logic

The storefront is a single-page shop selling "Voucher MB" packages: four packages
(keyed "25", "50", "100" and "200", the nominal account value in millions of VND),
each offering three tiers ("early", "normal", "vip") with a listed price and a
remaining stock. A buyer selects a tier, fills in an order form (name, phone,
recipient phone, note, declared account value) and submits it. Submitting refuses an
exhausted tier first, then a blank name or phone; otherwise it prices the order (the
amount due is waived to 0 VND when the declared account value is below the package's
nominal value), takes one unit from the tier's stock, puts the order at the front of
the order history and empties the form, keeping the selection.

The model is in five modules:

- `Text` (`text.dfy`): ECMAScript `String.prototype.trim` and the "blank field" test.
- `Catalog` (`catalog.dfy`): packages, tiers, the initial price and stock table, and
  the catalog after one unit is sold.
- `Pricing` (`pricing.dfy`): `parseInt` on a package key, the package's nominal value
  and the amount-due rule.
- `Orders` (`orders.dfy`): the order record, the order history and the bookkeeping
  invariant tying stock to history (every missing unit is one recorded order, so no
  tier is ever oversold).
- `Storefront` (`shop.dfy`): the page's state as a `Shop` class whose methods are the
  form submission, the tier buttons, the "clear" button and the form's input handlers.

The page keeps its five form fields in five separate pieces of state; the model keeps
them in one `Form` record field of `Shop`, updated by the same handlers. Stock is an
unbounded integer, so that "never negative" is a proved invariant rather than a type.
Package and tier keys are enumerations; `Catalog.KeyInjective` shows the package
enumeration stands for the string keys without loss.

## Model

| member | source | states |
|---|---|---|
| Text.TrimStartSpec | src/App.jsx:73 | trimming the front keeps a suffix, removes only whitespace and stops at the first non-whitespace character |
| Text.TrimEndSpec | src/App.jsx:73 | trimming the back keeps a prefix, removes only whitespace and stops at the last non-whitespace character |
| Text.TrimSpec | src/App.jsx:73 | `trim()` returns a slice of its input that neither starts nor ends with whitespace |
| Text.TrimEmptyIffBlank | src/App.jsx:73 | `!s.trim()` holds exactly when every character of `s` is ECMAScript whitespace, in both directions |
| Catalog.Key | src/App.jsx:6-43 | each package key is a non-empty string of decimal digits |
| Catalog.KeyInjective | src/App.jsx:6-43 | distinct packages have distinct keys |
| Catalog.Max | src/App.jsx:101 | `Math.max` returns one of its arguments and is at least both |
| Catalog.InitialTier | src/App.jsx:6-43 | every initial tier carries its tier's label, a positive price and a positive stock |
| Catalog.InitialPackages | src/App.jsx:46 | the opening catalog has no negative stock and every tier is the one in the price and stock table |
| Catalog.Decremented | src/App.jsx:99-103 | a sale sets the chosen tier's stock to max(0, stock - 1), exactly one less when it was positive, and leaves every other tier, title and note unchanged |
| Catalog.DecrementedKeepsInvariant | src/App.jsx:99-103 | a sale keeps every stock non-negative and keeps labels, prices, titles and notes as they were |
| Catalog.DecrementedTimesStock | src/App.jsx:101 | after n sales of one tier its stock is max(0, stock - n) and every other tier is untouched |
| Pricing.ParseDecimal | src/App.jsx:79 | `parseInt(s, 10)` of a non-empty digit string not starting with 0 is positive |
| Pricing.ParseKeys | src/App.jsx:79 | `parseInt` reads the keys "25", "50", "100", "200" as 25, 50, 100, 200 |
| Pricing.PkgValue | src/App.jsx:79 | the package's nominal value is 25,000,000, 50,000,000, 100,000,000 or 200,000,000 VND |
| Pricing.PkgValueIncreasing | src/App.jsx:79 | larger packages have strictly larger nominal values |
| Pricing.FinalPrice | src/App.jsx:78-81 | the amount due is the listed price when the account value reaches the nominal value and 0 when it falls short |
| Pricing.FinalPriceBounded | src/App.jsx:81 | the amount due lies between 0 and the listed price |
| Pricing.FinalPriceMonotone | src/App.jsx:80-81 | a larger declared account value never lowers the amount due; a smaller package never waives where a larger one charges |
| Pricing.FinalPriceExamples | src/App.jsx:79-81 | package "25" early tier: 10,000,000 VND pays 0, 25,000,000 and 30,000,000 VND pay 199,000 |
| Orders.CountOf | src/App.jsx:105 | the number of orders for a tier is at most the history's length and is 0 exactly when no order is for that tier |
| Orders.CountOfPrepend | src/App.jsx:105 | putting an order at the front adds one to its own tier's count and nothing to any other |
| Orders.WellFormedHistoryPrepend | src/App.jsx:84-105 | adding a validated, correctly priced order keeps every order in the history validated and correctly priced |
| Orders.ConservedAfterSale | src/App.jsx:99-105 | selling one unit and recording its order keeps stock plus orders equal to the opening stock for every tier |
| Orders.InitiallyConsistent | src/App.jsx:46-54 | an opening catalog without negative stock and an empty history satisfy the bookkeeping invariant |
| Orders.SaleKeepsConsistent | src/App.jsx:63-113 | a validated sale of an in-stock tier preserves the whole bookkeeping invariant |
| Orders.NoOversell | src/App.jsx:68-105 | under the invariant, the orders recorded for a tier never exceed its opening stock |
| Storefront.Shop.constructor | src/App.jsx:46-54 | the page opens with the initial catalog, package "25" tier "early" selected, an empty form and no orders, and the invariant holds |
| Storefront.Shop.PlaceOrder | src/App.jsx:63-113 | an exhausted tier is refused first, then a blank name or phone, and a refusal changes nothing; otherwise the order records the form, the listed price and the amount due, the tier loses one unit, the order goes to the front of the history, the form is emptied, the selection is kept and the invariant still holds |
| Storefront.Shop.Select | src/App.jsx:165-170 | the tier button is enabled exactly when the tier has stock; an enabled press selects that tier, a disabled one changes nothing |
| Storefront.Shop.Clear | src/App.jsx:219 | "clear" empties the form and changes nothing else |
| Storefront.Shop.SetFullname | src/App.jsx:187 | typing in the name field sets the name and nothing else |
| Storefront.Shop.SetPhone | src/App.jsx:191 | typing in the phone field sets the phone and nothing else |
| Storefront.Shop.SetRecipientPhone | src/App.jsx:196 | typing in the recipient phone field sets it and nothing else |
| Storefront.Shop.SetAccountValue | src/App.jsx:201 | typing in the account value field sets it and nothing else |
| Storefront.Shop.SetNote | src/App.jsx:207 | typing in the note field sets the note and nothing else |
| Storefront.FiftyVipSession | src/App.jsx:63-113 | a session buying package "50" tier "vip" with a declared 10,000,000 VND is listed at 989,000 VND, owes 0, leaves 9 units and is the only order |

## Left out

- Currency formatting (`formatVND`, `toLocaleString("vi-VN")`) and every other piece of rendering: the page layout, the package cards, the "recent orders" list, the payment and contact details. None of them changes state.
- The alert messages: a refusal is the `OutOfStock` or `MissingField` result instead of a dialog.
- The clock: `Date.now()` and `new Date().toISOString()` are the `now` and `createdAt` parameters of `PlaceOrder`. Nothing is assumed about them, so unique order ids are not modelled.
- Storefront.Shop.SetAccountValue: the field is read with `Number(...)`, which can give fractions, `NaN` or an empty-string 0; the model takes a whole number of VND.
- Pricing.ParseDecimal: models `parseInt(s, 10)` only on non-empty strings of decimal digits, which is all the storefront ever passes it; the empty string, on which `parseInt` gives `NaN`, is outside its domain.
- The deep copy of the catalog (`JSON.parse(JSON.stringify(...))`) and React's batching of state updates: the model replaces the catalog value in one step. The stock test reads the rendered `packages` (src/App.jsx:65-68) while the decrement works on the pending `prev` state (src/App.jsx:99-101); the model assumes each submission sees the state the previous one left, as React re-renders between discrete events, and `Orders.Conserved`, `Orders.NoOversell` and "no tier is ever oversold" hold under that assumption.
- Text.IsWhitespace: characters are Unicode code points rather than UTF-16 code units; all whitespace that `trim()` removes lies in the Basic Multilingual Plane, so the two agree on it.
