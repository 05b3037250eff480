# Quotes page component: view decisions

This project models `QuotesComponent`, the page of the quotes web app that lists
quotes "by" a mode: all quotes, the quotes of one author, the quotes of one
category, or the user's favourites. The component's core is a small decision
table, and the model proves that table in full:

- **Parameter normalisation.** On every emission of the route parameters the
  component sets three fields. `quotesBy` falls back to `'all'` when the
  parameter is missing or empty. `entityId` is `null` in the same cases and
  otherwise is the parameter converted with unary `+`. `isSmallScreen` is the
  viewport query's answer. Then the title is set.
- **Visibility.** `isShowQuotesBySection` decides whether the author/category
  selector is shown. `isShowQuotesListSection` decides whether the list of
  quotes is shown. Both read "id present" as JavaScript truthiness, so an id of
  0 or NaN counts as absent.
- **Title.** `setTitle` takes one of seven branches. Four set a fixed title.
  Two look up an author's or category's name and build the title from it. The
  last, for an unknown mode, sets no title.
- **Navigation.** Selecting an author or a category navigates to
  `['quotes', 'author', id]` or `['quotes', 'category', id]`.

Layout:

- `js_values.dfy`, module `JsValues`: the JavaScript behaviour the component
  relies on. It has optional parameters and their truthiness (`Supplied`),
  `Array.prototype.indexOf` over strings (`IndexOf`), the text of an integer
  (`IntText`), and a sign-and-digits reading of such text (`DecimalNumber`).
- `quotes.dfy`, module `Quotes`: the fields as a value (`ViewState`) and the
  functions over it. These are `ShowQuotesBySection`, `ShowQuotesListSection`,
  the title branch (`TitleDecision`, a `TitleAction` that is a constant title,
  a name lookup, or no title) and the title shown (`TitleShown`). The module
  also has the class `QuotesComponent` with the three fields and methods for
  the subscription callback, `setTitle`, the lookup continuation and the two
  selection handlers. Lemmas state the decision table.

Modelling choices:

- Unary `+` is a parameter `convert: string -> Option<int>`, with `None`
  standing for NaN. The round trip from a selection back to the view needs only
  one fact about it (`ReadsDecimals`): it reads `String(n)` back as `n`.
  `DecimalNumber` satisfies that fact (`DecimalNumberReadsDecimals`).
- The asynchronous name lookups are not run. `setTitle` returns a `TitleAction`
  saying which service would be asked for which id. The continuation
  (`OnNameResolved`) takes the resolved name as a parameter. It reads
  `isSmallScreen` when the name arrives, as the source's callback does.
- The title sink is not modelled. The title is the value `setTitle` or its
  continuation passes to it. `None` from `TitleShown` means no call is made.
- The viewport query is the `small` parameter of `OnRouteParams`.
- The router is modelled only through the returned path. `RouteParamsOf` gives
  the parameters the router would hand back for a path. It assumes the routes
  `quotes`, `quotes/:quotesBy` and `quotes/:quotesBy/:entityId`. The
  application's route table is not part of this model.

Two edge cases of the normalisation:

- An unrecognised `quotesBy` is kept, not mapped to `'all'`:
  `params['quotesBy'] || 'all'` replaces only a missing or empty value. Such a
  mode sets no title, and it shows the sections as the author and category
  modes do with the same id and screen (`UnrecognisedModeKept`).
- Every non-zero id counts as present, negative ones included; id 0 counts as
  absent. Selecting an author with id 0 on a small screen therefore shows the
  selector and not the list (`SelectionRoundTrip`).

## Model

| member | source | states |
|---|---|---|
| `JsValues.Supplied` | web/src/app/quotes/quotes.component.ts:42-43 | A truthy route parameter is one that is there and is a non-empty string. |
| `JsValues.IndexOf` | web/src/app/quotes/quotes.component.ts:66 | `indexOf` returns -1 exactly when the value is not in the array. Otherwise it returns an index holding the value with no earlier occurrence. |
| `JsValues.DigitsRoundTrip` | web/src/app/quotes/quotes.component.ts:43 | Reading the decimal digits of a natural number gives back that number. |
| `JsValues.IntTextRoundTrip` | web/src/app/quotes/quotes.component.ts:43 | The sign-and-digits reading of `String(n)` is `n` for every integer, negative ones included. |
| `JsValues.DecimalNumberReadsDecimals` | web/src/app/quotes/quotes.component.ts:43 | The sign-and-digits conversion reads back the text of every integer, so conversions meeting `ReadsDecimals` exist. |
| `JsValues.DecimalNumber` | web/src/app/quotes/quotes.component.ts:43 | A number is produced only from non-empty text. A string of digits converts to its decimal value. |
| `Quotes.Present` | web/src/app/quotes/quotes.component.ts:66-90 | A truthy `entityId` is a number other than 0; null, undefined and NaN are falsy. |
| `Quotes.QuotesByOf` | web/src/app/quotes/quotes.component.ts:42 | The mode is never empty: a truthy parameter is taken as it is, anything else gives 'all'. |
| `Quotes.EntityIdOf` | web/src/app/quotes/quotes.component.ts:43 | The id is null for a falsy parameter and the numeric conversion of the parameter otherwise. |
| `Quotes.Normalised` | web/src/app/quotes/quotes.component.ts:41-44 | After the callback the mode is non-empty and is the parameter when that is truthy, the id is null without a truthy parameter, and the screen flag is the query's answer. |
| `Quotes.ShowQuotesBySection` | web/src/app/quotes/quotes.component.ts:61-67 | The selector is shown exactly when the mode is neither 'all' nor 'favourites' and the screen is not small with a truthy id. |
| `Quotes.ShowQuotesListSection` | web/src/app/quotes/quotes.component.ts:69-74 | The list is shown exactly when the screen is large, the id is truthy, or the mode is 'all' or 'favourites'. |
| `Quotes.TitleDecision` | web/src/app/quotes/quotes.component.ts:79-101 | A name is looked up only for a truthy id, for that id, and only in the 'author' mode (with the author service) or the 'category' mode (with the category service). No title is set exactly when the mode is none of the four known ones. |
| `Quotes.NamedTitle` | web/src/app/quotes/quotes.component.ts:85-93 | On a small screen the title is the bare name; otherwise it is the name after "Quotes by " for an author and the name before " Quotes" for a category. |
| `Quotes.TitleShown` | web/src/app/quotes/quotes.component.ts:80-100 | No title is set exactly for an unknown mode; a constant branch shows its constant; a lookup branch on a small screen shows the bare name. |
| `Quotes.SelectionPath` | web/src/app/quotes/quotes.component.ts:52-58 | The selection path, handed back by the router, gives the mode word of the service as `quotesBy` and the text of the id as `entityId`. |
| `Quotes.QuotesComponent.constructor` | web/src/app/quotes/quotes.component.ts:19-26 | The component starts in mode 'all', with no id, on a large screen. |
| `Quotes.QuotesComponent.OnRouteParams` | web/src/app/quotes/quotes.component.ts:41-46 | The callback assigns exactly the three fields to their normalised values. It then takes the `setTitle` branch for the new fields. |
| `Quotes.QuotesComponent.SetTitle` | web/src/app/quotes/quotes.component.ts:79-101 | The if/else chain over the fields takes the branch `TitleDecision` gives. It changes no field. |
| `Quotes.QuotesComponent.OnNameResolved` | web/src/app/quotes/quotes.component.ts:83-95 | A resolved name becomes the title. On a small screen it is the bare name. Otherwise it is "Quotes by {name}" for an author or "{name} Quotes" for a category, using the screen class at resolve time. |
| `Quotes.QuotesComponent.OnAuthorSelect` | web/src/app/quotes/quotes.component.ts:49-53 | The path is `['quotes', 'author', id]`, and no field changes. |
| `Quotes.QuotesComponent.OnCategorySelect` | web/src/app/quotes/quotes.component.ts:55-59 | The path is `['quotes', 'category', id]`, and no field changes. |
| `Quotes.DefaultMode` | web/src/app/quotes/quotes.component.ts:42 | The mode is 'all' exactly when the parameter is missing, empty or 'all'. A supplied value is kept unchanged. |
| `Quotes.EntityIdNormalised` | web/src/app/quotes/quotes.component.ts:43-44 | The id is null for a missing or empty parameter and the conversion of the parameter otherwise. The screen flag is the query's answer. |
| `Quotes.FalsyIdActsAsAbsent` | web/src/app/quotes/quotes.component.ts:43-74 | An id parameter converting to NaN or 0 gives the same sections and the same title as no id parameter. |
| `Quotes.UnrecognisedModeKept` | web/src/app/quotes/quotes.component.ts:42-101 | An unknown supplied mode is kept. It sets no title. It shows the selector unless the screen is small with a truthy id, and the list unless the screen is small without one: exactly as 'author' and 'category' do with the same id and screen. |
| `Quotes.FilterHiddenInListOnlyModes` | web/src/app/quotes/quotes.component.ts:61-67 | In the modes 'all' and 'favourites' the selector is hidden, whatever the screen or the id. |
| `Quotes.FilterOnSmallScreen` | web/src/app/quotes/quotes.component.ts:63-66 | On a small screen a truthy id hides the selector. A missing, NaN or zero id leaves it shown in every mode but 'all' and 'favourites'. |
| `Quotes.LargeScreenSections` | web/src/app/quotes/quotes.component.ts:61-74 | On a large screen the list is always shown. The selector is shown exactly outside 'all' and 'favourites'. |
| `Quotes.ListShownInListOnlyModes` | web/src/app/quotes/quotes.component.ts:72-74 | In the modes 'all' and 'favourites' the list is shown. |
| `Quotes.SmallScreenComplement` | web/src/app/quotes/quotes.component.ts:61-74 | On a small screen exactly one of the two sections is shown. |
| `Quotes.SomeSectionShown` | web/src/app/quotes/quotes.component.ts:61-74 | At least one of the two sections is always shown. |
| `Quotes.TitleConstantRows` | web/src/app/quotes/quotes.component.ts:79-101 | 'all' gives "All Quotes". 'author' without a truthy id gives "Authors". 'category' without one gives "Categories". 'favourites' gives "My Favourites". Any other mode sets no title. |
| `Quotes.TitleNameRows` | web/src/app/quotes/quotes.component.ts:82-95 | With a truthy id, 'author' looks the id up with the author service. The title is the name on a small screen and "Quotes by {name}" otherwise. 'category' uses the category service, and the title is the name or "{name} Quotes". |
| `Quotes.TitleNameOnlyFromLookup` | web/src/app/quotes/quotes.component.ts:79-101 | Outside the two lookup branches the title does not depend on any name. |
| `Quotes.SelectionRoundTrip` | web/src/app/quotes/quotes.component.ts:41-59 | Selecting an author or category, and the route emission it causes, sets that mode with that id. On a small screen the list is shown for an id other than 0 and the selector for 0. The title is built from the looked-up name, or is the plain mode title for 0. |
| `Quotes.Scenarios` | web/src/app/quotes/quotes.component.ts:41-101 | These cases hold for no parameters, for author 7 "Rumi" on a large and on a small screen, and for 'category' without an id on a small screen. Each fixes the title and both sections. |

## Left out

- Angular plumbing: the `@Component` metadata, dependency injection, the unused
  `ChangeDetectorRef`, the template and the styles.
- The `route.params` subscription itself. It is modelled as calls of
  `OnRouteParams`, one per emission.
- `router.navigate`. It is modelled as the returned path segments.
- The asynchronous `getNameById(...).then(...)` lookups and the
  `appService.setTitle` calls. The resolved name is a parameter; the title is a
  returned value.
- Lookup failure. The source does not handle it.
- Interleaving of lookups. If the parameters change before a lookup resolves,
  an older lookup can still set its title. This ordering is concurrency and is
  not modelled.
- `UtilityService.isSmallScreen()`. It queries the viewport; its answer is an
  input.
- The full semantics of unary `+` on strings. This covers whitespace, a
  leading `+`, hexadecimal, fractions and `Infinity`. It also covers
  floating-point precision, where ids outside the 53-bit range lose digits.
  The conversion is an abstract parameter with NaN as `None`. `DecimalNumber`
  covers only an optional minus sign followed by digits. Empty or blank text
  reads as `None` here, where unary `+` gives 0; both are falsy.
- `Quotes.ShowQuotesListSection`: the source's `||` returns the truthy operand
  itself, possibly the number `entityId`, not a boolean. The model gives the
  truth value the template's condition sees.
- The route table mapping URLs to the component's parameters is not part of
  this model. `RouteParamsOf` states the assumed one.
