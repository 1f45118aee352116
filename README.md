# Loan simulator core, in Dafny

A model of the deterministic core of a browser loan simulator (`js/main.js`):

- **Loan calculator** (`loan.dfy`, module `Loan`): the fixed rate table `TasasInteres`
  (3 → 1.10, 6 → 1.25, 12 → 1.50, 24 → 2.00) and `CalcularPrestamo`, which throws for
  an installment count that is not a key of the table and otherwise returns the total
  `round2(monto × tasa)`, the installment `round2(monto × tasa / cuotas)` and the
  multiplier. `Round2` is `Number(x.toFixed(2))` on exact reals: nearest cent, halves
  away from zero.
- **History store** (`history.dfy`, module `History`): the storage slot of the key
  `simulacionesPrestamo_v1` is the field `stored: Option<seq<Simulacion>>` of class
  `HistoryStore` (`None` = key absent). `Read` (`leerHistorial`), `Save`
  (`guardarHistorial`), `Add` (`agregarSimulacionAlHistorial`, an `unshift`), `RemoveAt`
  (the delete handler's in-range `splice`) and `Clear` (the clear handler's `removeItem`).
- **Input guards** (`guards.dfy`, module `Guards`): the submit validation (the name is
  trimmed and defaults to `Anonimo`; the amount must be a number above zero; the count
  one of 3, 6, 12, 24) and the converter checks shared by the dollar and euro converters
  in both directions (no quote or a zero quote first, then a bad amount; then
  `amount / quote` out of pesos, `amount × quote` into pesos). The per-currency quote
  objects are the class `Cotizaciones`. Parsed numbers are `Option<real>` with `None`
  for NaN.
- **Submit handler** (`simulator.dfy`, module `Simulator`): validation, pricing and
  prepending the record, proving that the calculator's error path is never reached once
  validation passes.

`wrappers.dfy` holds the `Option` and `Result` datatypes.

Behaviours of the code worth noting:

- The installment value is divided from the *unrounded* product (line 36), not from the
  rounded total. `Loan.InstallmentFromUnroundedProduct` shows an input where the two differ:
  48.02 in 6 installments gives 10.00 per installment, while 60.03 / 6 would round to 10.01.
- The delete handler ignores an out-of-range index (no error) and leaves the slot untouched.
- The two tiers of a currency are read from separate slots; no tier multiplier exists in
  this code. A negative quote is not rejected: only an absent, NaN or zero quote is.

## Model

| member | source | states |
|---|---|---|
| Loan.TasasInteres | js/main.js:3-8 | the rate table: 3 → 1.10, 6 → 1.25, 12 → 1.50, 24 → 2.00, and no other key |
| Loan.Cents | js/main.js:38-39 | the whole number of cents nearest to the amount, within half a cent of it, halves away from zero, with the amount's sign |
| Loan.Round2 | js/main.js:38-39 | the result is within half a cent of the input and has the input's sign; it is `Cents` of the input divided by 100, so the cent granularity and the tie rule are those stated by `Loan.Cents` |
| Loan.Round2Unique | js/main.js:38-39 | for a non-negative amount, n cents is the rounded value exactly when n / 100 lies in (x − 0.005, x + 0.005] |
| Loan.Round2OfCents | js/main.js:38-39 | a non-negative amount that is already a whole number of cents is left unchanged |
| Loan.Round2Monotonic | js/main.js:38-39 | rounding preserves the order of non-negative amounts |
| Loan.RoundedScaleCovers | js/main.js:35-38 | scaling a non-negative amount by a factor of at least one and rounding never gives less than the amount rounded, nor half a cent or more below the amount |
| Loan.CalcularPrestamo | js/main.js:31-42 | fails exactly when the count is not a key of the rate table; on success the multiplier is the table entry, the total is the rounded product and the installment the rounded product divided by the count |
| Loan.TasaAtLeastOne | js/main.js:3-8 | every multiplier in the table lies between 1 and 2 |
| Loan.MontoFinalCoversPrincipal | js/main.js:35-38 | for a non-negative principal the total is never below the principal rounded to cents, nor half a cent or more below the principal |
| Loan.SeparateRoundingGap | js/main.js:35-39 | for a non-negative total, rounding a total and its c-th part separately leaves them within (c + 1) half cents of each other |
| Loan.InstallmentsNearTotal | js/main.js:35-39 | for a non-negative principal, installments times count differ from the total by at most half a cent per installment plus half a cent |
| Loan.CalcularPrestamoSelfTest | js/main.js:203-204 | 1000 in 3 installments gives a total of 1100, installments of 366.67, multiplier 1.10 |
| Loan.InstallmentFromUnroundedProduct | js/main.js:35-36 | 48.02 in 6 installments gives total 60.03 and installment 10.00, whereas the rounded total divided by 6 rounds to 10.01 |
| History.RemovedAt | js/main.js:156 | removing index i leaves one record fewer, the earlier ones in place, the later ones moved up by one, and the same records apart from the removed one |
| History.RemoveNewestUndoesAdd | js/main.js:152-159 | deleting index 0 right after a prepend gives back the earlier history |
| History.HistoryStore.constructor | js/main.js:20-22 | the store starts over whatever the key's slot holds |
| History.HistoryStore.Contents | js/main.js:22 | the history as a read sees it: the stored list, or empty when the key is absent |
| History.HistoryStore.Read | js/main.js:20-23 | returns the read view `Contents`: the empty list when the key is absent, otherwise the stored list |
| History.HistoryStore.Save | js/main.js:26-28 | the slot afterwards holds exactly the given list |
| History.HistoryStore.Add | js/main.js:99-102 | the new record is first, all earlier records follow in their order, the length grows by one |
| History.HistoryStore.RemoveAt | js/main.js:152-159 | an in-range index stores the list without that record (one shorter); any other index leaves the slot unchanged |
| History.HistoryStore.Clear | js/main.js:165 | the key is removed, so the history reads as empty |
| History.SaveThenRead | js/main.js:20-28 | a read right after a save returns exactly the saved list |
| History.ClearThenRead | js/main.js:163-166 | whatever was stored, a read after clearing returns the empty list |
| History.AddTwiceThenRead | js/main.js:99-102 | adding A then B reads as B, A, then the earlier history |
| Guards.IsJsWhitespace | js/main.js:112 | the characters `trim()` removes: the white space and line terminator characters of JavaScript |
| Guards.TrimStart | js/main.js:112 | the result is a suffix of the input, starts with a non-blank (or is empty), and only white space was dropped |
| Guards.TrimEnd | js/main.js:112 | the result is a prefix of the input, ends with a non-blank (or is empty), and only white space was dropped |
| Guards.Trim | js/main.js:112 | the result is a contiguous piece of the input with only white space cut on either side, and neither starts nor ends with white space |
| Guards.TrimEmptyIffBlank | js/main.js:112 | a field trims to nothing exactly when all its characters are white space |
| Guards.TrimIdempotent | js/main.js:112 | trimming twice equals trimming once |
| Guards.NombreOAnonimo | js/main.js:112 | the name is never empty: the trimmed field, or `Anonimo` when that is empty |
| Guards.BlankNameIsAnonimo | js/main.js:112 | a name field made only of white space becomes `Anonimo` |
| Guards.CuotasPermitidas | js/main.js:117 | the counts the submit guard accepts: 3, 6, 12 and 24 |
| Guards.ValidarEnvio | js/main.js:112-120 | accepts exactly when the amount is a number above zero and the count is one of 3, 6, 12, 24; the accepted submission carries the defaulted name, the amount and the count |
| Guards.CuotasPermitidasAreTableKeys | js/main.js:117 | the guard's list of counts is exactly the set of keys of the rate table |
| Guards.ValidatedSubmissionIsPriced | js/main.js:117-123 | after the guard passes, the calculator succeeds and the amount is positive |
| Guards.HayCotizacion | js/main.js:284 | `!cotizacion` is false: the quote is present, not NaN and not zero |
| Guards.Convertir | js/main.js:279-294 | an absent or zero quote is reported before the amount is looked at; then a NaN or non-positive amount; on success the result times the quote (out of pesos) or divided by it (into pesos) gives back the amount |
| Guards.ConvertirRoundTrip | js/main.js:294-316 | with a positive quote, pesos converted out and back give the same pesos, through a positive foreign amount |
| Guards.ConvertirExamples | js/main.js:294-316 | 1000 pesos at 1000 are 1 unit; 1 unit at 1000 is 1000 pesos |
| Guards.Cotizaciones.constructor | js/main.js:249 | both tiers start at zero |
| Guards.Cotizaciones.Actualizar | js/main.js:262-263 | a fetch stores each tier's selling price in its own slot, both at once |
| Guards.Cotizaciones.Cotizacion | js/main.js:281 | `cotizaciones[tipo]`: the quote held for the selected tier |
| Guards.Cotizaciones.ConvertirCon | js/main.js:363-382 | a converter click reads the selected tier's quote: an absent or zero quote is reported first, then a NaN or non-positive amount gives the invalid-amount message, and otherwise it succeeds with the amount divided by the quote (out of pesos) or multiplied by it (into pesos) |
| Guards.ConvertirAntesDeCotizar | js/main.js:249-287 | before any quote arrives, every conversion reports that quotes are awaited |
| Simulator.Enviar | js/main.js:108-145 | an invalid form changes nothing; a valid one prepends the priced record, and the calculator's error path is never taken |

## Left out

- Loan.Round2: models `toFixed(2)` on exact reals; IEEE-754 products such as `1000 * 1.1` and binary ties are not modelled.
- Loan.CalcularPrestamo: `monto` and `cuotas` are exact reals; NaN or infinite arguments are not modelled (the submit handler rejects NaN amounts and any count outside the table before calling it, and the self-test calls it with 1000 and 3).
- Guards.ValidarEnvio: an amount of `Infinity` (which `Number` accepts and the guard lets through) is not modelled; parsed numbers are finite reals or NaN.
- Guards.Cotizaciones.ConvertirCon: the tier is a two-value datatype, standing for the select box's two options; other property names on the quote object are not modelled.
- History.HistoryStore.Save: never fails; `localStorage.setItem` can throw (quota exceeded, storage disabled), which the submit handler would catch and show and the delete handler would not catch, and neither path is modelled.
- Reading the slot never fails here: the slot holds the record list directly, so `JSON.parse` of malformed data and `JSON.stringify` are not modelled.
- The quote fetches (`obtenerCotizaciones`, `obtenerCotizacionesEuro`): network I/O to third-party services; only their effect on the quote slots (`Actualizar`) is modelled, with the fetched values as inputs.
- Rendering and event wiring (`mostrarResultado`, `renderizarHistorial`, `innerHTML`, `confirm`, `alert`, the self-test footer): user interface with no behaviour beyond the core; the clear handler's `confirm` is taken as answered yes.
- `formatearMoneda`: locale formatting through a library call.
- Export to a JSON file: Blob, URL and download plumbing.
- `Date.now()` and `new Date().toISOString()`: the record's `id` and `fecha` are parameters of `Simulator.Enviar`.
- The converters' displayed text (`toFixed(2)` of the result): display only; the model returns the exact quotient or product.
