# Kiosko cash drawers, pricing and user rules in Dafny

This project models the core of a school canteen's administration tool.

- **Cash drawers** (`caja`). Daily drawers (`CajaDiaria`) are opened per date, shift (`M`/`T`) and level (primary `P`, secondary `S`). They collect recess income (`Recreo`), special-event income (`EventoEspecial`) and supplier payments (`PagoProveedor`). Closing a drawer folds its net amount into the single general balance (`SaldoGeneral`). An "extra" drawer may be opened for a slot whose normal drawer closed today. Deleting an extra drawer takes its net amount back out.
- **Pricing** (`precios`). `Producto.save` derives the unit purchase cost and the suggested sale price.
- **Users** (`usuarios`). This covers the registration password policy, the e-mail copy on registration, and the role gate that protects views.

Each view is a pure function from a `Store` to `Result<Store, CajaError>`. The store holds the drawers by id, the general balance and the next id. Money is counted in integer cents, because it is only added and subtracted. Prices are `real` and quotients are exact. The source instead rounds quotients in the 28-digit `Decimal` context and stores derived prices with two decimals (see "## Left out").

Modules:
- `Outcomes`: `Option` and `Result`.
- `CajaModels`: entities, sums, the partial balance, the uniqueness rules and `clean`.
- `CajaViews`: the view transitions.
- `CajaProofs`: the store invariant and the properties that relate several calls.
- `Precios` and `Usuarios`.

Assumptions and modelling choices:
- `actualizar_saldo_parcial` and `get_total_ingresos` are called but their bodies are not part of this model. The partial balance is assumed to be `opening + Σrecess + Σevents − Σpayments`. That is the formula the aggregate at caja/views.py:94-103 spells out.
- `CajaDiaria` in caja/models.py does not declare the `es_extra` field that the views read. The model gives every drawer an `isExtra` flag.
- Line items are stored inside their drawer record. So "every line item belongs to exactly one drawer" holds by construction. A supplier payment always carries a `SupplierId`. Line items are addressed by (drawer id, position) instead of by their own row id.
- A view handles one action per request. A refused action returns `Err`, and the caller keeps the old store.

Where the code differs from its evident intent, the model follows the code:
- A normal drawer's recess number comes from the form. The only server-side guard is the unique `(caja, numero)` rule. The 1–3 range is only a widget choice and the `proximo_recreo` hint. So a fourth recess numbered 4 is accepted, with no "recess exhausted" error. On an extra drawer, the forced number 1 refuses a second recess only while the first one keeps number 1. `editar_recreo` can renumber it, and then a second recess is accepted (`CajaProofs.ExtraDrawerTakesSecondRecess`).
- At most one normal drawer is open at a time. This is part of the store invariant (`CajaProofs.SingleOpenNormal` inside `CajaProofs.Valid`) that every request keeps (`CajaProofs.StepKeepsValid`). Extra drawers are not covered: `iniciar_caja_extra` does not look at open drawers (`CajaProofs.ExtraOpensBesideOpenDrawer`).
- Opening a normal drawer is refused by `clean` when any drawer has the same date, shift and level, whether that drawer is normal or extra.
- The comment at caja/views.py:345 says supplier payments are also allowed on a normal primary drawer, but the guard at caja/views.py:344 and `puede_hacer_pagos` at caja/views.py:410 admit level S only. The model follows the guard (`CajaViews.PaymentAllowed`).
- Neither the close branch nor extra-drawer deletion checks `cerrada`. Closing twice folds the amount twice (`CajaProofs.CloseTwiceFoldsTwice`). Recording line items on a closed drawer is also accepted.
- Neither `iniciar_caja_extra` nor `eliminar_caja_extra` has a route in caja/urls.py. Both are modelled anyway.

## Model

| member | source | states |
|---|---|---|
| CajaModels.ParseShift | caja/models.py:13-16 | only the codes 'M' and 'T' denote a shift, and each code maps back to its letter |
| CajaModels.ParseLevel | caja/models.py:17-20 | only the codes 'P' and 'S' denote a level, and each code maps back to its letter |
| CajaModels.SumUpdate | caja/views.py:486-489 | replacing one line item changes the total by exactly new amount − old amount |
| CajaModels.SumRemove | caja/views.py:507-508 | removing one line item lowers the total by exactly its amount |
| CajaModels.CleanAcceptsRevalidation | caja/models.py:34-41 | in a store where (date, shift, level) is unique, `clean` accepts re-validating any saved drawer, because its own id is excluded |
| CajaModels.CleanRejectsClash | caja/models.py:34-41 | `clean` rejects a drawer when a different id holds the same date, shift and level |
| CajaModels.CleanNewIsDeclaredConstraint | caja/models.py:31-41 | for an unsaved drawer, `clean` accepts exactly when the declared (date, shift, level) constraint admits it |
| CajaViews.OpenNormal | caja/views.py:143-166 | refused if and only if some drawer is open; otherwise refused if and only if `clean` rejects; on success a new normal drawer is the only open one, with partial 0, no items, the general balance as opening for level S and 0 for level P, and the general balance is unchanged |
| CajaViews.AvailableSlots | caja/views.py:194-225 | lists exactly the slots with a normal drawer closed today and no extra drawer, without repeats |
| CajaViews.OpenExtra | caja/views.py:194-250 | refusal reasons in the view's order, each if and only if its condition holds: no normal drawer closed today, every such drawer already has an extra one, the requested slot has no closed normal drawer, the unique rule refuses the row; success if and only if a candidate exists, the requested slot has a closed normal drawer today and the unique rule admits the row; the new drawer is extra, dated today, open, with opening 0 |
| CajaViews.ExtraDrawersAvailable | caja/views.py:105-122 | the list page's flag is true exactly when some normal drawer closed today has no extra drawer for its slot |
| CajaViews.NextRecessSlot | caja/views.py:294-305 | extra drawer: 1 when it has no recess, otherwise none; normal drawer: 1 when empty, none once some number is ≥ 3, otherwise one above the highest number; an offered number is ≤ 3 and above every used number |
| CajaViews.HighestNumber | caja/views.py:300-301 | the last recess in number order carries the highest number |
| CajaViews.AddRecess | caja/views.py:308-327 | an extra drawer always records number 1; refused if and only if the drawer is missing or the number is taken, accepted if and only if neither; on success only that drawer changes, the recess is appended and the partial balance rises by exactly the amount |
| CajaViews.AddEvent | caja/views.py:329-342 | refused if and only if the drawer is extra, accepted if and only if it exists and is normal; on success the event is appended, the partial balance rises by the amount, and the general balance is untouched |
| CajaViews.PaymentAllowed | caja/views.py:344 | the guard as written admits exactly the secondary-level drawers, normal or extra |
| CajaViews.AddPayment | caja/views.py:344-354 | refused if and only if the level is not S, accepted if and only if the drawer exists at level S; on success the payment is appended and the partial balance drops by exactly its amount |
| CajaViews.EditRecess | caja/views.py:572-583 | refused if and only if the item is missing or another recess of the drawer holds the number, accepted if and only if neither; on success the partial moves by new − old amount and the general balance is untouched |
| CajaViews.EditPayment | caja/views.py:480-491 | succeeds if and only if the payment exists; the partial moves by old − new amount; the general balance is untouched |
| CajaViews.DeletePayment | caja/views.py:501-510 | succeeds if and only if the payment exists; the other payments keep their order, the partial rises by the removed amount, the drawer's other fields and every other drawer are unchanged, and the general balance is untouched |
| CajaViews.Close | caja/views.py:356-366 | the general balance rises by exactly income − payments (partial − opening); the drawer is closed with its partial recomputed and its items unchanged; no check of `cerrada` |
| CajaViews.DeleteImpact | caja/views.py:528-537 | when a primary drawer carries no payments, the impact taken back on deletion (income, minus payments at level S) is exactly what closing the drawer added: partial − opening |
| CajaViews.DeleteExtra | caja/views.py:517-551 | refused if and only if the drawer is missing or not extra; otherwise the drawer and all its items go and the general balance drops by the impact |
| CajaViews.Adjust | caja/views.py:456-469 | `establecer` sets the amount, `sumar` adds it, any other choice subtracts it; drawers are untouched |
| CajaViews.Reset | caja/views.py:430-442 | no drawer or line item remains, no drawer is open, and the general balance is 0 |
| CajaViews.AggregatePartial | caja/views.py:84-103 | the loop returns Σ opening of open S drawers, Σ income and Σ payments over open drawers, and their combination |
| CajaViews.RefreshOpen | caja/views.py:384-386 | every open drawer's cache is recomputed; closed drawers and the general balance are untouched |
| CajaProofs.OpenNormalKeepsValid | caja/views.py:155-166 | opening a normal drawer keeps the store invariant (unique key, openings 0 off level S, distinct recess numbers) |
| CajaProofs.OpenExtraKeepsValid | caja/views.py:232-250 | opening an extra drawer under the (date, shift, level, kind) rule keeps the invariant |
| CajaProofs.AddRecessKeepsValid | caja/models.py:52-53 | recording a recess keeps recess numbers distinct within each drawer |
| CajaProofs.AddEventKeepsValid | caja/views.py:329-330 | extra drawers never acquire special events |
| CajaProofs.AddPaymentKeepsValid | caja/views.py:344-345 | primary drawers never acquire supplier payments |
| CajaProofs.EditRecessKeepsValid | caja/views.py:577-580 | renumbering a recess keeps numbers distinct |
| CajaProofs.CloseKeepsValid | caja/views.py:356-366 | closing keeps the invariant, including a coherent partial-balance cache |
| CajaProofs.StepKeepsValid | caja/views.py:136-366 | every request of every view keeps the store invariant, including at most one open normal drawer |
| CajaProofs.RunKeepsValid | caja/views.py:136-366 | every store reachable by any sequence of requests from a valid store is valid |
| CajaProofs.MovementsKeepBalance | caja/views.py:480-515 | opening drawers and adding, editing or deleting line items never move the general balance |
| CajaProofs.AdjustmentsCompose | caja/views.py:462-467 | subtracting an amount undoes adding it, and `establecer` forgets the previous balance |
| CajaProofs.DeleteUndoesClose | caja/views.py:527-551 | on a valid store, deleting an extra drawer right after closing it restores the general balance exactly and leaves the other drawers as they were |
| CajaProofs.CloseTwiceFoldsTwice | caja/views.py:356-366 | closing a drawer twice adds its net amount to the general balance twice |
| CajaProofs.DeclaredRuleBlocksEveryExtra | caja/models.py:31 | under the declared (date, shift, level) constraint, no extra drawer can ever be saved |
| CajaProofs.KindRuleOpensExactlyEligible | caja/views.py:233-250 | under the (date, shift, level, kind) rule, an extra drawer opens if and only if its slot has a normal drawer closed today and no extra drawer |
| CajaProofs.ExtraOpensBesideOpenDrawer | caja/views.py:184-250 | an eligible extra drawer opens even while another drawer is open, leaving two open drawers |
| CajaProofs.ExtraDrawerTakesSecondRecess | caja/views.py:573-583 | once `editar_recreo` renumbers an extra drawer's only recess to 2, recording a recess on that drawer succeeds and leaves two recesses |
| CajaProofs.EligibilityViewsAgree | caja/views.py:105-122 | the list page's flag and the extra-drawer view's candidate list agree |
| CajaProofs.AggregateIsSumOfPartials | caja/views.py:89-103 | on a valid store, the aggregate equals the sum of the open drawers' partial balances |
| CajaProofs.RefreshMakesCacheExact | caja/views.py:384-386 | after the refresh, the open drawers' cached partials add up to their true partial balances |
| CajaProofs.SecondaryDayScenario | caja/views.py:358-363 | balance 100.00, open S drawer, recesses 20.00 and 15.00, payment 10.00: the partial is 125.00 and the close leaves the general balance at 125.00 |
| Precios.ParsePurchaseType | precios/models.py:59-63 | only 'U', 'C' and 'B' denote a purchase type |
| Precios.BasePrice | precios/models.py:143-147 | unit purchase: the package price; box or bag: the package price split over the unit count, refused when the count is missing or 0 |
| Precios.DiscountedCost | precios/models.py:149-153 | the cost is base × (1 − discount/100) for every discount, so skipping a zero discount changes nothing |
| Precios.Save | precios/models.py:139-158 | succeeds exactly when the base price exists; both derived prices follow the formulas; every input and the final sale price are kept |
| Precios.PricesAreOrdered | precios/models.py:149-156 | with base ≥ 0, discount in [0,100] and margin ≥ 0: 0 ≤ unit cost ≤ base and suggested price ≥ unit cost |
| Precios.BasePriceNonNegative | precios/models.py:144-147 | a non-negative package price gives a non-negative base price |
| Precios.SaveIsIdempotent | precios/models.py:139-158 | saving a saved product again changes nothing |
| Precios.SaveIgnoresDerivedFields | precios/models.py:103-126 | stale derived values and the final sale price never influence the derived prices; the final price is kept |
| Usuarios.Search | usuarios/forms.py:35-37 | finds the first position whose character matches, and none exactly when no character matches |
| Usuarios.CleanPassword1 | usuarios/forms.py:31-39 | length error if and only if the length is not 8; letter error if and only if it has length 8 and no ASCII letter; digit error if and only if length 8, a letter and no digit; accepted exactly otherwise, and returned unchanged |
| Usuarios.RegistrationSave | usuarios/forms.py:41-46 | the user gets the cleaned e-mail; username and password are untouched |
| Usuarios.RolRequerido | usuarios/decorators.py:4-18 | the intended gate: redirect to login if and only if unauthenticated; then no profile means denied; then a role not in the set means denied; otherwise the view's own response to the same arguments |
| Usuarios.RolRequeridoAsWritten | usuarios/decorators.py:1-18 | as written, an anonymous request ends in a server error and is never redirected, because `redirect` is not imported; an authenticated request is handled exactly as by the intended gate |
| Usuarios.AnonymousRequestIsServerError | usuarios/decorators.py:7-8 | the written and the intended gate differ exactly on anonymous requests: a server error instead of the redirect to login |
| Usuarios.SoloAdmin | usuarios/decorators.py:21-22 | admits exactly authenticated administrators; any other role is denied |
| Usuarios.AdminOEncargado | usuarios/decorators.py:24-25 | admits exactly authenticated administrators and managers (`encargado`); sellers are denied |

## Left out

- Rendering, `messages`, redirects and template contexts are left out. Presentation-only values are left out too: date filtering, `groupby`, `ingresos_recreos_primario` and `puede_hacer_pagos`. The last one equals `PaymentAllowed`. The read-only `ver_movimientos_caja` view is also left out.
- ORM mechanics are left out. The store is a map, and the lazily created `SaldoGeneral` singleton is a field that starts at 0 (`CajaViews.EmptyStore`).
- Timestamps (`fecha_creacion`, `fecha_registro`, `ultima_actualizacion`) are left out. So is the clock. "Today" is a parameter.
- Concurrency is left out. Each view runs atomically, so races on the general balance or on the open-drawer check are not modelled.
- The `max_digits` and `decimal_places` bounds of the decimal columns are left out. So are database rounding of derived prices and `Decimal` context rounding. Amounts are unbounded.
- Form parsing of malformed amounts is left out (for example `Decimal(...)` on the event amount). So are the widget declarations in caja/forms.py and precios/forms.py. `InicioCajaExtraForm` is not part of this model.
- The stock ledger, stock-movement view and PDF price list are left out: their code is not part of the modelled modules. The product, category, supplier and brand CRUD views are thin ORM wrappers and are left out too.
- Login, registration and profile views, the admin site and Django's authentication internals are left out.
- Special events have no edit or delete view, so none is modelled.
- Usuarios.CleanPassword1: counts only ASCII `0`–`9` as digits. Python's `\d` on a `str` also matches other Unicode decimal digits, so the model rejects some passwords the source accepts.
- Usuarios.RolRequerido: roles are the three declared choices. The source compares the stored role string, which the database does not restrict to those choices.

## Findings

| source | as written | input that shows it | evidently intended | confidence | as-written member | corrected member |
|---|---|---|---|---|---|---|
| caja/models.py:31 | `unique_together = ['fecha', 'turno', 'nivel']` | close today's normal secondary morning drawer, then request an extra secondary morning drawer: the insert breaks the constraint and the view reports an unexpected error | uniqueness on (fecha, turno, nivel, es_extra), which the extra-drawer views rely on | medium, not executed. caja/models.py and caja/forms.py look older than caja/views.py: `CajaDiaria` lacks the `es_extra` field the views read, `InicioCajaExtraForm` is imported at caja/views.py:8 but not defined in caja/forms.py, and `InicioCajaForm` lists `tiene_evento_especial` and `descripcion_evento`, which `CajaDiaria` does not declare. The failure also assumes the extra-drawer form has no `fecha` field, so that form validation cannot catch the clash; that form is not part of this model | CajaProofs.DeclaredRuleBlocksEveryExtra | CajaProofs.KindRuleOpensExactlyEligible |
| usuarios/decorators.py:8 | `return redirect('usuarios:login')`, while the module imports only `user_passes_test` and `PermissionDenied` | an anonymous request to any view under `solo_admin` or `admin_o_encargado` (`iniciar_caja`, `limpiar_cajas`, `gestionar_saldo_general`, ...): `redirect` is unbound, `NameError` is raised and the request ends in a server error | redirect the anonymous user to the login page | high, not executed | Usuarios.RolRequeridoAsWritten | Usuarios.RolRequerido |
