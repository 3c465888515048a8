/**
 * The transitions the cash-drawer views perform on the store, each as a pure function from
 * the current store (and the request's inputs) to a new store or a typed refusal.
 * Rendering, messages and redirects are not modelled: a refusal carries the reason the view
 * reports, and a success carries the store the view leaves behind.
 */
module CajaViews {
  import opened Outcomes
  import opened CajaModels

  /** Why a view refuses to change the store. */
  datatype CajaError =
    | DrawersInProgress        // a normal drawer cannot start while another one is open
    | DuplicateDrawer          // `clean` or the unique constraint refuses the new row
    | NoClosedDrawerToday      // no normal drawer closed today
    | AllClosedHaveExtra       // every normal drawer closed today already has an extra drawer
    | NoClosedDrawerForSlot    // no closed normal drawer for the requested shift and level
    | DrawerNotFound           // no drawer with the requested id
    | ItemNotFound             // no line item at the requested position
    | NotAnExtraDrawer         // only extra drawers can be deleted
    | DuplicateRecessNumber    // unique (caja, numero) on recesses
    | NotPermitted             // events on extra drawers, payments off the secondary level

  /** The administrative adjustment chosen in `SaldoGeneralForm.tipo_operacion`. */
  datatype AdjustKind = Establish | Add | Subtract

  /** A (shift, level) pair: one slot of a day. */
  datatype Slot = Slot(shift: Shift, level: Level)

  /** The store with `d` saved under the next free id. */
  function Insert(s: Store, d: Drawer): Store {
    Store(s.drawers[s.nextId := d], s.balance, s.nextId + 1)
  }

  // ---------------------------------------------------------------- opening drawers

  /**
   * `iniciar_caja`: open a normal drawer for the date, shift and level of the form.
   * Refused while any drawer is open; then `clean` refuses a date/shift/level already taken.
   * A secondary drawer inherits the general balance as its opening balance, a primary one starts at 0.
   */
  function OpenNormal(s: Store, date: Date, shift: Shift, level: Level): (r: Result<Store, CajaError>)
    ensures r == Err(DrawersInProgress) <==> AnyOpen(s)
    ensures r == Err(DuplicateDrawer) <==> !AnyOpen(s) && !Clean(s, None, date, shift, level)
    ensures r.Ok? <==> !AnyOpen(s) && Clean(s, None, date, shift, level)
    ensures r.Ok? ==>
      && r.value.drawers.Keys == s.drawers.Keys + {s.nextId}
      && r.value.nextId == s.nextId + 1
      && r.value.balance == s.balance
      && (forall i | i in s.drawers && i != s.nextId :: r.value.drawers[i] == s.drawers[i])
      && var d := r.value.drawers[s.nextId];
         && d.date == date && d.shift == shift && d.level == level
         && !d.isExtra && !d.closed && d.partial == 0
         && d.opening == (if level == Secondary then s.balance else 0)
         && d.recesses == [] && d.events == [] && d.payments == []
    ensures r.Ok? ==> forall i | i in r.value.drawers :: !r.value.drawers[i].closed <==> i == s.nextId
  {
    if AnyOpen(s) then Err(DrawersInProgress)
    else if !Clean(s, None, date, shift, level) then Err(DuplicateDrawer)
    else
      var opening := if level == Secondary then s.balance else 0;
      Ok(Insert(s, NewDrawer(date, shift, level, false, opening)))
  }

  /** A normal drawer of `today`, closed, for the given slot. */
  predicate ClosedNormal(d: Drawer, today: Date, slot: Slot) {
    d.date == today && d.closed && !d.isExtra && d.shift == slot.shift && d.level == slot.level
  }

  /** Some closed normal drawer of `today` exists for the slot. */
  predicate HasClosedNormal(s: Store, today: Date, slot: Slot) {
    exists i | i in s.drawers :: ClosedNormal(s.drawers[i], today, slot)
  }

  /** An extra drawer of `today` exists for the slot. */
  predicate HasExtra(s: Store, today: Date, slot: Slot) {
    exists i | i in s.drawers ::
      s.drawers[i].date == today && s.drawers[i].isExtra
      && s.drawers[i].shift == slot.shift && s.drawers[i].level == slot.level
  }

  /** The slot has a normal drawer closed today and no extra drawer yet. */
  predicate SlotEligible(s: Store, today: Date, slot: Slot) {
    HasClosedNormal(s, today, slot) && !HasExtra(s, today, slot)
  }

  /** The four slots of a day, in the order the views list them (by shift, then level). */
  function AllSlots(): seq<Slot> {
    [Slot(Morning, Primary), Slot(Morning, Secondary), Slot(Afternoon, Primary), Slot(Afternoon, Secondary)]
  }

  /**
   * The candidate list `cajas_disponibles` of `iniciar_caja_extra`: the slots whose normal drawer
   * closed today and that have no extra drawer, ordered by shift and then level.
   */
  function AvailableSlots(s: Store, today: Date): (r: seq<Slot>)
    ensures forall slot :: slot in r <==> SlotEligible(s, today, slot)
    ensures forall i, j | 0 <= i < j < |r| :: r[i] != r[j]
  {
    var all := AllSlots();
    forall slot: Slot ensures slot in all {
      assert slot == Slot(slot.shift, slot.level);
      assert slot.shift == Morning || slot.shift == Afternoon;
      assert slot.level == Primary || slot.level == Secondary;
    }
    Filter(all, s, today)
  }

  function Filter(slots: seq<Slot>, s: Store, today: Date): (r: seq<Slot>)
    requires forall i, j | 0 <= i < j < |slots| :: slots[i] != slots[j]
    ensures forall slot :: slot in r <==> slot in slots && SlotEligible(s, today, slot)
    ensures forall i, j | 0 <= i < j < |r| :: r[i] != r[j]
  {
    if |slots| == 0 then []
    else
      var rest := Filter(slots[1..], s, today);
      if SlotEligible(s, today, slots[0]) then [slots[0]] + rest else rest
  }

  /** Some normal drawer closed on `today` (for any slot). */
  predicate AnyClosedNormalToday(s: Store, today: Date) {
    exists i | i in s.drawers :: s.drawers[i].date == today && s.drawers[i].closed && !s.drawers[i].isExtra
  }

  /**
   * `iniciar_caja_extra`: open an extra drawer for `today` and the requested slot. Refused when no
   * normal drawer closed today, when every such drawer already has an extra one, when the requested
   * slot has no closed normal drawer, and finally by the store's unique constraint under `rule`.
   * The extra drawer is dated today and opens with balance 0. It does not look at other open drawers.
   */
  function OpenExtra(s: Store, today: Date, slot: Slot, rule: UniqueRule): (r: Result<Store, CajaError>)
    ensures r == Err(NoClosedDrawerToday) <==> !AnyClosedNormalToday(s, today)
    ensures r == Err(AllClosedHaveExtra) <==> AnyClosedNormalToday(s, today) && |AvailableSlots(s, today)| == 0
    ensures r == Err(NoClosedDrawerForSlot) <==>
      AnyClosedNormalToday(s, today) && |AvailableSlots(s, today)| > 0 && !HasClosedNormal(s, today, slot)
    ensures r == Err(DuplicateDrawer) <==>
      && AnyClosedNormalToday(s, today) && |AvailableSlots(s, today)| > 0 && HasClosedNormal(s, today, slot)
      && !Admits(rule, s, NewDrawer(today, slot.shift, slot.level, true, 0))
    ensures r.Ok? <==>
      && |AvailableSlots(s, today)| > 0
      && HasClosedNormal(s, today, slot)
      && Admits(rule, s, NewDrawer(today, slot.shift, slot.level, true, 0))
    ensures r.Ok? ==>
      && r.value == Insert(s, NewDrawer(today, slot.shift, slot.level, true, 0))
      && r.value.drawers[s.nextId].date == today
      && r.value.drawers[s.nextId].isExtra
      && r.value.drawers[s.nextId].opening == 0
      && !r.value.drawers[s.nextId].closed
  {
    if !AnyClosedNormalToday(s, today) then Err(NoClosedDrawerToday)
    else if |AvailableSlots(s, today)| == 0 then Err(AllClosedHaveExtra)
    else if !HasClosedNormal(s, today, slot) then Err(NoClosedDrawerForSlot)
    else
      var d := NewDrawer(today, slot.shift, slot.level, true, 0);
      if !Admits(rule, s, d) then Err(DuplicateDrawer) else Ok(Insert(s, d))
  }

  /**
   * The flag `hay_cajas_extras_disponibles` of `lista_cajas`: scan the drawers and stop at the first
   * normal drawer closed today whose slot has no extra drawer.
   */
  method ExtraDrawersAvailable(s: Store, today: Date) returns (found: bool)
    ensures found <==> exists i | i in s.drawers && i < s.nextId ::
      && s.drawers[i].date == today && s.drawers[i].closed && !s.drawers[i].isExtra
      && !HasExtra(s, today, Slot(s.drawers[i].shift, s.drawers[i].level))
  {
    found := false;
    var i := 0;
    while i < s.nextId && !found
      invariant 0 <= i <= s.nextId
      invariant !found ==> forall k | k in s.drawers && k < i ::
        !(s.drawers[k].date == today && s.drawers[k].closed && !s.drawers[k].isExtra
          && !HasExtra(s, today, Slot(s.drawers[k].shift, s.drawers[k].level)))
      invariant found ==> exists k | k in s.drawers && k < s.nextId ::
        && s.drawers[k].date == today && s.drawers[k].closed && !s.drawers[k].isExtra
        && !HasExtra(s, today, Slot(s.drawers[k].shift, s.drawers[k].level))
    {
      if i in s.drawers {
        var d := s.drawers[i];
        if d.date == today && d.closed && !d.isExtra && !HasExtra(s, today, Slot(d.shift, d.level)) {
          found := true;
        }
      }
      i := i + 1;
    }
  }

  // ---------------------------------------------------------------- line items

  /**
   * `proximo_recreo` of `registrar_movimientos`: the recess number the page offers next.
   * An extra drawer offers number 1 only while it has no recess. A normal drawer offers 1 when
   * empty, otherwise one more than its highest number while that is below 3, and nothing after 3.
   */
  function NextRecessSlot(d: Drawer): (r: Option<int>)
    ensures d.isExtra ==> (r == Some(1) <==> |d.recesses| == 0) && (r.None? <==> |d.recesses| > 0)
    ensures !d.isExtra && |d.recesses| == 0 ==> r == Some(1)
    ensures !d.isExtra && |d.recesses| > 0 ==>
      (r.None? <==> exists k | 0 <= k < |d.recesses| :: d.recesses[k].number >= 3)
    ensures r.Some? ==> r.value <= 3 && forall k | 0 <= k < |d.recesses| :: d.recesses[k].number < r.value
    ensures r.Some? && |d.recesses| > 0 ==> exists k | 0 <= k < |d.recesses| :: d.recesses[k].number == r.value - 1
  {
    if d.isExtra then (if |d.recesses| == 0 then Some(1) else None)
    else if |d.recesses| == 0 then Some(1)
    else
      var last := HighestNumber(d.recesses);
      if last < 3 then Some(last + 1) else None
  }

  /** The number of the last recess when ordered by number: the highest one. */
  function HighestNumber(rs: seq<Recess>): (m: int)
    requires |rs| > 0
    ensures exists k | 0 <= k < |rs| :: rs[k].number == m
    ensures forall k | 0 <= k < |rs| :: rs[k].number <= m
  {
    if |rs| == 1 then rs[0].number
    else
      var m := HighestNumber(rs[1..]);
      assert forall k | 1 <= k < |rs| :: rs[k] == rs[1..][k - 1];
      if rs[0].number >= m then rs[0].number else m
  }

  /** True when a recess with that number is already recorded. */
  predicate HasRecessNumber(rs: seq<Recess>, n: int) {
    exists k | 0 <= k < |rs| :: rs[k].number == n
  }

  /**
   * `r` differs from `s` at most in drawer `id`, which exists in both: the general balance,
   * the id counter and every other drawer are unchanged.
   */
  predicate TouchesOnly(s: Store, r: Store, id: DrawerId) {
    && id in s.drawers && id in r.drawers
    && r.drawers == s.drawers[id := r.drawers[id]]
    && r.balance == s.balance
    && r.nextId == s.nextId
  }

  /** The store with drawer `id` replaced. */
  function Update(s: Store, id: DrawerId, d: Drawer): Store {
    s.(drawers := s.drawers[id := d])
  }

  /**
   * The "agregar_recreo" branch: record a recess and recompute the partial balance. An extra drawer
   * always records number 1; the unique (caja, numero) rule refuses a number already present.
   */
  function AddRecess(s: Store, id: DrawerId, number: int, amount: Cents): (r: Result<Store, CajaError>)
    ensures r == Err(DrawerNotFound) <==> id !in s.drawers
    ensures id in s.drawers ==>
      var n := if s.drawers[id].isExtra then 1 else number;
      && (r == Err(DuplicateRecessNumber) <==> HasRecessNumber(s.drawers[id].recesses, n))
      && (r.Ok? ==>
           && TouchesOnly(s, r.value, id)
           && r.value.drawers[id].recesses == s.drawers[id].recesses + [Recess(n, amount)]
           && r.value.drawers[id].partial == PartialBalance(s.drawers[id]) + amount
           && r.value.drawers[id] == Recompute(s.drawers[id].(recesses := r.value.drawers[id].recesses)))
    ensures r.Ok? <==>
      id in s.drawers && !HasRecessNumber(s.drawers[id].recesses, if s.drawers[id].isExtra then 1 else number)
  {
    if id !in s.drawers then Err(DrawerNotFound)
    else
      var d := s.drawers[id];
      var n := if d.isExtra then 1 else number;
      if HasRecessNumber(d.recesses, n) then Err(DuplicateRecessNumber)
      else
        SumAppend(d.recesses, Recess(n, amount), RecessAmount);
        Ok(Update(s, id, Recompute(d.(recesses := d.recesses + [Recess(n, amount)]))))
  }

  /** The "agregar_evento" branch: special events are refused on extra drawers. */
  function AddEvent(s: Store, id: DrawerId, description: string, amount: Cents): (r: Result<Store, CajaError>)
    ensures r == Err(DrawerNotFound) <==> id !in s.drawers
    ensures r == Err(NotPermitted) <==> id in s.drawers && s.drawers[id].isExtra
    ensures r.Ok? <==> id in s.drawers && !s.drawers[id].isExtra
    ensures r.Ok? ==>
      && id in s.drawers
      && TouchesOnly(s, r.value, id)
      && r.value.drawers[id].events == s.drawers[id].events + [SpecialEvent(description, amount)]
      && r.value.drawers[id].partial == PartialBalance(s.drawers[id]) + amount
      && r.value.drawers[id] == Recompute(s.drawers[id].(events := r.value.drawers[id].events))
  {
    if id !in s.drawers then Err(DrawerNotFound)
    else
      var d := s.drawers[id];
      if d.isExtra then Err(NotPermitted)
      else
        SumAppend(d.events, SpecialEvent(description, amount), EventAmount);
        Ok(Update(s, id, Recompute(d.(events := d.events + [SpecialEvent(description, amount)]))))
  }

  /**
   * The guard of the "agregar_pago" branch, as written: secondary level and not (extra and primary).
   * It admits exactly the secondary-level drawers, normal or extra.
   */
  predicate PaymentAllowed(d: Drawer)
    ensures PaymentAllowed(d) <==> d.level == Secondary
  {
    d.level == Secondary && !(d.isExtra && d.level == Primary)
  }

  /** The "agregar_pago" branch: supplier payments only on secondary-level drawers. */
  function AddPayment(s: Store, id: DrawerId, p: SupplierPayment): (r: Result<Store, CajaError>)
    ensures r == Err(DrawerNotFound) <==> id !in s.drawers
    ensures r == Err(NotPermitted) <==> id in s.drawers && s.drawers[id].level != Secondary
    ensures r.Ok? <==> id in s.drawers && s.drawers[id].level == Secondary
    ensures r.Ok? ==>
      && id in s.drawers
      && TouchesOnly(s, r.value, id)
      && r.value.drawers[id].payments == s.drawers[id].payments + [p]
      && r.value.drawers[id].partial == PartialBalance(s.drawers[id]) - p.amount
      && r.value.drawers[id] == Recompute(s.drawers[id].(payments := r.value.drawers[id].payments))
  {
    if id !in s.drawers then Err(DrawerNotFound)
    else
      var d := s.drawers[id];
      if !PaymentAllowed(d) then Err(NotPermitted)
      else
        SumAppend(d.payments, p, PaymentAmount);
        Ok(Update(s, id, Recompute(d.(payments := d.payments + [p]))))
  }

  /**
   * `editar_recreo`: change the number and amount of a recorded recess. The unique
   * (caja, numero) rule refuses a number another recess of the drawer already has.
   * The partial balance is recomputed; the general balance is not touched.
   */
  function EditRecess(s: Store, id: DrawerId, k: nat, number: int, amount: Cents): (r: Result<Store, CajaError>)
    ensures r == Err(DrawerNotFound) <==> id !in s.drawers
    ensures r == Err(ItemNotFound) <==> id in s.drawers && k >= |s.drawers[id].recesses|
    ensures r == Err(DuplicateRecessNumber) <==>
      id in s.drawers && k < |s.drawers[id].recesses| &&
      exists j | 0 <= j < |s.drawers[id].recesses| && j != k :: s.drawers[id].recesses[j].number == number
    ensures r.Ok? <==>
      id in s.drawers && k < |s.drawers[id].recesses| &&
      !exists j | 0 <= j < |s.drawers[id].recesses| && j != k :: s.drawers[id].recesses[j].number == number
    ensures r.Ok? ==>
      && id in s.drawers && k < |s.drawers[id].recesses|
      && TouchesOnly(s, r.value, id)
      && r.value.drawers[id].recesses == s.drawers[id].recesses[k := Recess(number, amount)]
      && r.value.drawers[id].partial
         == PartialBalance(s.drawers[id]) - s.drawers[id].recesses[k].amount + amount
      && r.value.drawers[id] == Recompute(s.drawers[id].(recesses := r.value.drawers[id].recesses))
  {
    if id !in s.drawers then Err(DrawerNotFound)
    else
      var d := s.drawers[id];
      if k >= |d.recesses| then Err(ItemNotFound)
      else if exists j | 0 <= j < |d.recesses| && j != k :: d.recesses[j].number == number then
        Err(DuplicateRecessNumber)
      else
        SumUpdate(d.recesses, k, Recess(number, amount), RecessAmount);
        Ok(Update(s, id, Recompute(d.(recesses := d.recesses[k := Recess(number, amount)]))))
  }

  /**
   * `editar_pago`: replace the supplier, amount, receipt and note of a recorded payment.
   * The partial balance is recomputed; the general balance is not touched.
   */
  function EditPayment(s: Store, id: DrawerId, k: nat, p: SupplierPayment): (r: Result<Store, CajaError>)
    ensures r == Err(DrawerNotFound) <==> id !in s.drawers
    ensures r == Err(ItemNotFound) <==> id in s.drawers && k >= |s.drawers[id].payments|
    ensures r.Ok? <==> id in s.drawers && k < |s.drawers[id].payments|
    ensures r.Ok? ==>
      && TouchesOnly(s, r.value, id)
      && r.value.drawers[id].payments == s.drawers[id].payments[k := p]
      && r.value.drawers[id].partial
         == PartialBalance(s.drawers[id]) + s.drawers[id].payments[k].amount - p.amount
      && r.value.drawers[id] == Recompute(s.drawers[id].(payments := r.value.drawers[id].payments))
  {
    if id !in s.drawers then Err(DrawerNotFound)
    else
      var d := s.drawers[id];
      if k >= |d.payments| then Err(ItemNotFound)
      else
        SumUpdate(d.payments, k, p, PaymentAmount);
        Ok(Update(s, id, Recompute(d.(payments := d.payments[k := p]))))
  }

  /**
   * `eliminar_pago`: remove a recorded payment. The partial balance is recomputed; the
   * general balance is not touched.
   */
  function DeletePayment(s: Store, id: DrawerId, k: nat): (r: Result<Store, CajaError>)
    ensures r == Err(DrawerNotFound) <==> id !in s.drawers
    ensures r == Err(ItemNotFound) <==> id in s.drawers && k >= |s.drawers[id].payments|
    ensures r.Ok? <==> id in s.drawers && k < |s.drawers[id].payments|
    ensures r.Ok? ==>
      && TouchesOnly(s, r.value, id)
      && |r.value.drawers[id].payments| == |s.drawers[id].payments| - 1
      && r.value.drawers[id].payments == s.drawers[id].payments[..k] + s.drawers[id].payments[k + 1..]
      && r.value.drawers[id].partial == PartialBalance(s.drawers[id]) + s.drawers[id].payments[k].amount
      && r.value.drawers[id] == Recompute(s.drawers[id].(payments := r.value.drawers[id].payments))
  {
    if id !in s.drawers then Err(DrawerNotFound)
    else
      var d := s.drawers[id];
      if k >= |d.payments| then Err(ItemNotFound)
      else
        var rest := d.payments[..k] + d.payments[k + 1..];
        SumRemove(d.payments, k, PaymentAmount);
        Ok(Update(s, id, Recompute(d.(payments := rest))))
  }

  // ---------------------------------------------------------------- closing and deleting

  /**
   * The "cerrar_caja" branch: recompute the partial balance, add partial - opening to the
   * general balance and mark the drawer closed. The branch does not check whether the drawer
   * was already closed.
   */
  function Close(s: Store, id: DrawerId): (r: Result<Store, CajaError>)
    ensures r.Err? <==> id !in s.drawers
    ensures r.Err? ==> r.error == DrawerNotFound
    ensures r.Ok? ==>
      && r.value.balance == s.balance + Income(s.drawers[id]) - Payments(s.drawers[id])
      && r.value.nextId == s.nextId
      && id in r.value.drawers
      && r.value.drawers == s.drawers[id := r.value.drawers[id]]
      && r.value.drawers[id].closed
      && r.value.drawers[id].partial == PartialBalance(s.drawers[id])
      && r.value.drawers[id] == s.drawers[id].(partial := r.value.drawers[id].partial, closed := true)
  {
    if id !in s.drawers then Err(DrawerNotFound)
    else
      var d := Recompute(s.drawers[id]);
      var delta := d.partial - d.opening;
      Ok(Store(s.drawers[id := d.(closed := true)], s.balance + delta, s.nextId))
  }

  /**
   * The net amount an extra drawer put into the till: its income, minus its supplier payments
   * when it is a secondary-level drawer. Whenever a primary drawer has no payments, which the
   * views keep true, this is exactly what closing the drawer added to the general balance.
   */
  function DeleteImpact(d: Drawer): (impact: Cents)
    ensures (d.level == Primary ==> d.payments == []) ==> impact == PartialBalance(d) - d.opening
  {
    Income(d) - (if d.level == Secondary then Payments(d) else 0)
  }

  /**
   * `eliminar_caja_extra`: only extra drawers can be deleted. The general balance loses the
   * drawer's net impact and the drawer goes with all its line items. Whether the drawer was
   * closed is not checked.
   */
  function DeleteExtra(s: Store, id: DrawerId): (r: Result<Store, CajaError>)
    ensures r == Err(DrawerNotFound) <==> id !in s.drawers
    ensures r == Err(NotAnExtraDrawer) <==> id in s.drawers && !s.drawers[id].isExtra
    ensures r.Ok? <==> id in s.drawers && s.drawers[id].isExtra
    ensures r.Ok? ==>
      && r.value.balance == s.balance - DeleteImpact(s.drawers[id])
      && r.value.drawers == s.drawers - {id}
      && r.value.nextId == s.nextId
  {
    if id !in s.drawers then Err(DrawerNotFound)
    else
      var d := s.drawers[id];
      if !d.isExtra then Err(NotAnExtraDrawer)
      else Ok(Store(s.drawers - {id}, s.balance - DeleteImpact(d), s.nextId))
  }

  // ---------------------------------------------------------------- general balance

  /**
   * `gestionar_saldo_general`: establish a new amount, add to it, or (any other choice) subtract from it.
   * No drawer changes.
   */
  function Adjust(s: Store, kind: AdjustKind, amount: Cents): (r: Store)
    ensures r.drawers == s.drawers && r.nextId == s.nextId
    ensures kind == Establish ==> r.balance == amount
    ensures kind == Add ==> r.balance - s.balance == amount
    ensures kind == Subtract ==> s.balance - r.balance == amount
  {
    match kind
    case Establish => s.(balance := amount)
    case Add => s.(balance := s.balance + amount)
    case Subtract => s.(balance := s.balance - amount)
  }

  /** The state before anything is recorded: no drawers and a general balance of 0. */
  function EmptyStore(): Store {
    Store(map[], 0, 0)
  }

  /**
   * `limpiar_cajas`: delete every event, payment, recess and drawer and set the general balance
   * back to 0. Ids already handed out are not reused.
   */
  function Reset(s: Store): (r: Store)
    ensures r.drawers == map[] && r.balance == 0 && r.nextId == s.nextId
    ensures !AnyOpen(r)
  {
    Store(map[], 0, s.nextId)
  }

  // ---------------------------------------------------------------- aggregate over open drawers

  /** The opening balance a drawer adds to the aggregate: only secondary drawers count it. */
  function SecondaryOpening(d: Drawer): Cents {
    if d.level == Secondary then d.opening else 0
  }

  /** The sum of `f` over the open drawers whose id is below `n`. */
  function OpenSum(s: Store, n: nat, f: Drawer -> Cents): Cents {
    if n == 0 then 0
    else OpenSum(s, n - 1, f) + (if n - 1 in s.drawers && !s.drawers[n - 1].closed then f(s.drawers[n - 1]) else 0)
  }

  /**
   * The aggregate partial balance of `lista_cajas` and `registrar_movimientos`: over every open drawer,
   * add the opening balance of secondary drawers and all income, and subtract all supplier payments.
   */
  method AggregatePartial(s: Store) returns (openingTotal: Cents, incomeTotal: Cents, paymentTotal: Cents, partial: Cents)
    ensures openingTotal == OpenSum(s, s.nextId, SecondaryOpening)
    ensures incomeTotal == OpenSum(s, s.nextId, Income)
    ensures paymentTotal == OpenSum(s, s.nextId, Payments)
    ensures partial == openingTotal + incomeTotal - paymentTotal
  {
    openingTotal, incomeTotal, paymentTotal := 0, 0, 0;
    var i := 0;
    while i < s.nextId
      invariant 0 <= i <= s.nextId
      invariant openingTotal == OpenSum(s, i, SecondaryOpening)
      invariant incomeTotal == OpenSum(s, i, Income)
      invariant paymentTotal == OpenSum(s, i, Payments)
    {
      if i in s.drawers && !s.drawers[i].closed {
        var d := s.drawers[i];
        if d.level == Secondary {
          openingTotal := openingTotal + d.opening;
        }
        incomeTotal := incomeTotal + Income(d);
        paymentTotal := paymentTotal + Payments(d);
      }
      i := i + 1;
    }
    partial := openingTotal + incomeTotal - paymentTotal;
  }

  /**
   * The refresh `registrar_movimientos` performs before aggregating: every open drawer's cached
   * partial balance is recomputed; closed drawers and the general balance are left alone.
   */
  function RefreshOpen(s: Store): (r: Store)
    ensures r.balance == s.balance && r.nextId == s.nextId && r.drawers.Keys == s.drawers.Keys
    ensures forall i | i in s.drawers && !s.drawers[i].closed :: r.drawers[i] == Recompute(s.drawers[i])
    ensures forall i | i in s.drawers && s.drawers[i].closed :: r.drawers[i] == s.drawers[i]
  {
    var m := map i | i in s.drawers :: if s.drawers[i].closed then s.drawers[i] else Recompute(s.drawers[i]);
    s.(drawers := m)
  }
}
