/**
 * Properties of the cash-drawer transitions: the store invariant every step keeps, where the
 * general balance may move, how deleting an extra drawer undoes its close, and what the two
 * uniqueness rules mean for extra drawers.
 */
module CajaProofs {
  import opened Outcomes
  import opened CajaModels
  import opened CajaViews

  /** No two recesses of a drawer share a number (unique (caja, numero)). */
  predicate DistinctNumbers(rs: seq<Recess>) {
    forall i, j | 0 <= i < j < |rs| :: rs[i].number != rs[j].number
  }

  /** The cached partial balance is current, or the drawer is untouched since it was opened. */
  predicate CacheCoherent(d: Drawer) {
    || d.partial == PartialBalance(d)
    || (d.partial == 0 && d.recesses == [] && d.events == [] && d.payments == [])
  }

  /**
   * What the views keep true of every drawer: distinct recess numbers, no events on extra drawers,
   * no payments on primary drawers, opening balance 0 unless it is a normal secondary drawer,
   * and a coherent cache.
   */
  predicate DrawerValid(d: Drawer) {
    && DistinctNumbers(d.recesses)
    && (d.isExtra ==> d.events == [] && d.opening == 0)
    && (d.level == Primary ==> d.payments == [] && d.opening == 0)
    && CacheCoherent(d)
  }

  /** An open normal drawer (extra drawers are not counted). */
  predicate OpenNormalDrawer(d: Drawer) {
    !d.closed && !d.isExtra
  }

  /** At most one normal drawer is open at a time. */
  predicate SingleOpenNormal(s: Store) {
    forall i, j | i in s.drawers && j in s.drawers && OpenNormalDrawer(s.drawers[i]) && OpenNormalDrawer(s.drawers[j]) ::
      i == j
  }

  /**
   * The store invariant: ids below the counter, unique (date, shift, level, kind), at most one
   * open normal drawer, valid drawers.
   */
  predicate Valid(s: Store) {
    && (forall i | i in s.drawers :: i < s.nextId)
    && Unique(ByDateShiftLevelKind, s)
    && SingleOpenNormal(s)
    && (forall i | i in s.drawers :: DrawerValid(s.drawers[i]))
  }

  /** One request that changes the store; extra drawers are saved under the (date, shift, level, kind) rule. */
  datatype Step =
    | OpenNormalStep(date: Date, shift: Shift, level: Level)
    | OpenExtraStep(today: Date, slot: Slot)
    | AddRecessStep(id: DrawerId, number: int, amount: Cents)
    | AddEventStep(id: DrawerId, description: string, amount: Cents)
    | AddPaymentStep(id: DrawerId, payment: SupplierPayment)
    | EditRecessStep(id: DrawerId, k: nat, number: int, amount: Cents)
    | EditPaymentStep(id: DrawerId, k: nat, payment: SupplierPayment)
    | DeletePaymentStep(id: DrawerId, k: nat)
    | CloseStep(id: DrawerId)
    | DeleteExtraStep(id: DrawerId)
    | AdjustStep(kind: AdjustKind, amount: Cents)
    | ResetStep
    | RefreshStep

  function Apply(s: Store, step: Step): Result<Store, CajaError> {
    match step
    case OpenNormalStep(date, shift, level) => OpenNormal(s, date, shift, level)
    case OpenExtraStep(today, slot) => OpenExtra(s, today, slot, ByDateShiftLevelKind)
    case AddRecessStep(id, number, amount) => AddRecess(s, id, number, amount)
    case AddEventStep(id, description, amount) => AddEvent(s, id, description, amount)
    case AddPaymentStep(id, payment) => AddPayment(s, id, payment)
    case EditRecessStep(id, k, number, amount) => EditRecess(s, id, k, number, amount)
    case EditPaymentStep(id, k, payment) => EditPayment(s, id, k, payment)
    case DeletePaymentStep(id, k) => DeletePayment(s, id, k)
    case CloseStep(id) => Close(s, id)
    case DeleteExtraStep(id) => DeleteExtra(s, id)
    case AdjustStep(kind, amount) => Ok(Adjust(s, kind, amount))
    case ResetStep => Ok(Reset(s))
    case RefreshStep => Ok(RefreshOpen(s))
  }

  /** A sequence of requests; a refused request leaves the store as it was. */
  function Run(s: Store, steps: seq<Step>): Store
    decreases |steps|
  {
    if |steps| == 0 then s
    else
      var r := Apply(s, steps[0]);
      Run(if r.Ok? then r.value else s, steps[1..])
  }

  // ---------------------------------------------------------------- the invariant

  lemma EmptyStoreValid()
    ensures Valid(EmptyStore())
  {
  }

  /**
   * Replacing a drawer by one with the same key and open state keeps keys unique and at most one
   * normal drawer open.
   */
  lemma ReplaceKeepsKeys(s: Store, id: DrawerId, d: Drawer)
    requires Unique(ByDateShiftLevelKind, s) && SingleOpenNormal(s) && id in s.drawers
    requires SameKey(ByDateShiftLevelKind, d, s.drawers[id]) && d.closed == s.drawers[id].closed
    ensures Unique(ByDateShiftLevelKind, s.(drawers := s.drawers[id := d]))
    ensures SingleOpenNormal(s.(drawers := s.drawers[id := d]))
  {
    var t := s.(drawers := s.drawers[id := d]);
    forall i, j | i in t.drawers && j in t.drawers && i != j
      ensures !SameKey(ByDateShiftLevelKind, t.drawers[i], t.drawers[j])
    {
      assert !SameKey(ByDateShiftLevelKind, s.drawers[i], s.drawers[j]);
    }
    forall i, j | i in t.drawers && j in t.drawers && OpenNormalDrawer(t.drawers[i]) && OpenNormalDrawer(t.drawers[j])
      ensures i == j
    {
      assert OpenNormalDrawer(s.drawers[i]) && OpenNormalDrawer(s.drawers[j]);
    }
  }

  /** Replacing a drawer by a valid one with the same key and open state keeps the store valid. */
  lemma ReplaceKeepsValid(s: Store, id: DrawerId, d: Drawer)
    requires Valid(s) && id in s.drawers
    requires SameKey(ByDateShiftLevelKind, d, s.drawers[id]) && d.closed == s.drawers[id].closed
    requires DrawerValid(d)
    ensures Valid(s.(drawers := s.drawers[id := d]))
  {
    var t := s.(drawers := s.drawers[id := d]);
    ReplaceKeepsKeys(s, id, d);
    forall i | i in t.drawers ensures DrawerValid(t.drawers[i]) {
      if i != id {
        assert t.drawers[i] == s.drawers[i];
      }
    }
  }

  lemma OpenNormalKeepsValid(s: Store, date: Date, shift: Shift, level: Level)
    requires Valid(s)
    ensures OpenNormal(s, date, shift, level).Ok? ==> Valid(OpenNormal(s, date, shift, level).value)
  {
  }

  lemma OpenExtraKeepsValid(s: Store, today: Date, slot: Slot)
    requires Valid(s)
    ensures OpenExtra(s, today, slot, ByDateShiftLevelKind).Ok? ==>
      Valid(OpenExtra(s, today, slot, ByDateShiftLevelKind).value)
  {
  }

  lemma AddRecessKeepsValid(s: Store, id: DrawerId, number: int, amount: Cents)
    requires Valid(s)
    ensures AddRecess(s, id, number, amount).Ok? ==> Valid(AddRecess(s, id, number, amount).value)
  {
    var r := AddRecess(s, id, number, amount);
    if r.Ok? {
      ReplaceKeepsValid(s, id, r.value.drawers[id]);
    }
  }

  lemma AddEventKeepsValid(s: Store, id: DrawerId, description: string, amount: Cents)
    requires Valid(s)
    ensures AddEvent(s, id, description, amount).Ok? ==> Valid(AddEvent(s, id, description, amount).value)
  {
    var r := AddEvent(s, id, description, amount);
    if r.Ok? {
      ReplaceKeepsValid(s, id, r.value.drawers[id]);
    }
  }

  lemma AddPaymentKeepsValid(s: Store, id: DrawerId, p: SupplierPayment)
    requires Valid(s)
    ensures AddPayment(s, id, p).Ok? ==> Valid(AddPayment(s, id, p).value)
  {
    var r := AddPayment(s, id, p);
    if r.Ok? {
      ReplaceKeepsValid(s, id, r.value.drawers[id]);
    }
  }

  lemma EditRecessKeepsValid(s: Store, id: DrawerId, k: nat, number: int, amount: Cents)
    requires Valid(s)
    ensures EditRecess(s, id, k, number, amount).Ok? ==> Valid(EditRecess(s, id, k, number, amount).value)
  {
    var r := EditRecess(s, id, k, number, amount);
    if r.Ok? {
      ReplaceKeepsValid(s, id, r.value.drawers[id]);
    }
  }

  lemma EditPaymentKeepsValid(s: Store, id: DrawerId, k: nat, p: SupplierPayment)
    requires Valid(s)
    ensures EditPayment(s, id, k, p).Ok? ==> Valid(EditPayment(s, id, k, p).value)
  {
    var r := EditPayment(s, id, k, p);
    if r.Ok? {
      ReplaceKeepsValid(s, id, r.value.drawers[id]);
    }
  }

  lemma DeletePaymentKeepsValid(s: Store, id: DrawerId, k: nat)
    requires Valid(s)
    ensures DeletePayment(s, id, k).Ok? ==> Valid(DeletePayment(s, id, k).value)
  {
    var r := DeletePayment(s, id, k);
    if r.Ok? {
      ReplaceKeepsValid(s, id, r.value.drawers[id]);
    }
  }

  lemma CloseKeepsValid(s: Store, id: DrawerId)
    requires Valid(s)
    ensures Close(s, id).Ok? ==> Valid(Close(s, id).value)
  {
  }

  lemma DeleteExtraKeepsValid(s: Store, id: DrawerId)
    requires Valid(s)
    ensures DeleteExtra(s, id).Ok? ==> Valid(DeleteExtra(s, id).value)
  {
  }

  /** Bringing the cache up to date keeps a drawer valid. */
  lemma RecomputeKeepsDrawerValid(d: Drawer)
    requires DrawerValid(d)
    ensures DrawerValid(Recompute(d))
  {
  }

  /** Refreshing the caches changes no drawer's key and leaves every drawer valid. */
  lemma RefreshKeepsDrawers(s: Store)
    requires forall i | i in s.drawers :: DrawerValid(s.drawers[i])
    ensures var t := RefreshOpen(s);
      forall i | i in t.drawers ::
        && DrawerValid(t.drawers[i]) && SameKey(ByDateShiftLevelKind, t.drawers[i], s.drawers[i])
        && t.drawers[i].closed == s.drawers[i].closed
  {
    var t := RefreshOpen(s);
    forall i | i in t.drawers
      ensures DrawerValid(t.drawers[i]) && SameKey(ByDateShiftLevelKind, t.drawers[i], s.drawers[i])
      ensures t.drawers[i].closed == s.drawers[i].closed
    {
      if !s.drawers[i].closed {
        RecomputeKeepsDrawerValid(s.drawers[i]);
      }
    }
  }

  lemma RefreshKeepsValid(s: Store)
    requires Valid(s)
    ensures Valid(RefreshOpen(s))
  {
    var t := RefreshOpen(s);
    RefreshKeepsDrawers(s);
    forall i, j | i in t.drawers && j in t.drawers && i != j
      ensures !SameKey(ByDateShiftLevelKind, t.drawers[i], t.drawers[j])
    {
      assert !SameKey(ByDateShiftLevelKind, s.drawers[i], s.drawers[j]);
    }
    forall i, j | i in t.drawers && j in t.drawers && OpenNormalDrawer(t.drawers[i]) && OpenNormalDrawer(t.drawers[j])
      ensures i == j
    {
      assert OpenNormalDrawer(s.drawers[i]) && OpenNormalDrawer(s.drawers[j]);
    }
  }

  /** Every request keeps the store invariant. */
  lemma StepKeepsValid(s: Store, step: Step)
    requires Valid(s)
    ensures Apply(s, step).Ok? ==> Valid(Apply(s, step).value)
  {
    match step
    case OpenNormalStep(date, shift, level) => OpenNormalKeepsValid(s, date, shift, level);
    case OpenExtraStep(today, slot) => OpenExtraKeepsValid(s, today, slot);
    case AddRecessStep(id, number, amount) => AddRecessKeepsValid(s, id, number, amount);
    case AddEventStep(id, description, amount) => AddEventKeepsValid(s, id, description, amount);
    case AddPaymentStep(id, payment) => AddPaymentKeepsValid(s, id, payment);
    case EditRecessStep(id, k, number, amount) => EditRecessKeepsValid(s, id, k, number, amount);
    case EditPaymentStep(id, k, payment) => EditPaymentKeepsValid(s, id, k, payment);
    case DeletePaymentStep(id, k) => DeletePaymentKeepsValid(s, id, k);
    case CloseStep(id) => CloseKeepsValid(s, id);
    case DeleteExtraStep(id) => DeleteExtraKeepsValid(s, id);
    case AdjustStep(kind, amount) =>
    case ResetStep =>
    case RefreshStep => RefreshKeepsValid(s);
  }

  /** Every store reached by any sequence of requests from a valid store is valid, the empty store included. */
  lemma {:induction false} RunKeepsValid(s: Store, steps: seq<Step>)
    requires Valid(s)
    ensures Valid(Run(s, steps))
    decreases |steps|
  {
    if |steps| > 0 {
      StepKeepsValid(s, steps[0]);
      var r := Apply(s, steps[0]);
      RunKeepsValid(if r.Ok? then r.value else s, steps[1..]);
    }
  }

  // ---------------------------------------------------------------- the general balance

  /** True for the requests that open drawers or record, edit or delete line items. */
  predicate IsMovementStep(step: Step) {
    || step.OpenNormalStep? || step.OpenExtraStep?
    || step.AddRecessStep? || step.AddEventStep? || step.AddPaymentStep?
    || step.EditRecessStep? || step.EditPaymentStep? || step.DeletePaymentStep?
    || step.RefreshStep?
  }

  /** Opening drawers and touching line items never move the general balance. */
  lemma MovementsKeepBalance(s: Store, step: Step)
    requires IsMovementStep(step)
    ensures Apply(s, step).Ok? ==> Apply(s, step).value.balance == s.balance
  {
  }

  /** Subtracting an amount undoes adding it, and establishing ignores the previous balance. */
  lemma AdjustmentsCompose(s: Store, t: Store, amount: Cents, other: Cents)
    requires t.drawers == s.drawers && t.nextId == s.nextId
    ensures Adjust(Adjust(s, Add, amount), Subtract, amount) == s
    ensures Adjust(Adjust(s, Subtract, amount), Add, amount) == s
    ensures Adjust(s, Establish, amount) == Adjust(Adjust(t, Add, other), Establish, amount)
  {
  }

  /** Deleting an extra drawer right after closing it restores the general balance exactly. */
  lemma DeleteUndoesClose(s: Store, id: DrawerId)
    requires Valid(s)
    requires id in s.drawers && s.drawers[id].isExtra
    ensures Close(s, id).Ok?
    ensures DeleteExtra(Close(s, id).value, id).Ok?
    ensures DeleteExtra(Close(s, id).value, id).value.balance == s.balance
    ensures DeleteExtra(Close(s, id).value, id).value.drawers == s.drawers - {id}
  {
  }

  /** The close branch does not look at `cerrada`: closing twice folds the drawer's net amount twice. */
  lemma CloseTwiceFoldsTwice(s: Store, id: DrawerId)
    requires id in s.drawers
    ensures Close(s, id).Ok? && Close(Close(s, id).value, id).Ok?
    ensures Close(Close(s, id).value, id).value.balance
      == s.balance + 2 * (Income(s.drawers[id]) - Payments(s.drawers[id]))
  {
  }

  // ---------------------------------------------------------------- extra drawers and the unique rules

  /**
   * Under the constraint declared on the drawer model, (date, shift, level), no extra drawer can
   * ever be saved: the closed normal drawer it requires already holds that key.
   */
  lemma DeclaredRuleBlocksEveryExtra(s: Store, today: Date, slot: Slot)
    ensures !OpenExtra(s, today, slot, ByDateShiftLevel).Ok?
  {
  }

  /** Under the (date, shift, level, kind) rule an extra drawer opens exactly for an eligible slot. */
  lemma KindRuleOpensExactlyEligible(s: Store, today: Date, slot: Slot)
    ensures OpenExtra(s, today, slot, ByDateShiftLevelKind).Ok? <==> SlotEligible(s, today, slot)
  {
  }

  /**
   * Opening an extra drawer does not wait for open drawers to close, so two drawers can be
   * open at once: "at most one open drawer" holds only for normal drawers.
   */
  lemma ExtraOpensBesideOpenDrawer(s: Store, today: Date, slot: Slot, open: DrawerId)
    requires Valid(s)
    requires SlotEligible(s, today, slot)
    requires open in s.drawers && !s.drawers[open].closed
    ensures OpenExtra(s, today, slot, ByDateShiftLevelKind).Ok?
    ensures var t := OpenExtra(s, today, slot, ByDateShiftLevelKind).value;
      && open in t.drawers && s.nextId in t.drawers && open != s.nextId
      && !t.drawers[open].closed && !t.drawers[s.nextId].closed
  {
  }

  /**
   * Forcing number 1 does not keep an extra drawer to one recess: `editar_recreo` renumbers the
   * first recess to 2, after which number 1 is free and the next recess is recorded too.
   */
  lemma ExtraDrawerTakesSecondRecess(s: Store, id: DrawerId, a: Cents, b: Cents, number: int, c: Cents)
    requires id in s.drawers && s.drawers[id].isExtra
    requires s.drawers[id].recesses == [Recess(1, a)]
    ensures EditRecess(s, id, 0, 2, b).Ok?
    ensures var t := EditRecess(s, id, 0, 2, b).value;
      && AddRecess(t, id, number, c).Ok?
      && AddRecess(t, id, number, c).value.drawers[id].recesses == [Recess(2, b), Recess(1, c)]
  {
    var t := EditRecess(s, id, 0, 2, b).value;
    assert t.drawers[id].recesses == [Recess(2, b)];
  }

  /** The flag of the drawer list and the candidate list of the extra-drawer view agree. */
  lemma EligibilityViewsAgree(s: Store, today: Date)
    requires forall i | i in s.drawers :: i < s.nextId
    ensures (exists i | i in s.drawers && i < s.nextId ::
      && s.drawers[i].date == today && s.drawers[i].closed && !s.drawers[i].isExtra
      && !HasExtra(s, today, Slot(s.drawers[i].shift, s.drawers[i].level)))
      <==> |AvailableSlots(s, today)| > 0
  {
    if |AvailableSlots(s, today)| > 0 {
      var slot := AvailableSlots(s, today)[0];
      assert SlotEligible(s, today, slot);
      var i :| i in s.drawers && ClosedNormal(s.drawers[i], today, slot);
      assert Slot(s.drawers[i].shift, s.drawers[i].level) == slot;
    } else {
      forall i | i in s.drawers && i < s.nextId && s.drawers[i].date == today && s.drawers[i].closed
        && !s.drawers[i].isExtra
        ensures HasExtra(s, today, Slot(s.drawers[i].shift, s.drawers[i].level))
      {
        var slot := Slot(s.drawers[i].shift, s.drawers[i].level);
        assert ClosedNormal(s.drawers[i], today, slot);
        assert slot !in AvailableSlots(s, today);
      }
    }
  }

  // ---------------------------------------------------------------- the aggregate

  /**
   * On a valid store, the aggregate over open drawers is the sum of their partial balances:
   * primary drawers open at 0, so leaving their opening balance out changes nothing.
   */
  lemma {:induction false} AggregateIsSumOfPartials(s: Store, n: nat)
    requires Valid(s)
    ensures OpenSum(s, n, SecondaryOpening) + OpenSum(s, n, Income) - OpenSum(s, n, Payments)
      == OpenSum(s, n, PartialBalance)
  {
    if n > 0 {
      AggregateIsSumOfPartials(s, n - 1);
      if n - 1 in s.drawers {
        assert DrawerValid(s.drawers[n - 1]);
      }
    }
  }

  /** The cached partial balance a drawer reports. */
  function CachedPartial(d: Drawer): Cents { d.partial }

  /** After the refresh, the cached partial balances of the open drawers add up to their true partial balances. */
  lemma {:induction false} RefreshMakesCacheExact(s: Store, n: nat)
    ensures OpenSum(RefreshOpen(s), n, CachedPartial) == OpenSum(s, n, PartialBalance)
  {
    if n > 0 {
      RefreshMakesCacheExact(s, n - 1);
    }
  }

  // ---------------------------------------------------------------- a worked day

  /**
   * General balance 100.00; a secondary drawer opens with 100.00, records recesses of 20.00 and
   * 15.00 and a payment of 10.00, reaching a partial balance of 125.00; closing it leaves the
   * general balance at 125.00.
   */
  lemma SecondaryDayScenario(date: Date, supplier: SupplierId)
    ensures
      var s0 := Adjust(EmptyStore(), Establish, 10000);
      var s1 := OpenNormal(s0, date, Morning, Secondary).value;
      var s2 := AddRecess(s1, 0, 1, 2000).value;
      var s3 := AddRecess(s2, 0, 2, 1500).value;
      var s4 := AddPayment(s3, 0, SupplierPayment(supplier, 1000, "", "")).value;
      && s1.drawers[0].opening == 10000
      && s4.drawers[0].partial == 12500
      && Close(s4, 0).value.balance == 12500
  {
    var s0 := Adjust(EmptyStore(), Establish, 10000);
    assert !AnyOpen(s0);
    var s1 := OpenNormal(s0, date, Morning, Secondary).value;
    var s2 := AddRecess(s1, 0, 1, 2000).value;
    assert !HasRecessNumber(s2.drawers[0].recesses, 2);
  }
}
