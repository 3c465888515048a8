/**
 * Entities of the cash-drawer ("caja") application: the general balance, the daily drawers
 * and their three kinds of line items, together with the derived sums, the partial balance
 * and the uniqueness rules the store enforces.
 *
 * Money is fixed-point with two decimals and is only ever added and subtracted, so it is
 * counted exactly in integer cents.
 */
module CajaModels {
  import opened Outcomes

  /** An amount of money in cents. */
  type Cents = int

  /** A calendar day, counted as a day number. */
  type Date = int

  /** Primary key of a drawer row. */
  type DrawerId = nat

  /** Primary key of a supplier (`precios.Proveedor`). */
  type SupplierId = nat

  /** `CajaDiaria.TURNOS`: morning 'M' or afternoon 'T'. */
  datatype Shift = Morning | Afternoon

  /** `CajaDiaria.NIVELES`: primary 'P' or secondary 'S'. */
  datatype Level = Primary | Secondary

  /** A recess-period income entry (`Recreo`). */
  datatype Recess = Recess(number: int, amount: Cents)

  /** A special-event income entry (`EventoEspecial`). */
  datatype SpecialEvent = SpecialEvent(description: string, amount: Cents)

  /** A supplier payment (`PagoProveedor`); the supplier reference is mandatory. */
  datatype SupplierPayment = SupplierPayment(supplier: SupplierId, amount: Cents, receipt: string, note: string)

  /**
   * A daily drawer (`CajaDiaria`) with the line items that point at it. Nesting the items
   * in the drawer makes "every line item belongs to exactly one drawer" hold by construction.
   * `partial` is the cached `saldo_parcial`.
   */
  datatype Drawer = Drawer(
    date: Date,
    shift: Shift,
    level: Level,
    isExtra: bool,
    opening: Cents,
    partial: Cents,
    closed: bool,
    recesses: seq<Recess>,
    events: seq<SpecialEvent>,
    payments: seq<SupplierPayment>)

  /**
   * The persistent state: every drawer row by id, the single general balance
   * (`SaldoGeneral.monto`) and the next id the database hands out.
   */
  datatype Store = Store(drawers: map<DrawerId, Drawer>, balance: Cents, nextId: DrawerId)

  /** The one-letter code stored for a shift. */
  function ShiftCode(s: Shift): char {
    match s
    case Morning => 'M'
    case Afternoon => 'T'
  }

  /** The shift a stored code denotes; only 'M' and 'T' are valid choices. */
  function ParseShift(c: char): (r: Option<Shift>)
    ensures r.Some? <==> c == 'M' || c == 'T'
    ensures r.Some? ==> ShiftCode(r.value) == c
  {
    if c == 'M' then Some(Morning) else if c == 'T' then Some(Afternoon) else None
  }

  /** The one-letter code stored for a level. */
  function LevelCode(l: Level): char {
    match l
    case Primary => 'P'
    case Secondary => 'S'
  }

  /** The level a stored code denotes; only 'P' and 'S' are valid choices. */
  function ParseLevel(c: char): (r: Option<Level>)
    ensures r.Some? <==> c == 'P' || c == 'S'
    ensures r.Some? ==> LevelCode(r.value) == c
  {
    if c == 'P' then Some(Primary) else if c == 'S' then Some(Secondary) else None
  }

  lemma CodesRoundTrip(s: Shift, l: Level)
    ensures ParseShift(ShiftCode(s)) == Some(s)
    ensures ParseLevel(LevelCode(l)) == Some(l)
  {
  }

  /** A fresh drawer row: `saldo_parcial` defaults to 0, `cerrada` to false, and it has no line items yet. */
  function NewDrawer(date: Date, shift: Shift, level: Level, isExtra: bool, opening: Cents): Drawer {
    Drawer(date, shift, level, isExtra, opening, 0, false, [], [], [])
  }

  // ---------------------------------------------------------------- sums

  function RecessAmount(r: Recess): Cents { r.amount }
  function EventAmount(e: SpecialEvent): Cents { e.amount }
  function PaymentAmount(p: SupplierPayment): Cents { p.amount }

  /** The total of `amount` over a sequence of line items. */
  function Sum<T>(xs: seq<T>, amount: T -> Cents): Cents {
    if |xs| == 0 then 0 else Sum(xs[..|xs| - 1], amount) + amount(xs[|xs| - 1])
  }

  lemma SumAppend<T>(xs: seq<T>, x: T, amount: T -> Cents)
    ensures Sum(xs + [x], amount) == Sum(xs, amount) + amount(x)
  {
  }

  lemma {:induction false} SumUpdate<T>(xs: seq<T>, i: nat, x: T, amount: T -> Cents)
    requires i < |xs|
    ensures Sum(xs[i := x], amount) == Sum(xs, amount) - amount(xs[i]) + amount(x)
    decreases |xs|
  {
    var n := |xs| - 1;
    if i == n {
      assert xs[i := x][..n] == xs[..n];
    } else {
      SumUpdate(xs[..n], i, x, amount);
      assert xs[i := x][..n] == xs[..n][i := x];
    }
  }

  lemma {:induction false} SumRemove<T>(xs: seq<T>, i: nat, amount: T -> Cents)
    requires i < |xs|
    ensures Sum(xs[..i] + xs[i + 1..], amount) == Sum(xs, amount) - amount(xs[i])
    decreases |xs|
  {
    var n := |xs| - 1;
    if i == n {
      assert xs[..i] + xs[i + 1..] == xs[..n];
    } else {
      var ys := xs[..i] + xs[i + 1..];
      SumRemove(xs[..n], i, amount);
      assert ys[..|ys| - 1] == xs[..n][..i] + xs[..n][i + 1..];
      assert ys[|ys| - 1] == xs[n];
    }
  }

  /**
   * `get_total_ingresos`: recess income plus special-event income. The method body is not
   * part of this model; this definition follows the comment "recreos + eventos" beside its use.
   */
  function Income(d: Drawer): Cents {
    Sum(d.recesses, RecessAmount) + Sum(d.events, EventAmount)
  }

  /** The total paid to suppliers out of the drawer. */
  function Payments(d: Drawer): Cents {
    Sum(d.payments, PaymentAmount)
  }

  /**
   * `actualizar_saldo_parcial`: the partial balance a drawer should report. The method body is not
   * part of this model; it is assumed to be opening + income - payments, the formula the
   * aggregate over open drawers spells out.
   */
  function PartialBalance(d: Drawer): Cents {
    d.opening + Income(d) - Payments(d)
  }

  /** The drawer with its cached `saldo_parcial` brought up to date. */
  function Recompute(d: Drawer): Drawer {
    d.(partial := PartialBalance(d))
  }

  /** True when some drawer anywhere is still open (`cerrada = False`). */
  predicate AnyOpen(s: Store) {
    exists id | id in s.drawers :: !s.drawers[id].closed
  }

  // ---------------------------------------------------------------- uniqueness

  /**
   * The two uniqueness rules at stake: the one declared on the model (date, shift, level)
   * and the one the extra-drawer views need (date, shift, level, kind).
   */
  datatype UniqueRule = ByDateShiftLevel | ByDateShiftLevelKind

  /** True when two drawers occupy the same unique key under the rule. */
  predicate SameKey(rule: UniqueRule, a: Drawer, b: Drawer) {
    && a.date == b.date
    && a.shift == b.shift
    && a.level == b.level
    && (rule == ByDateShiftLevelKind ==> a.isExtra == b.isExtra)
  }

  /** No two distinct rows share a unique key. */
  predicate Unique(rule: UniqueRule, s: Store) {
    forall i, j | i in s.drawers && j in s.drawers && i != j :: !SameKey(rule, s.drawers[i], s.drawers[j])
  }

  /** The database accepts inserting `d` as a new row. */
  predicate Admits(rule: UniqueRule, s: Store, d: Drawer) {
    forall i | i in s.drawers :: !SameKey(rule, s.drawers[i], d)
  }

  /**
   * `CajaDiaria.clean`: refuses a drawer when a row with another id has the same date, shift
   * and level. `self` is the id of the drawer being validated, `None` for a row not yet saved.
   */
  function Clean(s: Store, self: Option<DrawerId>, date: Date, shift: Shift, level: Level): (ok: bool)
    ensures !ok <==> exists i | i in s.drawers && Some(i) != self ::
      SameKey(ByDateShiftLevel, s.drawers[i], NewDrawer(date, shift, level, false, 0))
  {
    forall i | i in s.drawers && Some(i) != self ::
      !(s.drawers[i].date == date && s.drawers[i].shift == shift && s.drawers[i].level == level)
  }

  lemma CleanAcceptsRevalidation(s: Store, id: DrawerId)
    requires Unique(ByDateShiftLevel, s)
    requires id in s.drawers
    ensures Clean(s, Some(id), s.drawers[id].date, s.drawers[id].shift, s.drawers[id].level)
  {
  }

  lemma CleanRejectsClash(s: Store, id: DrawerId, other: DrawerId)
    requires id in s.drawers && other in s.drawers && id != other
    requires SameKey(ByDateShiftLevel, s.drawers[id], s.drawers[other])
    ensures !Clean(s, Some(id), s.drawers[id].date, s.drawers[id].shift, s.drawers[id].level)
  {
  }

  /** For a row not yet saved, `clean` accepts exactly when the declared constraint admits the row. */
  lemma CleanNewIsDeclaredConstraint(s: Store, d: Drawer)
    ensures Clean(s, None, d.date, d.shift, d.level) <==> Admits(ByDateShiftLevel, s, d)
  {
  }
}
