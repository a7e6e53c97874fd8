/** The filter parameters of the ledger view and the select handlers
    that change them (`handleChangeType`, `handleChangeStatus` and the
    date-range picker in src/pages/wallet/components/transaction.tsx).
    The four view flags narrow the server-side query; formatting a picked
    date is a parameter of the model. */
module LedgerParams {
  import opened Options
  import opened Ledger

  /** `FilterTransactionParams`. */
  datatype FilterParams = FilterParams(
    viewTransaction: bool,
    dailyPoint: bool,
    bonusPoint: bool,
    orderPoint: bool,
    status: Option<string>,
    startDate: Option<string>,
    endDate: Option<string>)

  /** The initial parameters: every flag false, nothing else set. */
  const Init := FilterParams(false, false, false, false, None, None, None)

  /** At most one of the four view flags is set. */
  predicate AtMostOneFlag(p: FilterParams) {
    (if p.viewTransaction then 1 else 0) + (if p.dailyPoint then 1 else 0)
      + (if p.bonusPoint then 1 else 0) + (if p.orderPoint then 1 else 0) <= 1
  }

  /** The type label whose flag is set, if any (read in the order of the
      type select's options). */
  function ActiveType(p: FilterParams): (r: Option<string>)
    ensures r.None? <==> !p.viewTransaction && !p.dailyPoint && !p.bonusPoint && !p.orderPoint
  {
    if p.bonusPoint then Some(BonusType)
    else if p.dailyPoint then Some(DailyType)
    else if p.viewTransaction then Some(TransactionLabel)
    else if p.orderPoint then Some(OrderType)
    else None
  }

  /** The four labels offered by the type select. */
  predicate IsTypeLabel(v: string) {
    v == BonusType || v == DailyType || v == TransactionLabel || v == OrderType
  }

  /** `handleChangeType`: a known label sets its own flag and clears the
      other three; any other value (a cleared select is `None`) clears all
      four. Status and dates are kept. */
  function ChangeType(p: FilterParams, value: Option<string>): (r: FilterParams)
    ensures r.status == p.status && r.startDate == p.startDate && r.endDate == p.endDate
    ensures r.bonusPoint <==> value == Some(BonusType)
    ensures r.dailyPoint <==> value == Some(DailyType)
    ensures r.viewTransaction <==> value == Some(TransactionLabel)
    ensures r.orderPoint <==> value == Some(OrderType)
  {
    if value == Some(BonusType) then
      p.(dailyPoint := false, viewTransaction := false, bonusPoint := true, orderPoint := false)
    else if value == Some(DailyType) then
      p.(bonusPoint := false, viewTransaction := false, dailyPoint := true, orderPoint := false)
    else if value == Some(TransactionLabel) then
      p.(bonusPoint := false, dailyPoint := false, viewTransaction := true, orderPoint := false)
    else if value == Some(OrderType) then
      p.(bonusPoint := false, dailyPoint := false, viewTransaction := false, orderPoint := true)
    else
      p.(bonusPoint := false, dailyPoint := false, viewTransaction := false, orderPoint := false)
  }

  /** `handleChangeStatus`: only the status changes. */
  function ChangeStatus(p: FilterParams, value: Option<string>): (r: FilterParams)
    ensures r.status == value
    ensures r.viewTransaction == p.viewTransaction && r.dailyPoint == p.dailyPoint
    ensures r.bonusPoint == p.bonusPoint && r.orderPoint == p.orderPoint
    ensures r.startDate == p.startDate && r.endDate == p.endDate
  {
    p.(status := value)
  }

  /** A bound of the picked range, formatted when present. */
  function FormatBound<D>(bound: Option<D>, format: D -> string): (r: Option<string>)
    ensures r.Some? <==> bound.Some?
    ensures bound.Some? ==> r == Some(format(bound.value))
  {
    match bound
    case None => None
    case Some(x) => Some(format(x))
  }

  /** The range picker's change handler. `range` is `None` when the picker
      is cleared; each bound may be missing. Both dates are overwritten,
      each with its own formatted bound or nothing; the flags and the
      status are kept. */
  function ChangeDateRange<D>(p: FilterParams, range: Option<(Option<D>, Option<D>)>, format: D -> string): (r: FilterParams)
    ensures range.None? ==> r.startDate.None? && r.endDate.None?
    ensures range.Some? ==> r.startDate == FormatBound(range.value.0, format)
    ensures range.Some? ==> r.endDate == FormatBound(range.value.1, format)
    ensures r.viewTransaction == p.viewTransaction && r.dailyPoint == p.dailyPoint
    ensures r.bonusPoint == p.bonusPoint && r.orderPoint == p.orderPoint
    ensures r.status == p.status
  {
    match range
    case None => p.(startDate := None, endDate := None)
    case Some((lo, hi)) => p.(startDate := FormatBound(lo, format), endDate := FormatBound(hi, format))
  }

  /** The user actions on the ledger's three filter controls. */
  datatype FilterEvent<D> =
    | SelectType(value: Option<string>)
    | SelectStatus(value: Option<string>)
    | PickRange(range: Option<(Option<D>, Option<D>)>)

  function Apply<D>(p: FilterParams, e: FilterEvent<D>, format: D -> string): FilterParams {
    match e
    case SelectType(v) => ChangeType(p, v)
    case SelectStatus(v) => ChangeStatus(p, v)
    case PickRange(range) => ChangeDateRange(p, range, format)
  }

  /** The parameters after a sequence of user actions, oldest first. */
  function Run<D>(p: FilterParams, es: seq<FilterEvent<D>>, format: D -> string): FilterParams
    decreases |es|
  {
    if |es| == 0 then p else Run(Apply(p, es[0], format), es[1..], format)
  }

  /** Choosing a type makes exactly that type active; any other value
      makes none active. */
  lemma ChangeTypeSelects(p: FilterParams, value: Option<string>)
    ensures ActiveType(ChangeType(p, value)) ==
              if value.Some? && IsTypeLabel(value.value) then value else None
    ensures AtMostOneFlag(ChangeType(p, value))
  {
  }

  /** Only the last type choice matters. */
  lemma ChangeTypeLastWins(p: FilterParams, v1: Option<string>, v2: Option<string>)
    ensures ChangeType(ChangeType(p, v1), v2) == ChangeType(p, v2)
  {
  }

  /** Changing the type and changing the status are independent. */
  lemma TypeAndStatusCommute(p: FilterParams, t: Option<string>, s: Option<string>)
    ensures ChangeType(ChangeStatus(p, s), t) == ChangeStatus(ChangeType(p, t), s)
  {
  }

  /** Every action keeps at most one view flag set. */
  lemma ApplyPreservesAtMostOne<D>(p: FilterParams, e: FilterEvent<D>, format: D -> string)
    requires AtMostOneFlag(p)
    ensures AtMostOneFlag(Apply(p, e, format))
  {
  }

  /** From the initial parameters, every sequence of actions leaves at
      most one view flag set. */
  lemma {:induction false} ReachableAtMostOneFlag<D>(es: seq<FilterEvent<D>>, format: D -> string)
    ensures AtMostOneFlag(Run(Init, es, format))
  {
    RunPreservesAtMostOne(Init, es, format);
  }

  lemma {:induction false} RunPreservesAtMostOne<D>(p: FilterParams, es: seq<FilterEvent<D>>, format: D -> string)
    requires AtMostOneFlag(p)
    ensures AtMostOneFlag(Run(p, es, format))
    decreases |es|
  {
    if |es| > 0 {
      ApplyPreservesAtMostOne(p, es[0], format);
      RunPreservesAtMostOne(Apply(p, es[0], format), es[1..], format);
    }
  }
}
