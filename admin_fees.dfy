/** The fee list of the administration page: normalisation of stored rows,
    list edits and the labels and units of the calculation types. */
module AdminFees {
  import opened Common
  import opened Lists

  /** The `enabled` column as stored: a number, a boolean or anything else. */
  datatype StoredFlag = FlagNumber(n: real) | FlagBool(b: bool) | FlagOther

  /** A fee row as the database returns it; absent columns are `None`. */
  datatype StoredFee = StoredFee(
    id: int,
    name: Option<string>,
    calculationType: Option<string>,
    amount: Option<JsNumber>,
    applicationType: Option<string>,
    enabled: StoredFlag)

  datatype Fee = Fee(
    id: int,
    name: string,
    calculationType: string,
    amount: real,
    applicationType: string,
    enabled: bool)

  /** `s || fallback` for a string column. */
  function StringOr(s: Option<string>, fallback: string): string
  {
    if s.Some? && s.value != "" then s.value else fallback
  }

  /** `x || 0` for a numeric column: absent, NaN and zero all give 0. */
  function NumberOr0(x: Option<JsNumber>): real
  {
    if x.Some? && x.value.Finite? then x.value.v else 0.0
  }

  /** The camelCase fee of a stored row, with the defaults of the page. */
  function NormalizeFee(row: StoredFee): (f: Fee)
    ensures f.id == row.id
    ensures f.name == "" <==> row.name.None? || row.name.value == ""
    ensures f.calculationType != "" && f.applicationType != ""
    ensures (row.calculationType.None? || row.calculationType.value == "") ==> f.calculationType == "fixed"
    ensures (row.applicationType.None? || row.applicationType.value == "") ==> f.applicationType == "per_model"
    ensures (row.amount.None? || row.amount.value.NaN?) ==> f.amount == 0.0
    ensures f.enabled <==> row.enabled == FlagNumber(1.0) || row.enabled == FlagBool(true)
  {
    Fee(row.id,
        StringOr(row.name, ""),
        StringOr(row.calculationType, "fixed"),
        NumberOr0(row.amount),
        StringOr(row.applicationType, "per_model"),
        row.enabled == FlagNumber(1.0) || row.enabled == FlagBool(true))
  }

  function LoadFees(rows: seq<StoredFee>): seq<Fee>
  {
    seq(|rows|, k requires 0 <= k < |rows| => NormalizeFee(rows[k]))
  }

  /** The row a fee is saved as. Saving deletes the customer's rows and
      inserts each fee again, so the database gives it a new id, and stores
      `enabled` as 1 or 0. */
  function StoreFee(f: Fee, newId: int): StoredFee
  {
    StoredFee(newId, Some(f.name), Some(f.calculationType), Some(Finite(f.amount)),
              Some(f.applicationType), FlagNumber(if f.enabled then 1.0 else 0.0))
  }

  /** The rows after `handleSave`: one insert per fee in list order, read back
      in that order; `newIds` are the ids the database assigns. */
  function SaveFees(fees: seq<Fee>, newIds: seq<int>): (rows: seq<StoredFee>)
    requires |newIds| == |fees|
    ensures |rows| == |fees|
    ensures forall k | 0 <= k < |fees| :: rows[k].id == newIds[k]
  {
    seq(|fees|, k requires 0 <= k < |fees| => StoreFee(fees[k], newIds[k]))
  }

  /** Loading keeps the order and the number of rows. */
  lemma LoadFeesShape(rows: seq<StoredFee>)
    ensures |LoadFees(rows)| == |rows|
    ensures forall k :: 0 <= k < |rows| ==> LoadFees(rows)[k].id == rows[k].id
  {
  }

  /** Saving the loaded fees and loading them again gives the same fees in
      the same order, except that each now carries the id the database
      assigned on saving. */
  lemma ReloadIsStable(rows: seq<StoredFee>, newIds: seq<int>)
    requires |newIds| == |rows|
    ensures var fees := LoadFees(rows);
      var reloaded := LoadFees(SaveFees(fees, newIds));
      |reloaded| == |fees| && forall k | 0 <= k < |fees| :: reloaded[k] == fees[k].(id := newIds[k])
  {
    var fees := LoadFees(rows);
    var stored := SaveFees(fees, newIds);
    forall k | 0 <= k < |rows|
      ensures LoadFees(stored)[k] == fees[k].(id := newIds[k])
    {
      NormalizeStored(fees[k], newIds[k]);
    }
  }

  /** A fee that went through normalisation comes back from the database
      unchanged but for its id. */
  lemma NormalizeStored(f: Fee, newId: int)
    requires f.calculationType != "" && f.applicationType != ""
    ensures NormalizeFee(StoreFee(f, newId)) == f.(id := newId)
  {
  }

  /** The new fee `addFee` appends; `now` stands for `Date.now()`. */
  function NewFee(now: int): Fee
  {
    Fee(now, "", "fixed", 0.0, "per_model", true)
  }

  function AddFee(fees: seq<Fee>, now: int): (r: seq<Fee>)
    ensures |r| == |fees| + 1 && r[..|fees|] == fees
    ensures r[|fees|].enabled && r[|fees|].amount == 0.0
    ensures r[|fees|].calculationType == "fixed" && r[|fees|].applicationType == "per_model"
  {
    fees + [NewFee(now)]
  }

  /** One field assignment `{ ...fee, [field]: value }`. */
  datatype FeeEdit =
    | SetId(id: int)
    | SetName(name: string)
    | SetCalculationType(calculationType: string)
    | SetAmount(amount: real)
    | SetApplicationType(applicationType: string)
    | SetEnabled(enabled: bool)

  /** The fee with one field replaced; every other field is kept. */
  function ApplyFeeEdit(fee: Fee, e: FeeEdit): (r: Fee)
    ensures r.id == if e.SetId? then e.id else fee.id
    ensures r.name == if e.SetName? then e.name else fee.name
    ensures r.calculationType == if e.SetCalculationType? then e.calculationType else fee.calculationType
    ensures r.amount == if e.SetAmount? then e.amount else fee.amount
    ensures r.applicationType == if e.SetApplicationType? then e.applicationType else fee.applicationType
    ensures r.enabled == if e.SetEnabled? then e.enabled else fee.enabled
  {
    match e
    case SetId(v) => fee.(id := v)
    case SetName(v) => fee.(name := v)
    case SetCalculationType(v) => fee.(calculationType := v)
    case SetAmount(v) => fee.(amount := v)
    case SetApplicationType(v) => fee.(applicationType := v)
    case SetEnabled(v) => fee.(enabled := v)
  }

  function UpdateFee(fees: seq<Fee>, index: int, e: FeeEdit): seq<Fee>
  {
    UpdateAt(fees, index, (f: Fee) => ApplyFeeEdit(f, e))
  }

  /** `updateFee` changes one field of fee `index` and nothing else. */
  lemma UpdateFeeOnlyTouchesIndex(fees: seq<Fee>, index: int, e: FeeEdit)
    ensures |UpdateFee(fees, index, e)| == |fees|
    ensures 0 <= index < |fees| ==>
      UpdateFee(fees, index, e) == fees[..index] + [ApplyFeeEdit(fees[index], e)] + fees[index + 1..]
    ensures !(0 <= index < |fees|) ==> UpdateFee(fees, index, e) == fees
  {
    UpdateAtSplit(fees, index, (f: Fee) => ApplyFeeEdit(f, e));
  }

  function DeleteFee(fees: seq<Fee>, index: int): seq<Fee>
  {
    WithoutIndex(fees, index)
  }

  /** `deleteFee` removes exactly fee `index` and keeps the others in order. */
  lemma DeleteFeeRemovesIndex(fees: seq<Fee>, index: int)
    ensures 0 <= index < |fees| ==> DeleteFee(fees, index) == fees[..index] + fees[index + 1..]
    ensures 0 <= index < |fees| ==> |DeleteFee(fees, index)| == |fees| - 1
    ensures !(0 <= index < |fees|) ==> DeleteFee(fees, index) == fees
  {
    WithoutIndexSplit(fees, index);
  }

  const CalculationLabels: map<string, string> := map[
    "fixed" := "Fixed Amount",
    "per_gram" := "Per Gram",
    "per_minute" := "Per Minute",
    "per_hour" := "Per Hour",
    "per_kwh" := "Per kWh"
  ]

  const CalculationUnits: map<string, string> := map[
    "fixed" := "Kč",
    "per_gram" := "Kč/g",
    "per_minute" := "Kč/min",
    "per_hour" := "Kč/h",
    "per_kwh" := "Kč/kWh"
  ]

  /** `labels[type] || type` */
  function CalculationTypeLabel(t: string): (r: string)
    ensures t in CalculationLabels ==> r == CalculationLabels[t]
    ensures t !in CalculationLabels ==> r == t
  {
    if t in CalculationLabels && CalculationLabels[t] != "" then CalculationLabels[t] else t
  }

  /** `units[type] || 'Kč'` */
  function CalculationTypeUnit(t: string): (r: string)
    ensures t in CalculationUnits ==> r == CalculationUnits[t]
    ensures t !in CalculationUnits ==> r == "Kč"
    ensures "Kč" <= r
  {
    if t in CalculationUnits && CalculationUnits[t] != "" then CalculationUnits[t] else "Kč"
  }
}
