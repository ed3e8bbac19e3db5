/**
 * models/request.py: the per-target statistics record `RequestMetrics`, its
 * snapshot (`get_values_formated`), its string view (`convert_to_view`) and
 * `reset_values`.
 *
 * The record is used two ways by the program: one live object per `Request`,
 * updated in place, and freshly built snapshots that are handed to the display.
 * `Metrics` is the value of a record (and is what snapshots are); the class
 * `RequestMetrics` is the live object whose fields are assigned in place.
 */
module RequestModels {
  import opened Wrappers

  /** Python's `round(x, places)` on floats, left uninterpreted. */
  type Rounder = (real, int) -> real

  /** The all-string record the display renders (`ViewRequestMetrics`). */
  datatype ViewRequestMetrics = ViewRequestMetrics(
    callersNumber: string,
    totalNumber: string,
    sucessNumber: string,
    errorNumber: string,
    lossPercentage: string,
    averageTimeMs: string,
    minTimeMs: string,
    maxTimeMs: string,
    lastTimeMs: string)

  /** The value of a `RequestMetrics` record; field names follow the source. */
  datatype Metrics = Metrics(
    callersNumber: int,
    totalNumber: nat,
    sucessNumber: nat,
    errorNumber: nat,
    lossPercentage: real,
    averageTimeMs: Option<real>,
    minTimeMs: Option<real>,
    maxTimeMs: Option<real>,
    lastTimeMs: Option<real>)
  {
    /** Every counter is zero and the loss is zero. */
    predicate CountersZero() {
      totalNumber == 0 && sucessNumber == 0 && errorNumber == 0 && lossPercentage == 0.0
    }

    /** No timing field is defined. */
    predicate TimingUndefined() {
      averageTimeMs.None? && minTimeMs.None? && maxTimeMs.None? && lastTimeMs.None?
    }

    /** What `reset_values` leaves behind: every timing field holds the number 0. */
    predicate TimingZero() {
      averageTimeMs == Some(0.0) && minTimeMs == Some(0.0)
      && maxTimeMs == Some(0.0) && lastTimeMs == Some(0.0)
    }

    /**
     * The value `reset_values` assigns: counters and loss to 0 and, as the code
     * is written, the timing fields to 0 rather than back to `None`.
     */
    function Reset(): (r: Metrics)
      ensures r.callersNumber == callersNumber
      ensures r.CountersZero() && r.TimingZero()
    {
      Metrics(callersNumber, 0, 0, 0, 0.0, Some(0.0), Some(0.0), Some(0.0), Some(0.0))
    }

    /**
     * `get_values_formated`: a new record with the counters copied verbatim,
     * the loss rounded, and each timing field rounded when present and `None`
     * when absent. Being a function, it cannot change the record it reads.
     */
    function GetValuesFormated(round: Rounder, decimalPlaces: int := 2): (r: Metrics)
      ensures r.callersNumber == callersNumber && r.totalNumber == totalNumber
      ensures r.sucessNumber == sucessNumber && r.errorNumber == errorNumber
      ensures r.lossPercentage == round(lossPercentage, decimalPlaces)
      ensures RoundedFrom(r.averageTimeMs, averageTimeMs, round, decimalPlaces)
      ensures RoundedFrom(r.minTimeMs, minTimeMs, round, decimalPlaces)
      ensures RoundedFrom(r.maxTimeMs, maxTimeMs, round, decimalPlaces)
      ensures RoundedFrom(r.lastTimeMs, lastTimeMs, round, decimalPlaces)
    {
      Metrics(
        callersNumber, totalNumber, sucessNumber, errorNumber,
        round(lossPercentage, decimalPlaces),
        RoundOptional(averageTimeMs, round, decimalPlaces),
        RoundOptional(minTimeMs, round, decimalPlaces),
        RoundOptional(maxTimeMs, round, decimalPlaces),
        RoundOptional(lastTimeMs, round, decimalPlaces))
    }

    /**
     * `convert_to_view`: counters and loss through `str`, each timing field
     * through `str` when present and as `numberOfCharsForNull` dashes when not.
     */
    function ConvertToView(intStr: int -> string, realStr: real -> string,
                           numberOfCharsForNull: int := 3): (v: ViewRequestMetrics)
      ensures v.callersNumber == intStr(callersNumber) && v.totalNumber == intStr(totalNumber)
      ensures v.sucessNumber == intStr(sucessNumber) && v.errorNumber == intStr(errorNumber)
      ensures v.lossPercentage == realStr(lossPercentage)
      ensures ShownAs(v.averageTimeMs, averageTimeMs, realStr, numberOfCharsForNull)
      ensures ShownAs(v.minTimeMs, minTimeMs, realStr, numberOfCharsForNull)
      ensures ShownAs(v.maxTimeMs, maxTimeMs, realStr, numberOfCharsForNull)
      ensures ShownAs(v.lastTimeMs, lastTimeMs, realStr, numberOfCharsForNull)
    {
      var nullValue := Dashes(numberOfCharsForNull);
      ViewRequestMetrics(
        intStr(callersNumber), intStr(totalNumber), intStr(sucessNumber), intStr(errorNumber),
        realStr(lossPercentage),
        ShowOr(averageTimeMs, realStr, nullValue),
        ShowOr(minTimeMs, realStr, nullValue),
        ShowOr(maxTimeMs, realStr, nullValue),
        ShowOr(lastTimeMs, realStr, nullValue))
    }
  }

  /** A freshly constructed `RequestMetrics(callers_number=...)`: the dataclass defaults. */
  function Defaults(callersNumber: int): (m: Metrics)
    ensures m.callersNumber == callersNumber
    ensures m.CountersZero() && m.TimingUndefined()
  {
    Metrics(callersNumber, 0, 0, 0, 0.0, None, None, None, None)
  }

  /** `r` is `o` rounded: absent exactly when `o` is, and `round` of it otherwise. */
  predicate RoundedFrom(r: Option<real>, o: Option<real>, round: Rounder, places: int) {
    (r.None? <==> o.None?) && (o.Some? ==> r.value == round(o.value, places))
  }

  /** `s` is how a timing field `o` is displayed: `str` of it, or the null placeholder. */
  predicate ShownAs(s: string, o: Option<real>, realStr: real -> string, nullChars: int) {
    match o
    case Some(x) => s == realStr(x)
    case None => s == Dashes(nullChars)
  }

  function RoundOptional(o: Option<real>, round: Rounder, places: int): Option<real> {
    match o
    case Some(x) => Some(round(x, places))
    case None => None
  }

  function ShowOr(o: Option<real>, realStr: real -> string, nullValue: string): string {
    match o
    case Some(x) => realStr(x)
    case None => nullValue
  }

  /** Python's `"-" * n`: `n` dashes, and the empty string for `n <= 0`. */
  function Dashes(n: int): (s: string)
    ensures |s| == if n > 0 then n else 0
    ensures forall i :: 0 <= i < |s| ==> s[i] == '-'
    decreases n
  {
    if n <= 0 then "" else "-" + Dashes(n - 1)
  }

  /** The default placeholder for a missing timing field is three dashes. */
  lemma DefaultPlaceholder(m: Metrics, intStr: int -> string, realStr: real -> string)
    requires m.averageTimeMs.None?
    ensures m.ConvertToView(intStr, realStr).averageTimeMs == "---"
  {
    var s := m.ConvertToView(intStr, realStr).averageTimeMs;
    assert |s| == 3 && s[0] == '-' && s[1] == '-' && s[2] == '-';
  }

  /** Resetting twice leaves the same record as resetting once. */
  lemma ResetIdempotent(m: Metrics)
    ensures m.Reset().Reset() == m.Reset()
  {
  }

  /**
   * A snapshot keeps the shape of what it copies: the counters still add up
   * and exactly the same timing fields are defined.
   */
  lemma SnapshotKeepsShape(m: Metrics, round: Rounder, places: int)
    requires m.totalNumber == m.sucessNumber + m.errorNumber
    ensures var s := m.GetValuesFormated(round, places);
      && s.totalNumber == s.sucessNumber + s.errorNumber
      && (s.TimingUndefined() <==> m.TimingUndefined())
  {
  }

  /** The live record object; `Value()` is what its fields currently hold. */
  class RequestMetrics {
    const callersNumber: int
    var totalNumber: nat
    var sucessNumber: nat
    var errorNumber: nat
    var lossPercentage: real
    var averageTimeMs: Option<real>
    var minTimeMs: Option<real>
    var maxTimeMs: Option<real>
    var lastTimeMs: Option<real>

    function Value(): Metrics
      reads this
    {
      Metrics(callersNumber, totalNumber, sucessNumber, errorNumber, lossPercentage,
              averageTimeMs, minTimeMs, maxTimeMs, lastTimeMs)
    }

    /** `RequestMetrics(callers_number=...)` with every other field at its default. */
    constructor (callersNumber: int)
      ensures Value() == Defaults(callersNumber)
    {
      this.callersNumber := callersNumber;
      totalNumber, sucessNumber, errorNumber := 0, 0, 0;
      lossPercentage := 0.0;
      averageTimeMs, minTimeMs, maxTimeMs, lastTimeMs := None, None, None, None;
    }

    /** `reset_values`: assigns every field but `callers_number`. */
    method ResetValues()
      modifies this
      ensures Value() == old(Value()).Reset()
    {
      totalNumber := 0;
      sucessNumber := 0;
      errorNumber := 0;
      lossPercentage := 0.0;
      averageTimeMs := Some(0.0);
      minTimeMs := Some(0.0);
      maxTimeMs := Some(0.0);
      lastTimeMs := Some(0.0);
    }
  }
}
