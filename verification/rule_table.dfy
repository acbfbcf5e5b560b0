/**
 The nomogram written as data: each protocol is a list of rows, each row a
 PTT guard and the doses it prescribes, read top to bottom with a fallback
 when no row applies. This is the reading of an `if`/`elif`/`else` chain as
 a table, and it is proved to agree with the rule chains of `Nomogram`.
 */
module RuleTable {
  import opened Nomogram

  /** A row's guard on the PTT: `ptt < bound`, or `lo <= ptt <= hi`. */
  datatype Guard = Below(bound: real) | Within(lo: real, hi: real) {
    predicate Admits(ptt: real)
    {
      match this
      case Below(bound) => ptt < bound
      case Within(lo, hi) => lo <= ptt <= hi
    }
  }

  /** Doses per unit of the protocol's scale: per kg for the weight-scaled
      table, per patient for the fixed-dose one. */
  datatype Action = Action(bolus: real, rateChange: real, message: Message, colour: Colour) {
    function Scaled(scale: real): (a: Advice)
    {
      Advice(bolus * scale, rateChange * scale, message, colour)
    }
  }

  datatype Row = Row(guard: Guard, action: Action)

  /** The rows, in order, and what applies when none of them does. */
  datatype Table = Table(rows: seq<Row>, otherwise: Action)

  /** No row before index `k` admits `ptt`. */
  predicate NoneBefore(rows: seq<Row>, k: int, ptt: real)
    requires 0 <= k <= |rows|
  {
    forall j :: 0 <= j < k ==> !rows[j].guard.Admits(ptt)
  }

  /** The action of the first row that admits `ptt`, or `otherwise`. */
  function Lookup(rows: seq<Row>, otherwise: Action, ptt: real): (a: Action)
    ensures forall i :: 0 <= i < |rows| && rows[i].guard.Admits(ptt) && NoneBefore(rows, i, ptt) ==> a == rows[i].action
    ensures NoneBefore(rows, |rows|, ptt) ==> a == otherwise
    decreases |rows|
  {
    if rows == [] then otherwise
    else if rows[0].guard.Admits(ptt) then rows[0].action
    else
      var a := Lookup(rows[1..], otherwise, ptt);
      assert forall i :: 1 <= i <= |rows| ==> (NoneBefore(rows, i, ptt) <==> NoneBefore(rows[1..], i - 1, ptt));
      a
  }

  /** The high-intensity nomogram, per kg of body weight. */
  const HighIntensityTable := Table(
    [ Row(Below(35.0), Action(80.0, 4.0, VeryLow, Red)),
      Row(Within(35.0, 49.0), Action(40.0, 2.0, SomewhatLow, Orange)),
      Row(Within(50.0, 70.0), Action(0.0, 0.0, OnTarget, Green)),
      Row(Within(71.0, 90.0), Action(0.0, -2.0, RisingHigh, Orange)) ],
    Action(0.0, -3.0, HoldInfusion, Red))

  /** The standard/low-intensity nomogram, in fixed doses. */
  const StandardLowTable := Table(
    [ Row(Below(35.0), Action(5000.0, 200.0, VeryLow, Red)),
      Row(Within(35.0, 70.0), Action(0.0, 0.0, KeepRate, Green)) ],
    Action(0.0, -200.0, Reduce, Orange))

  function TableFor(protocol: Protocol): (t: Table)
  {
    match protocol
    case HighIntensity => HighIntensityTable
    case StandardLowIntensity => StandardLowTable
  }

  /** What a table's doses are multiplied by: the weight, or 1 for fixed doses. */
  function ScaleFor(protocol: Protocol, weight: real): (scale: real)
  {
    match protocol
    case HighIntensity => weight
    case StandardLowIntensity => 1.0
  }

  /** The table's doses, looked up and scaled. */
  function TableAdvice(protocol: Protocol, weight: real, ptt: real): (a: Advice)
  {
    var t := TableFor(protocol);
    Lookup(t.rows, t.otherwise, ptt).Scaled(ScaleFor(protocol, weight))
  }

  /** The rule chains and the tables prescribe the same advice, for every input. */
  lemma AdviseFollowsTable(protocol: Protocol, weight: real, ptt: real)
    ensures Advise(protocol, weight, ptt) == TableAdvice(protocol, weight, ptt)
  {
    var t := TableFor(protocol);
    var a := Lookup(t.rows, t.otherwise, ptt);
    if protocol.HighIntensity? {
      if ptt < 35.0 {
        assert a == t.rows[0].action;
      } else if ptt <= 49.0 {
        assert a == t.rows[1].action;
      } else if 50.0 <= ptt <= 70.0 {
        assert a == t.rows[2].action;
      } else if 71.0 <= ptt <= 90.0 {
        assert a == t.rows[3].action;
      } else {
        assert NoneBefore(t.rows, 4, ptt);
      }
    } else {
      if ptt < 35.0 {
        assert a == t.rows[0].action;
      } else if ptt <= 70.0 {
        assert a == t.rows[1].action;
      } else {
        assert NoneBefore(t.rows, 2, ptt);
      }
    }
  }

  /** No PTT is admitted by two rows of the same table, so the order of the
      rows, like the order of the chain's branches, does not matter. */
  lemma RowsAreDisjoint(protocol: Protocol, ptt: real)
    ensures forall i, j :: 0 <= i < j < |TableFor(protocol).rows| ==>
      !(TableFor(protocol).rows[i].guard.Admits(ptt) && TableFor(protocol).rows[j].guard.Admits(ptt))
  {
  }

  /** The PTTs no high-intensity row admits, and that therefore get the
      hold-infusion fallback: above 90, and the two open gaps (49, 50) and
      (70, 71) that the whole-number bounds leave. */
  lemma HighIntensityUncovered(ptt: real)
    ensures NoneBefore(HighIntensityTable.rows, 4, ptt) <==> HighIntensityHolds(ptt)
  {
    var rows := HighIntensityTable.rows;
    if !HighIntensityHolds(ptt) {
      if ptt < 35.0 {
        assert rows[0].guard.Admits(ptt);
      } else if ptt <= 49.0 {
        assert rows[1].guard.Admits(ptt);
      } else if ptt <= 70.0 {
        assert rows[2].guard.Admits(ptt);
      } else {
        assert rows[3].guard.Admits(ptt);
      }
    }
  }

  /** The only PTTs no standard/low-intensity row admits are those above 70. */
  lemma StandardLowUncovered(ptt: real)
    ensures NoneBefore(StandardLowTable.rows, 2, ptt) <==> ptt > 70.0
  {
    var rows := StandardLowTable.rows;
    if ptt < 35.0 {
      assert rows[0].guard.Admits(ptt);
    } else if ptt <= 70.0 {
      assert rows[1].guard.Admits(ptt);
    }
  }
}
