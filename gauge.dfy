/** A gauge (gauge.go): a single cell holding an `int64` that can be set at will. */
module Gauges {
  import opened GoInts

  class Gauge {
    var value: int64

    /** `NewGauge`: a fresh gauge holding 0. */
    constructor ()
      ensures value == 0
    {
      value := 0;
    }

    /** `Update` stores `v`, whatever the gauge held before. */
    method Update(v: int64)
      modifies this
      ensures value == v
    {
      value := v;
    }

    /** `Value` returns the stored value and changes nothing. */
    method Value() returns (v: int64)
      ensures v == value
    {
      v := value;
    }
  }

  /** Two updates in a row: the last one wins, and reading does not disturb it. */
  method LastUpdateWins(g: Gauge, first: int64, second: int64) returns (v: int64)
    modifies g
    ensures v == second && g.value == second
  {
    g.Update(first);
    g.Update(second);
    v := g.Value();
    var again := g.Value();
    assert again == v;
  }
}
