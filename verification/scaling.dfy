/** The static GPU-count throughput table consulted by the "Optimus" policy. */
module Scaling {

  /** Multipliers for 1 to 9 GPUs, in order of GPU count. */
  const Multipliers: seq<real> := [5.0, 3.0, 1.4, 1.2, 1.1, 1.0, 1.0, 1.0, 1.0]

  /** The key under which a job table stores a GPU count: the count written as
      a float, "1.0" to "9.0". */
  function GpuKey(n: nat): string
    requires 1 <= n <= 9
  {
    [('0' as int + n) as char] + ".0"
  }

  /** The speed-up table, keyed by the text form of the GPU count. */
  const ScaleTable: map<string, real> := map[
    "1.0" := Multipliers[0],
    "2.0" := Multipliers[1],
    "3.0" := Multipliers[2],
    "4.0" := Multipliers[3],
    "5.0" := Multipliers[4],
    "6.0" := Multipliers[5],
    "7.0" := Multipliers[6],
    "8.0" := Multipliers[7],
    "9.0" := Multipliers[8]
  ]

  /** Looks up the multiplier of a GPU-count key; a key outside the table is a
      KeyError in the source, hence the precondition. */
  function Scale(key: string): (f: real)
    requires key in ScaleTable
    ensures 0.0 < f <= 5.0
  {
    ScaleTable[key]
  }

  /** The table has exactly the keys "1.0" .. "9.0", and key n holds the n-th multiplier. */
  lemma ScaleTableShape()
    ensures ScaleTable.Keys == set n | 1 <= n <= 9 :: GpuKey(n)
    ensures forall n :: 1 <= n <= 9 ==> GpuKey(n) in ScaleTable && ScaleTable[GpuKey(n)] == Multipliers[n - 1]
  {
    assert GpuKey(1) == "1.0" && GpuKey(2) == "2.0" && GpuKey(3) == "3.0";
    assert GpuKey(4) == "4.0" && GpuKey(5) == "5.0" && GpuKey(6) == "6.0";
    assert GpuKey(7) == "7.0" && GpuKey(8) == "8.0" && GpuKey(9) == "9.0";
    forall n | 1 <= n <= 9
      ensures GpuKey(n) in ScaleTable && ScaleTable[GpuKey(n)] == Multipliers[n - 1]
    {
      assert n in {1, 2, 3, 4, 5, 6, 7, 8, 9};
    }
    var keys := set n | 1 <= n <= 9 :: GpuKey(n);
    forall k | k in ScaleTable.Keys
      ensures k in keys
    {
      if k == "1.0" { assert GpuKey(1) in keys; }
      else if k == "2.0" { assert GpuKey(2) in keys; }
      else if k == "3.0" { assert GpuKey(3) in keys; }
      else if k == "4.0" { assert GpuKey(4) in keys; }
      else if k == "5.0" { assert GpuKey(5) in keys; }
      else if k == "6.0" { assert GpuKey(6) in keys; }
      else if k == "7.0" { assert GpuKey(7) in keys; }
      else if k == "8.0" { assert GpuKey(8) in keys; }
      else { assert GpuKey(9) in keys; }
    }
  }

  /** Diminishing returns: more GPUs never get a larger multiplier. */
  lemma ScaleNonIncreasing(a: nat, b: nat)
    requires 1 <= a <= b <= 9
    ensures GpuKey(a) in ScaleTable && GpuKey(b) in ScaleTable
    ensures Scale(GpuKey(a)) >= Scale(GpuKey(b))
  {
    ScaleTableShape();
  }
}
