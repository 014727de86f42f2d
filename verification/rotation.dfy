/** What repeated log rotations leave on disk. The rotated files of one
    log are modelled as a map from suffix to generation: generation `g`
    is the content the live log had at the `g`-th rotation (from 0). A
    rename onto an existing suffix replaces that file, as `os.Rename`
    does. */
module LogHistory {
  import opened Wrappers
  import opened GoInt
  import ConfigCmd
  import Scheduler

  type Disk = map<int, int>

  /** One rotation of generation `gen`: rename the live log to the new
      suffix, then remove the old pair if asked. */
  function Apply(disk: Disk, step: Scheduler.RotationStep, gen: int): (d: Disk)
    ensures step.removed.None? ==> d == disk[step.renamed := gen]
    ensures step.removed.Some? ==> d == disk[step.renamed := gen] - {step.removed.value}
  {
    var d := disk[step.renamed := gen];
    match step.removed
    case None => d
    case Some(k) => d - {k}
  }

  /** The configuration under which every call rotates. */
  function Rotating(max: int): ConfigCmd.Config {
    ConfigCmd.Config(true, 0, max)
  }

  /** `n` rotations as `handleMaxLog` performs them, from a fresh record
      (count 0) and no rotated files. Returns the disk and the count. */
  function RunAsWritten(n: nat, max: int): (r: (Disk, int))
    ensures IsInt32(r.1)
  {
    if n == 0 then (map[], 0)
    else
      var (d, c) := RunAsWritten(n - 1, max);
      var step := Scheduler.LogRotation(c, Rotating(max), 1, 0).value;
      (Apply(d, step, n - 1), step.count)
  }

  /** With three files allowed, five rotations leave only generations 2
      and 4: generation 3 was overwritten at suffix 3, because the count
      is pinned at the maximum and every later rotation reuses it. */
  lemma AsWrittenLosesHistory()
    ensures RunAsWritten(5, 3).0 == map[2 := 2, 3 := 4]
    ensures RunAsWritten(5, 3).0 != map[2 := 2, 3 := 3, 4 := 4]
  {
    var cfg := Rotating(3);
    assert RunAsWritten(1, 3) == (map[0 := 0], 1) by {
      assert Scheduler.LogRotation(0, cfg, 1, 0) == Some(Scheduler.RotationStep(0, None, 1));
    }
    assert RunAsWritten(2, 3) == (map[0 := 0, 1 := 1], 2) by {
      assert Scheduler.LogRotation(1, cfg, 1, 0) == Some(Scheduler.RotationStep(1, None, 2));
    }
    assert RunAsWritten(3, 3) == (map[1 := 1, 2 := 2], 3) by {
      assert Scheduler.LogRotation(2, cfg, 1, 0) == Some(Scheduler.RotationStep(2, Some(0), 3));
      assert map[0 := 0, 1 := 1, 2 := 2] - {0} == map[1 := 1, 2 := 2];
    }
    assert RunAsWritten(4, 3) == (map[2 := 2, 3 := 3], 3) by {
      assert Scheduler.LogRotation(3, cfg, 1, 0) == Some(Scheduler.RotationStep(3, Some(1), 3));
      assert map[1 := 1, 2 := 2, 3 := 3] - {1} == map[2 := 2, 3 := 3];
    }
    assert RunAsWritten(5, 3) == (map[2 := 2, 3 := 4], 3) by {
      assert Scheduler.LogRotation(3, cfg, 1, 0) == Some(Scheduler.RotationStep(3, Some(1), 3));
      assert map[2 := 2, 3 := 3][3 := 4] - {1} == map[2 := 2, 3 := 4];
    }
    assert 4 !in RunAsWritten(5, 3).0;
  }

  /** The rotation the code evidently intends: the count keeps growing,
      and once more than `max` rotated pairs exist the oldest one goes. */
  function IntendedRotation(count: int, max: int): (step: Scheduler.RotationStep)
    requires 0 <= max
    ensures step.renamed == count && step.count == count + 1
    ensures step.removed.Some? <==> count + 1 > max
    ensures step.removed.Some? ==> step.removed.value == count - max
  {
    Scheduler.RotationStep(count, if count + 1 > max then Some(count - max) else None, count + 1)
  }

  function RunIntended(n: nat, max: int): (r: (Disk, int))
    requires 0 <= max
  {
    if n == 0 then (map[], 0)
    else
      var (d, c) := RunIntended(n - 1, max);
      var step := IntendedRotation(c, max);
      (Apply(d, step, n - 1), step.count)
  }

  /** Suffix `g` holding generation `g`, for `lo <= g < hi`. */
  function Generations(lo: int, hi: int): (d: Disk)
    ensures forall g :: g in d <==> lo <= g < hi
    ensures forall g | g in d :: d[g] == g
    decreases hi - lo
  {
    if hi <= lo then map[] else Generations(lo, hi - 1)[hi - 1 := hi - 1]
  }

  /** Dropping the oldest generation of a window. */
  lemma DropOldest(lo: int, hi: int)
    requires lo < hi
    ensures Generations(lo, hi) - {lo} == Generations(lo + 1, hi)
  {
  }

  /** After `n` intended rotations exactly the last `max` generations are
      on disk, each under its own number. */
  lemma {:induction false} IntendedKeepsLastMax(n: nat, max: int)
    requires 0 <= max
    ensures RunIntended(n, max) == (Generations(if n > max then n - max else 0, n), n)
  {
    if n > 0 {
      IntendedKeepsLastMax(n - 1, max);
      var lo := if n - 1 > max then n - 1 - max else 0;
      assert Generations(lo, n - 1)[n - 1 := n - 1] == Generations(lo, n);
      if n > max {
        assert lo == n - 1 - max;
        DropOldest(lo, n);
      }
    }
  }

  /** For comparison on the same input: the intended rotation keeps all
      three of the last generations. */
  lemma IntendedKeepsThreeOfFive()
    ensures RunIntended(5, 3).0 == map[2 := 2, 3 := 3, 4 := 4]
  {
    IntendedKeepsLastMax(5, 3);
    assert Generations(2, 2) == map[];
    assert Generations(2, 5) == map[2 := 2, 3 := 3, 4 := 4];
  }
}
