/** The snowfall of the older app (src/components/Effects/SnowSystem.jsx):
    a buffer of at most 1200 flakes, grown by one every 30 ms while snow is
    on, cut to its newest 1200 every 5 s, and emptied when snow goes off. */
module SnowSystem {
  import opened Common

  const MaxFlakes: nat := 1200
  const SpawnIntervalMs: nat := 30
  const CleanupIntervalMs: nat := 5000

  /** One flake: its id (`Date.now() + Math.random()`) and start position. */
  datatype Flake = Flake(id: real, position: Vec3)

  /** The three uniform draws in [0, 1) used for one flake's position. */
  datatype Draw = Draw(rx: real, ry: real, rz: real)

  predicate UnitDraw(d: Draw) {
    0.0 <= d.rx < 1.0 && 0.0 <= d.ry < 1.0 && 0.0 <= d.rz < 1.0
  }

  /** A new flake starts in a 100 by 100 square, 50 to 70 units up. */
  function NewFlake(id: real, d: Draw): (f: Flake)
    ensures UnitDraw(d) ==> -50.0 <= f.position.x < 50.0 && -50.0 <= f.position.z < 50.0
    ensures UnitDraw(d) ==> 50.0 <= f.position.y < 70.0
    ensures f.id == id
  {
    Flake(id, Vec3((d.rx - 0.5) * 100.0, 50.0 + d.ry * 20.0, (d.rz - 0.5) * 100.0))
  }

  /** The spawn tick: a full buffer is returned as it is, otherwise the new
      flake goes at the end. */
  function Spawned(fs: seq<Flake>, f: Flake): (r: seq<Flake>)
    ensures |fs| >= MaxFlakes ==> r == fs
    ensures |fs| < MaxFlakes ==> |r| == |fs| + 1 && r[..|fs|] == fs && r[|fs|] == f
    ensures |fs| <= MaxFlakes ==> |r| <= MaxFlakes
    ensures |fs| <= |r| <= |fs| + 1 && r[..|fs|] == fs
  {
    if |fs| >= MaxFlakes then fs else fs + [f]
  }

  /** The cleanup tick, `slice(-1200)`: the newest 1200 flakes, or all of
      them when there are fewer. */
  function Cleaned(fs: seq<Flake>): (r: seq<Flake>)
    ensures |fs| <= MaxFlakes ==> |r| == |fs|
    ensures |fs| > MaxFlakes ==> |r| == MaxFlakes
    ensures r == fs[|fs| - |r|..]
  {
    if |fs| > MaxFlakes then fs[|fs| - MaxFlakes..] else fs
  }

  /** Cleanup changes nothing within the cap, and twice is once. */
  lemma CleanupLaws(fs: seq<Flake>)
    ensures |fs| <= MaxFlakes ==> Cleaned(fs) == fs
    ensures Cleaned(Cleaned(fs)) == Cleaned(fs)
    ensures |Cleaned(fs)| <= MaxFlakes
  {
  }

  /** One tick of either interval. */
  datatype Tick = SpawnTick(id: real, draw: Draw) | CleanupTick

  function Ticked(fs: seq<Flake>, t: Tick): seq<Flake> {
    match t
    case SpawnTick(id, d) => Spawned(fs, NewFlake(id, d))
    case CleanupTick => Cleaned(fs)
  }

  /** The buffer after a run of ticks. */
  function Run(fs: seq<Flake>, ts: seq<Tick>): seq<Flake>
    decreases |ts|
  {
    if |ts| == 0 then fs else Run(Ticked(fs, ts[0]), ts[1..])
  }

  /** However spawn and cleanup ticks interleave, the buffer never holds more
      than 1200 flakes, and the flakes already there stay at its front in
      their order. */
  lemma {:induction false} RunBounded(fs: seq<Flake>, ts: seq<Tick>)
    requires |fs| <= MaxFlakes
    ensures |Run(fs, ts)| <= MaxFlakes
    ensures |fs| <= |Run(fs, ts)| && Run(fs, ts)[..|fs|] == fs
    decreases |ts|
  {
    if |ts| > 0 {
      var next := Ticked(fs, ts[0]);
      CleanupLaws(fs);
      RunBounded(next, ts[1..]);
      assert Run(fs, ts)[..|next|] == next;
      assert next[..|fs|] == fs;
    }
  }

  /** The mounted component: the buffer and whether the two intervals run. */
  class Snow {
    var flakes: seq<Flake>
    var running: bool

    predicate Valid()
      reads this
    {
      |flakes| <= MaxFlakes && (!running ==> flakes == [])
    }

    constructor ()
      ensures flakes == [] && !running && Valid()
    {
      flakes := [];
      running := false;
    }

    /** The effect on `isActive`: off empties the buffer and stops the
        intervals; on starts them and keeps the buffer. */
    method SetActive(isActive: bool)
      modifies this
      ensures running == isActive
      ensures flakes == if isActive then old(flakes) else []
      ensures old(Valid()) ==> Valid()
    {
      if !isActive {
        flakes := [];
        running := false;
        return;
      }
      running := true;
    }

    /** The 30 ms interval. */
    method SpawnTick(id: real, d: Draw)
      modifies this
      ensures running == old(running)
      ensures flakes == if running then Spawned(old(flakes), NewFlake(id, d)) else old(flakes)
      ensures old(Valid()) ==> Valid()
    {
      if running {
        if |flakes| >= MaxFlakes {
          return;
        }
        flakes := flakes + [NewFlake(id, d)];
      }
    }

    /** The 5 s interval. */
    method CleanupTick()
      modifies this
      ensures running == old(running)
      ensures flakes == if running then Cleaned(old(flakes)) else old(flakes)
      ensures old(Valid()) ==> Valid()
    {
      if running {
        var n := |flakes|;
        if n > MaxFlakes {
          flakes := flakes[n - MaxFlakes..];
        }
      }
    }

    /** What is drawn: nothing while off, every flake while on. */
    function Rendered(): (r: seq<Flake>)
      reads this
      ensures !running ==> r == []
      ensures running ==> r == flakes
      ensures Valid() ==> |r| <= MaxFlakes
    {
      if running then flakes else []
    }
  }
}
