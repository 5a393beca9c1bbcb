/**
  The effect slot allocators of src/client/effects.c: the fixed table of
  dynamic lights, the particle pool threaded into a free list and an active
  list, the particle count of the fly swarm and the trail density counter.
  What each particle or light looks like (positions, colours, fading) is
  float rendering state and is not part of the model.
 */
module Effects {

  const MAX_DLIGHTS := 32
  const MAX_PARTICLES := 4096
  const NUMVERTEXNORMALS := 162

  /** The end of a particle list: a NULL `next` link. */
  const NIL := -1

  /** A slot index, or none: NULL in the C code. */
  datatype Option<T> = None | Some(value: T)

  // -----------------------------------------------------------------------
  // Dynamic lights

  /** A dynamic light (cdlight_t): the key of the entity that owns it, the
      time it dies and the float appearance, abstracted to one value that
      memset clears to zero. */
  datatype Dlight = Dlight(key: int, die: real, look: real)

  /** The slot after `memset(dl, 0, sizeof(*dl)); dl->key = key;`. */
  function Cleared(key: int): Dlight {
    Dlight(key, 0.0, 0.0)
  }

  /** The first slot holding `key`, searching from slot `from`. */
  function FindKey(lights: seq<Dlight>, key: int, from: nat): (r: Option<nat>)
    requires from <= |lights|
    ensures r.Some? ==> from <= r.value < |lights| && lights[r.value].key == key &&
                        forall j :: from <= j < r.value ==> lights[j].key != key
    ensures r.None? ==> forall j :: from <= j < |lights| ==> lights[j].key != key
    decreases |lights| - from
  {
    if from == |lights| then None
    else if lights[from].key == key then Some(from)
    else FindKey(lights, key, from + 1)
  }

  /** The first slot whose light died before `time`, searching from `from`. */
  function FindExpired(lights: seq<Dlight>, time: int, from: nat): (r: Option<nat>)
    requires from <= |lights|
    ensures r.Some? ==> from <= r.value < |lights| && lights[r.value].die < time as real &&
                        forall j :: from <= j < r.value ==> lights[j].die >= time as real
    ensures r.None? ==> forall j :: from <= j < |lights| ==> lights[j].die >= time as real
    decreases |lights| - from
  {
    if from == |lights| then None
    else if lights[from].die < time as real then Some(from)
    else FindExpired(lights, time, from + 1)
  }

  /** The slot CL_AllocDlight hands out: the first one already holding a
      nonzero `key`, else the first expired one, else slot 0. */
  function ChooseDlight(lights: seq<Dlight>, key: int, time: int): (i: nat)
    requires |lights| == MAX_DLIGHTS
    ensures i < MAX_DLIGHTS
  {
    var k := if key != 0 then FindKey(lights, key, 0) else None;
    if k.Some? then k.value
    else
      var e := FindExpired(lights, time, 0);
      if e.Some? then e.value else 0
  }

  /** The choice, stated without the search functions: with a nonzero key
      a slot holding it wins, the first one; otherwise an expired slot
      wins, the first one; otherwise slot 0 is taken over. */
  lemma ChooseDlightSpec(lights: seq<Dlight>, key: int, time: int)
    requires |lights| == MAX_DLIGHTS
    ensures var i := ChooseDlight(lights, key, time);
            (key != 0 && (exists j :: 0 <= j < MAX_DLIGHTS && lights[j].key == key) ==>
               lights[i].key == key && forall j :: 0 <= j < i ==> lights[j].key != key) &&
            ((key == 0 || forall j :: 0 <= j < MAX_DLIGHTS ==> lights[j].key != key) ==>
               if exists j :: 0 <= j < MAX_DLIGHTS && lights[j].die < time as real
               then lights[i].die < time as real && forall j :: 0 <= j < i ==> lights[j].die >= time as real
               else i == 0)
  {
    var i := ChooseDlight(lights, key, time);
    if key != 0 && exists j :: 0 <= j < MAX_DLIGHTS && lights[j].key == key {
      assert FindKey(lights, key, 0).Some?;
    } else if exists j :: 0 <= j < MAX_DLIGHTS && lights[j].die < time as real {
      assert FindExpired(lights, time, 0).Some?;
    }
  }

  /** Asking twice for the same nonzero key, at any times, hands out the
      same slot: the first allocation leaves the key in that slot and no
      earlier slot gains it. */
  lemma AllocDlightStable(lights: seq<Dlight>, key: int, time: int, later: int)
    requires |lights| == MAX_DLIGHTS && key != 0
    ensures var i := ChooseDlight(lights, key, time);
            ChooseDlight(lights[i := Cleared(key)], key, later) == i
  {
    var i := ChooseDlight(lights, key, time);
    var after := lights[i := Cleared(key)];
    if FindKey(lights, key, 0).None? {
      assert forall j :: 0 <= j < i ==> after[j].key != key;
    }
    assert after[i].key == key;
    var k := FindKey(after, key, 0);
    assert k.Some? && k.value <= i;
  }

  /** The lights CL_AddDLights hands to the renderer: those still alive at
      `time`, in slot order. */
  function Live(lights: seq<Dlight>, time: int): (r: seq<Dlight>)
    ensures |r| <= |lights|
    ensures forall d :: d in r ==> d in lights && d.die >= time as real
    ensures forall d :: d in lights && d.die >= time as real ==> d in r
  {
    if lights == [] then []
    else
      var last := lights[|lights| - 1];
      Live(lights[..|lights| - 1], time) + if last.die < time as real then [] else [last]
  }

  /** The table of dynamic lights, cl_dlights. */
  class DlightTable {
    const lights: array<Dlight>

    ghost predicate Valid()
      reads this
    {
      lights.Length == MAX_DLIGHTS
    }

    /** The table after CL_ClearDlights. */
    constructor ()
      ensures Valid() && fresh(lights)
      ensures forall i :: 0 <= i < MAX_DLIGHTS ==> lights[i] == Cleared(0)
    {
      lights := new Dlight[MAX_DLIGHTS](_ => Cleared(0));
    }

    /** CL_ClearDlights: every slot zeroed. */
    method Clear()
      requires Valid()
      modifies lights
      ensures lights[..] == seq(MAX_DLIGHTS, _ => Cleared(0))
    {
      var i := 0;
      while i < MAX_DLIGHTS
        invariant 0 <= i <= MAX_DLIGHTS
        invariant forall j :: 0 <= j < i ==> lights[j] == Cleared(0)
      {
        lights[i] := Cleared(0);
        i := i + 1;
      }
    }

    /** CL_AllocDlight: the chosen slot, cleared but for the key; no other
        slot changes. */
    method AllocDlight(key: int, time: int) returns (i: nat)
      requires Valid()
      modifies lights
      ensures i == ChooseDlight(old(lights[..]), key, time)
      ensures lights[..] == old(lights[..])[i := Cleared(key)]
    {
      if key != 0 {
        var j := 0;
        while j < MAX_DLIGHTS
          invariant 0 <= j <= MAX_DLIGHTS
          invariant FindKey(lights[..], key, 0) == FindKey(lights[..], key, j)
        {
          if lights[j].key == key {
            lights[j] := Cleared(key);
            return j;
          }
          j := j + 1;
        }
      }
      var j := 0;
      while j < MAX_DLIGHTS
        invariant 0 <= j <= MAX_DLIGHTS
        invariant FindExpired(lights[..], time, 0) == FindExpired(lights[..], time, j)
      {
        if lights[j].die < time as real {
          lights[j] := Cleared(key);
          return j;
        }
        j := j + 1;
      }
      lights[0] := Cleared(key);
      i := 0;
    }

    /** CL_AddDLights: the lights passed to V_AddLight, in slot order. */
    method AddDLights(time: int) returns (added: seq<Dlight>)
      requires Valid()
      ensures added == Live(lights[..], time)
    {
      added := [];
      var i := 0;
      while i < MAX_DLIGHTS
        invariant 0 <= i <= MAX_DLIGHTS
        invariant added == Live(lights[..i], time)
      {
        assert lights[..i + 1][..i] == lights[..i];
        if lights[i].die >= time as real {
          added := added + [lights[i]];
        }
        i := i + 1;
      }
      assert lights[..MAX_DLIGHTS] == lights[..];
    }
  }

  // -----------------------------------------------------------------------
  // The particle pool

  /** No index occurs twice. */
  ghost predicate DistinctIndexes(s: seq<int>) {
    forall i, j :: 0 <= i < j < |s| ==> s[i] != s[j]
  }

  /** The list starting at `head` visits exactly the indexes of `list`,
      in order, through `next`. */
  ghost predicate Threads(next: seq<int>, head: int, list: seq<int>) {
    (if list == [] then head == NIL else head == list[0]) &&
    forall k :: 0 <= k < |list| ==>
      0 <= list[k] < |next| && next[list[k]] == (if k + 1 < |list| then list[k + 1] else NIL)
  }

  lemma ThreadsAt(next: seq<int>, head: int, list: seq<int>, k: int)
    requires Threads(next, head, list) && 0 <= k < |list|
    ensures 0 <= list[k] < |next| && next[list[k]] == (if k + 1 < |list| then list[k + 1] else NIL)
  {
  }

  /** The free and the active list together hold every particle of the
      pool exactly once. */
  ghost predicate Partition(free: seq<int>, active: seq<int>, n: nat) {
    |free| + |active| == n && DistinctIndexes(free) && DistinctIndexes(active) &&
    (forall k :: 0 <= k < |free| ==> 0 <= free[k] < n) &&
    (forall k :: 0 <= k < |active| ==> 0 <= active[k] < n) &&
    (forall x :: 0 <= x < n ==> (x in free) != (x in active))
  }

  /** The particle pool: `particles[].next` as indexes, NIL for NULL, the
      heads `free_particles` and `active_particles`, and each particle's
      `scale`. The lists they thread are kept as ghost sequences. */
  class ParticlePool {
    const next: array<int>
    const scale: array<real>
    var free: int
    var active: int
    ghost var freeList: seq<int>
    ghost var activeList: seq<int>

    ghost predicate Valid()
      reads this, next
    {
      next.Length == MAX_PARTICLES && scale.Length == MAX_PARTICLES &&
      Threads(next[..], free, freeList) && Threads(next[..], active, activeList) &&
      Partition(freeList, activeList, MAX_PARTICLES)
    }

    /** The pool after CL_ClearParticles. */
    constructor ()
      ensures Valid() && fresh(next) && fresh(scale)
      ensures freeList == seq(MAX_PARTICLES, i => i) && activeList == []
    {
      next := new int[MAX_PARTICLES];
      scale := new real[MAX_PARTICLES];
      new;
      Clear();
    }

    /** CL_ClearParticles: the free list threads every particle in index
        order and no particle is active. */
    method Clear()
      requires next.Length == MAX_PARTICLES && scale.Length == MAX_PARTICLES
      modifies this, next
      ensures Valid() && freeList == seq(MAX_PARTICLES, i => i) && activeList == []
      ensures forall i :: 0 <= i < MAX_PARTICLES ==> next[i] == if i + 1 < MAX_PARTICLES then i + 1 else NIL
    {
      free, active := 0, NIL;
      var i := 0;
      while i < MAX_PARTICLES - 1
        invariant 0 <= i <= MAX_PARTICLES - 1
        invariant free == 0 && active == NIL
        invariant forall j :: 0 <= j < i ==> next[j] == j + 1
      {
        next[i] := i + 1;
        i := i + 1;
      }
      next[i] := NIL;
      freeList, activeList := seq(MAX_PARTICLES, i => i), [];
      assert forall x :: 0 <= x < MAX_PARTICLES ==> x in freeList by {
        forall x | 0 <= x < MAX_PARTICLES
          ensures x in freeList
        {
          assert freeList[x] == x;
        }
      }
    }

    /** CL_AllocParticle: NULL when the free list is empty; otherwise its
        head moves to the head of the active list with scale 1. */
    method AllocParticle() returns (p: Option<nat>)
      requires Valid()
      modifies this, next, scale
      ensures Valid()
      ensures p.None? <==> old(freeList) == []
      ensures p.None? ==> freeList == old(freeList) && activeList == old(activeList)
      ensures p.Some? ==> p.value == old(freeList)[0] && freeList == old(freeList)[1..] &&
                          activeList == [p.value] + old(activeList) && scale[p.value] == 1.0
      ensures forall i :: 0 <= i < MAX_PARTICLES && (p.None? || i != p.value) ==> scale[i] == old(scale[i])
    {
      if free == NIL {
        return None;
      }
      var q := free;
      AllocKeepsPartition(freeList, activeList);
      AllocKeepsThreads(next[..], freeList, active, activeList);
      free := next[q];
      next[q] := active;
      active := q;
      scale[q] := 1.0;
      assert next[..] == old(next[..])[q := old(active)];
      freeList, activeList := freeList[1..], [q] + activeList;
      p := Some(q);
    }
  }

  /** Moving the head of the free list to the head of the active list
      keeps the pool partitioned. */
  lemma AllocKeepsPartition(free: seq<int>, active: seq<int>)
    requires free != [] && Partition(free, active, MAX_PARTICLES)
    ensures Partition(free[1..], [free[0]] + active, MAX_PARTICLES)
  {
    var f := free[1..];
    assert forall k :: 0 <= k < |f| ==> f[k] == free[k + 1] && f[k] != free[0];
    assert forall x :: x in free && x != free[0] ==> x in f by {
      forall x | x in free && x != free[0]
        ensures x in f
      {
        var k :| 0 <= k < |free| && free[k] == x;
        assert f[k - 1] == x;
      }
    }
    assert free[0] in free;
  }

  /** The same move relinks the lists: the free list now starts at the old
      head's successor, the active list at the old free head, whose `next`
      is the old active head. */
  lemma AllocKeepsThreads(next: seq<int>, free: seq<int>, activeHead: int, active: seq<int>)
    requires free != [] && Partition(free, active, MAX_PARTICLES)
    requires Threads(next, free[0], free) && Threads(next, activeHead, active)
    ensures var next' := next[free[0] := activeHead];
            Threads(next', next[free[0]], free[1..]) && Threads(next', free[0], [free[0]] + active)
  {
    var next' := next[free[0] := activeHead];
    assert free[0] !in active by {
      assert free[0] in free;
    }
    assert next[free[0]] == (if 1 < |free| then free[1] else NIL);
    var f := free[1..];
    forall k | 0 <= k < |f|
      ensures 0 <= f[k] < |next'| && next'[f[k]] == (if k + 1 < |f| then f[k + 1] else NIL)
    {
      assert f[k] == free[k + 1] != free[0];
      ThreadsAt(next, free[0], free, k + 1);
    }
    var a := [free[0]] + active;
    forall k | 0 <= k < |a|
      ensures 0 <= a[k] < |next'| && next'[a[k]] == (if k + 1 < |a| then a[k + 1] else NIL)
    {
      if k > 0 {
        assert a[k] == active[k - 1] != free[0];
        ThreadsAt(next, activeHead, active, k - 1);
      } else {
        assert activeHead == (if active == [] then NIL else active[0]);
      }
    }
    assert Threads(next', next[free[0]], f);
    assert Threads(next', free[0], a);
  }

  // -----------------------------------------------------------------------
  // The fly swarm

  /** C's `/` on `int`, which truncates toward zero. */
  function CDiv(a: int, b: int): (q: int)
    requires b > 0
    ensures a >= 0 ==> 0 <= q && q * b <= a < q * b + b
    ensures a < 0 ==> q <= 0 && q * b - b < a <= q * b
  {
    if a >= 0 then a / b else -((-a) / b)
  }

  /** The new `fly_stoptime` and the particle count of CL_FlyEffect at
      `time`. */
  function FlyCount(stoptime: int, time: int): (r: (int, int))
  {
    var stop := if stoptime < time then time + 60000 else stoptime;
    var start := if stoptime < time then time else stoptime - 60000;
    var n := time - start;
    var count :=
      if n < 20000 then CDiv(n * NUMVERTEXNORMALS, 20000)
      else if stop - time < 20000 then CDiv((stop - time) * NUMVERTEXNORMALS, 20000)
      else NUMVERTEXNORMALS;
    (stop, count)
  }

  /** An expired swarm restarts a 60-second run with no particles. A
      running one (stop time at most 60 seconds ahead) asks for between 0
      and 162 particles: all 162 directions once 20 seconds have passed
      and while 20 seconds remain, fewer during the ramps. */
  lemma FlyCountSchedule(stoptime: int, time: int)
    ensures var (stop, count) := FlyCount(stoptime, time);
            (stoptime < time ==> stop == time + 60000 && count == 0) &&
            (stoptime >= time ==> stop == stoptime) &&
            count <= NUMVERTEXNORMALS &&
            (time <= stoptime <= time + 60000 ==>
               0 <= count &&
               (count == NUMVERTEXNORMALS <==> time - (stoptime - 60000) >= 20000 && stoptime - time >= 20000))
  {
    var (stop, count) := FlyCount(stoptime, time);
    if stoptime >= time {
      var n := time - (stoptime - 60000);
      if n < 20000 {
        assert n * NUMVERTEXNORMALS < 20000 * NUMVERTEXNORMALS;
      } else if stoptime - time < 20000 {
        assert (stoptime - time) * NUMVERTEXNORMALS < 20000 * NUMVERTEXNORMALS;
      }
    }
  }

  /** The number of particles CL_FlyParticles asks for: one for every
      other direction of the first `count`, at most NUMVERTEXNORMALS. */
  function FlyWanted(count: int): (r: nat)
    ensures 2 * r <= NUMVERTEXNORMALS + 1
  {
    var c := if count > NUMVERTEXNORMALS then NUMVERTEXNORMALS else count;
    if c <= 0 then 0 else (c + 1) / 2
  }

  /** CL_FlyParticles: allocates a particle per even direction below the
      clamped count, stopping when the pool runs dry; returns how many it
      took. */
  method FlyParticles(pool: ParticlePool, count: int) returns (taken: nat)
    requires pool.Valid()
    modifies pool, pool.next, pool.scale
    ensures pool.Valid()
    ensures taken == if FlyWanted(count) <= |old(pool.freeList)| then FlyWanted(count) else |old(pool.freeList)|
    ensures pool.freeList == old(pool.freeList)[taken..]
  {
    var c := if count > NUMVERTEXNORMALS then NUMVERTEXNORMALS else count;
    taken := 0;
    var i := 0;
    while i < c
      invariant pool.Valid()
      invariant i == 2 * taken && taken <= |old(pool.freeList)|
      invariant taken <= FlyWanted(count)
      invariant c > 0 ==> i <= c + 1
      invariant pool.freeList == old(pool.freeList)[taken..]
      decreases c - i
    {
      var p := pool.AllocParticle();
      if p.None? {
        return;
      }
      taken := taken + 1;
      i := i + 2;
    }
  }

  // -----------------------------------------------------------------------
  // Entities

  /** The centity_t fields the effects keep per entity. */
  class Entity {
    var trailcount: int
    var flyStoptime: int

    constructor (trailcount: int, flyStoptime: int)
      ensures this.trailcount == trailcount && this.flyStoptime == flyStoptime
    {
      this.trailcount := trailcount;
      this.flyStoptime := flyStoptime;
    }
  }

  /** CL_FlyEffect: updates the swarm's stop time and draws its particles;
      returns the count it asked CL_FlyParticles for and how many it got. */
  method FlyEffect(ent: Entity, pool: ParticlePool, time: int) returns (count: int, taken: nat)
    requires pool.Valid()
    modifies ent`flyStoptime, pool, pool.next, pool.scale
    ensures pool.Valid()
    ensures (ent.flyStoptime, count) == FlyCount(old(ent.flyStoptime), time)
    ensures taken == if FlyWanted(count) <= |old(pool.freeList)| then FlyWanted(count) else |old(pool.freeList)|
    ensures pool.freeList == old(pool.freeList)[taken..]
  {
    var starttime: int;
    if ent.flyStoptime < time {
      starttime := time;
      ent.flyStoptime := time + 60000;
    } else {
      starttime := ent.flyStoptime - 60000;
    }
    var n := time - starttime;
    if n < 20000 {
      count := CDiv(n * NUMVERTEXNORMALS, 20000);
    } else {
      n := ent.flyStoptime - time;
      if n < 20000 {
        count := CDiv(n * NUMVERTEXNORMALS, 20000);
      } else {
        count := NUMVERTEXNORMALS;
      }
    }
    taken := FlyParticles(pool, count);
  }

  // -----------------------------------------------------------------------
  // The diminishing trail

  /** One trail step: five less, but never below 100. */
  function TrailStep(tc: int): (r: int)
    ensures r >= 100
    ensures r == tc - 5 || r == 100
  {
    if tc - 5 < 100 then 100 else tc - 5
  }

  /** `trailcount` after `k` trail steps. */
  function TrailAfter(tc: int, k: nat): int {
    if k == 0 then tc else TrailStep(TrailAfter(tc, k - 1))
  }

  /** After k > 0 steps the density has dropped by 5 per step, down to the
      floor of 100 and no further. */
  lemma {:induction false} TrailAfterClosed(tc: int, k: nat)
    requires k > 0
    ensures TrailAfter(tc, k) == if tc - 5 * k < 100 then 100 else tc - 5 * k
  {
    if k > 1 {
      TrailAfterClosed(tc, k - 1);
    }
  }

  /** The particle budget of CL_DiminishingTrail: for each of `count`
      steps, `draws[i]` is `Q_rand() & 1023`, which asks for a particle
      when below the current trailcount, and `fire[i]` says whether a
      rocket's second draw asks for a fire particle. The loop stops at the
      first particle the pool cannot give. Returns the steps completed. */
  method DiminishingTrail(ent: Entity, pool: ParticlePool, count: nat, draws: seq<int>, fire: seq<bool>, rocket: bool)
    returns (steps: nat)
    requires pool.Valid() && |draws| >= count && |fire| >= count
    modifies ent`trailcount, pool, pool.next, pool.scale
    ensures pool.Valid()
    ensures steps <= count && ent.trailcount == TrailAfter(old(ent.trailcount), steps)
    ensures steps < count ==> pool.freeList == []
    ensures |pool.freeList| <= |old(pool.freeList)|
  {
    ghost var tc := ent.trailcount;
    steps := 0;
    while steps < count
      invariant pool.Valid()
      invariant steps <= count && ent.trailcount == TrailAfter(tc, steps)
      invariant |pool.freeList| <= |old(pool.freeList)|
    {
      if draws[steps] < ent.trailcount {
        var p := pool.AllocParticle();
        if p.None? {
          return;
        }
      }
      if rocket && fire[steps] {
        var p := pool.AllocParticle();
        if p.None? {
          return;
        }
      }
      ent.trailcount := TrailStep(ent.trailcount);
      steps := steps + 1;
    }
  }
}
