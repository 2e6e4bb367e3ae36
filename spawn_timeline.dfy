/** The spawn timeline of a level: the enemy and pickup events it lists, the
    stable sort by `spawnTime` done when a session starts, the greedy drain
    done every frame, and where a drained event appears on screen. */
module SpawnTimeline {
  import opened Sprites

  /** `{ type, spawnTime, spawnPosition }`; a `spawnPosition` of -1 asks for
      a random height. */
  datatype SpawnEvent = SpawnEvent(kind: string, spawnTime: real, spawnPosition: real)

  ghost predicate SortedByTime(s: seq<SpawnEvent>)
  {
    forall i, j :: 0 <= i < j < |s| ==> s[i].spawnTime <= s[j].spawnTime
  }

  /** The events of `s` due at exactly time `t`, in the order of `s`. */
  function AtTime(s: seq<SpawnEvent>, t: real): seq<SpawnEvent>
  {
    if |s| == 0 then []
    else (if s[0].spawnTime == t then [s[0]] else []) + AtTime(s[1..], t)
  }

  /** The events of `s` due at or before `elapsed`, in the order of `s`. */
  function DueBy(s: seq<SpawnEvent>, elapsed: real): seq<SpawnEvent>
  {
    if |s| == 0 then []
    else (if s[0].spawnTime <= elapsed then [s[0]] else []) + DueBy(s[1..], elapsed)
  }

  /** Puts `e` in front of the first event that is not earlier than it. */
  function Insert(e: SpawnEvent, s: seq<SpawnEvent>): seq<SpawnEvent>
  {
    if |s| == 0 then [e]
    else if e.spawnTime <= s[0].spawnTime then [e] + s
    else [s[0]] + Insert(e, s[1..])
  }

  /** `[...list].sort((a, b) => a.spawnTime - b.spawnTime)`: a stable sort
      of a copy of the level's list. */
  function SortBySpawnTime(s: seq<SpawnEvent>): seq<SpawnEvent>
  {
    if |s| == 0 then [] else Insert(s[0], SortBySpawnTime(s[1..]))
  }

  /** Inserting adds exactly `e`, and the result starts with `e` or with
      the old first event. */
  lemma {:induction false} InsertPermutes(e: SpawnEvent, s: seq<SpawnEvent>)
    ensures multiset(Insert(e, s)) == multiset(s) + multiset{e}
    ensures |Insert(e, s)| == |s| + 1
    ensures Insert(e, s)[0] == e || (|s| > 0 && Insert(e, s)[0] == s[0])
  {
    if |s| > 0 && e.spawnTime > s[0].spawnTime {
      InsertPermutes(e, s[1..]);
      assert s == [s[0]] + s[1..];
    }
  }

  /** A lower bound on the times of `s` and of `e` bounds the insertion. */
  lemma {:induction false} InsertBoundedBelow(e: SpawnEvent, s: seq<SpawnEvent>, b: real)
    requires b <= e.spawnTime
    requires forall i :: 0 <= i < |s| ==> b <= s[i].spawnTime
    ensures forall i :: 0 <= i < |Insert(e, s)| ==> b <= Insert(e, s)[i].spawnTime
  {
    if |s| > 0 && e.spawnTime > s[0].spawnTime {
      InsertBoundedBelow(e, s[1..], b);
    }
  }

  lemma {:induction false} InsertKeepsSorted(e: SpawnEvent, s: seq<SpawnEvent>)
    requires SortedByTime(s)
    ensures SortedByTime(Insert(e, s))
  {
    if |s| > 0 && e.spawnTime > s[0].spawnTime {
      InsertKeepsSorted(e, s[1..]);
      InsertBoundedBelow(e, s[1..], s[0].spawnTime);
    }
  }

  /** The session's queue is the level's list in ascending `spawnTime`
      order, holding exactly the same events. */
  lemma {:induction false} SortIsSortedPermutation(s: seq<SpawnEvent>)
    ensures SortedByTime(SortBySpawnTime(s))
    ensures multiset(SortBySpawnTime(s)) == multiset(s)
    ensures |SortBySpawnTime(s)| == |s|
  {
    if |s| > 0 {
      SortIsSortedPermutation(s[1..]);
      InsertKeepsSorted(s[0], SortBySpawnTime(s[1..]));
      InsertPermutes(s[0], SortBySpawnTime(s[1..]));
      assert s == [s[0]] + s[1..];
    }
  }

  lemma AtTimeCons(x: SpawnEvent, r: seq<SpawnEvent>, t: real)
    ensures AtTime([x] + r, t) == (if x.spawnTime == t then [x] else []) + AtTime(r, t)
  {
    assert ([x] + r)[1..] == r;
  }

  /** Inserting `e` puts it, among the events due at `t`, in front of all
      of them. */
  lemma {:induction false} InsertAtTime(e: SpawnEvent, s: seq<SpawnEvent>, t: real)
    ensures AtTime(Insert(e, s), t) == (if e.spawnTime == t then [e] else []) + AtTime(s, t)
  {
    if |s| == 0 {
    } else if e.spawnTime <= s[0].spawnTime {
      AtTimeCons(e, s, t);
    } else {
      InsertAtTime(e, s[1..], t);
      AtTimeCons(s[0], Insert(e, s[1..]), t);
      AtTimeCons(s[0], s[1..], t);
      assert s == [s[0]] + s[1..];
    }
  }

  /** Stability: events due at the same time keep the order the level lists
      them in. */
  lemma {:induction false} SortIsStable(s: seq<SpawnEvent>, t: real)
    ensures AtTime(SortBySpawnTime(s), t) == AtTime(s, t)
  {
    if |s| > 0 {
      SortIsStable(s[1..], t);
      SortIsSortedPermutation(s[1..]);
      InsertAtTime(s[0], SortBySpawnTime(s[1..]), t);
    }
  }

  /** How many events one frame's `while` loop takes off the front: it stops
      at the first event that is not yet due. */
  function DueCount(q: seq<SpawnEvent>, elapsed: real): (n: nat)
    ensures n <= |q|
    ensures forall i :: 0 <= i < n ==> q[i].spawnTime <= elapsed
    ensures n < |q| ==> q[n].spawnTime > elapsed
  {
    if |q| == 0 || q[0].spawnTime > elapsed then 0 else 1 + DueCount(q[1..], elapsed)
  }

  /** On a sorted queue the greedy drain takes exactly the events due by
      `elapsed`, in queue order, and leaves only later ones behind. */
  lemma {:induction false} DrainTakesExactlyDue(q: seq<SpawnEvent>, elapsed: real)
    requires SortedByTime(q)
    ensures q[..DueCount(q, elapsed)] == DueBy(q, elapsed)
    ensures forall i :: DueCount(q, elapsed) <= i < |q| ==> q[i].spawnTime > elapsed
  {
    var n := DueCount(q, elapsed);
    if |q| == 0 {
    } else if q[0].spawnTime > elapsed {
      assert forall i :: 0 <= i < |q| ==> q[i].spawnTime > elapsed;
      NoneDue(q, elapsed);
    } else {
      DrainTakesExactlyDue(q[1..], elapsed);
      assert q[..n] == [q[0]] + q[1..][..n - 1];
      forall i | n <= i < |q| ensures q[i].spawnTime > elapsed {
        assert q[1..][i - 1] == q[i];
      }
    }
  }

  lemma {:induction false} NoneDue(q: seq<SpawnEvent>, elapsed: real)
    requires forall i :: 0 <= i < |q| ==> q[i].spawnTime > elapsed
    ensures DueBy(q, elapsed) == []
  {
    if |q| > 0 {
      NoneDue(q[1..], elapsed);
    }
  }

  /** A drain that has taken `k` events, all due, and stopped before one
      not yet due (or at the end) took exactly the due count. */
  lemma DueCountIs(q: seq<SpawnEvent>, elapsed: real, k: nat)
    requires k <= |q| && forall j :: 0 <= j < k ==> q[j].spawnTime <= elapsed
    requires k == |q| || q[k].spawnTime > elapsed
    ensures DueCount(q, elapsed) == k
  {
  }

  /** A drain about to take a due event has not yet reached the due count. */
  lemma DueCountAbove(q: seq<SpawnEvent>, elapsed: real, k: nat)
    requires k < |q| && forall j :: 0 <= j <= k ==> q[j].spawnTime <= elapsed
    ensures k < DueCount(q, elapsed)
  {
  }

  /** A suffix of a sorted queue is sorted. */
  lemma SortedSuffix(q: seq<SpawnEvent>, k: nat)
    requires SortedByTime(q) && k <= |q|
    ensures SortedByTime(q[k..])
  {
    forall i, j | 0 <= i < j < |q[k..]|
      ensures q[k..][i].spawnTime <= q[k..][j].spawnTime
    {
      assert q[k..][i] == q[k + i] && q[k..][j] == q[k + j];
    }
  }

  /** The height fraction `spawnEnemy`/`spawnPickup` use: the event's own
      `spawnPosition`, or for -1 `Math.floor((draw * (0.75 - 0.2) + 0.2) * 100) / 100`
      where `draw` is `Math.random()`. */
  function SpawnFraction(spawnPosition: real, draw: real): real
  {
    if spawnPosition == -1.0 then ((draw * (0.75 - 0.2) + 0.2) * 100.0).Floor as real / 100.0
    else spawnPosition
  }

  /** A random height is a whole number of hundredths between 0.20 and 0.74
      (never 0.75). */
  lemma RandomFractionRange(draw: real)
    requires 0.0 <= draw < 1.0
    ensures 0.2 <= SpawnFraction(-1.0, draw) <= 0.74
    ensures (SpawnFraction(-1.0, draw) * 100.0).Floor as real == SpawnFraction(-1.0, draw) * 100.0
  {
    var v := (draw * (0.75 - 0.2) + 0.2) * 100.0;
    assert v == draw * 55.0 + 20.0;
    assert 20 <= v.Floor <= 74;
  }

  datatype Point = Point(x: real, y: real)

  /** Spawn point: the right edge of the landscape screen (`screenHeight`)
      and `screenWidth` times the fraction. */
  function SpawnPoint(e: SpawnEvent, draw: real, screenWidth: real, screenHeight: real): (p: Point)
    ensures p.x == screenHeight
    ensures e.spawnPosition != -1.0 ==> p.y == screenWidth * e.spawnPosition
  {
    Point(screenHeight, screenWidth * SpawnFraction(e.spawnPosition, draw))
  }

  /** A random spawn lands between 20% and 74% of the screen height. */
  lemma RandomSpawnHeight(e: SpawnEvent, draw: real, screenWidth: real, screenHeight: real)
    requires e.spawnPosition == -1.0 && 0.0 <= draw < 1.0 && screenWidth >= 0.0
    ensures 0.2 * screenWidth <= SpawnPoint(e, draw, screenWidth, screenHeight).y <= 0.74 * screenWidth
  {
    RandomFractionRange(draw);
    var f := SpawnFraction(-1.0, draw);
    assert SpawnPoint(e, draw, screenWidth, screenHeight).y == screenWidth * f;
    assert screenWidth * f - 0.2 * screenWidth == screenWidth * (f - 0.2);
    assert 0.74 * screenWidth - screenWidth * f == screenWidth * (0.74 - f);
    NonNegativeProduct(screenWidth, f - 0.2);
    NonNegativeProduct(screenWidth, 0.74 - f);
  }
}
