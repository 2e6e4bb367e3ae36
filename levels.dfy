/** `LevelManager`: the catalog of levels loaded from levels.json with the
    current selection, and the per-level progress (stars, unlocked, best
    score) kept in the save data under the level-progress key. */
module Levels {
  import opened Wrappers
  import opened Catalog
  import opened SaveData
  import opened SpawnTimeline

  /** A level definition from levels.json. `id` is None when the raw object
      has a null or missing id. */
  datatype Level = Level(
    id: Option<int>,
    enemies: seq<SpawnEvent>,
    pickups: seq<SpawnEvent>,
    oneStarScore: int,
    twoStarScore: int,
    threeStarScore: int)

  /** One element of the array given to `load`: something that is not an
      object, or a level object. */
  datatype RawEntry = NonObject | Object(level: Level)

  /** One `addLevelProgress` call. */
  datatype ProgressCall = ProgressCall(id: int, stars: int, unlocked: bool, score: int)

  function Max(a: int, b: int): int { if a >= b then a else b }

  function RecordId(r: ProgressRecord): int { r.id }

  function LevelId(l: Level): Option<int> { l.id }

  /** The record kept for `id`: the first with that id, as `find` returns it. */
  function RecordFor(records: seq<ProgressRecord>, id: int): Option<ProgressRecord>
  {
    Find(records, RecordId, id)
  }

  /** The in-place update of an existing record: best stars, best score, and
      `unlocked` set when the call passes true. */
  function Merge(rec: ProgressRecord, c: ProgressCall): ProgressRecord
  {
    rec.(stars := Max(rec.stars, c.stars),
         unlocked := if c.unlocked then true else rec.unlocked,
         score := Max(rec.score, c.score))
  }

  function NewRecord(c: ProgressCall): ProgressRecord
  {
    ProgressRecord(c.id, c.stars, c.unlocked, c.score)
  }

  /** The collection `addLevelProgress` writes back: the first record with the
      call's id merged in place, or a new record pushed at the end. */
  function AddProgress(records: seq<ProgressRecord>, c: ProgressCall): seq<ProgressRecord>
  {
    match FirstMatch(records, RecordId, c.id)
    case Some(i) => records[i := Merge(records[i], c)]
    case None => records + [NewRecord(c)]
  }

  /** The record for `id` after one more call: created by the first call for
      it, merged by every later one. */
  function Step(prev: Option<ProgressRecord>, c: ProgressCall): Option<ProgressRecord>
  {
    match prev
    case None => Some(NewRecord(c))
    case Some(p) => Some(Merge(p, c))
  }

  /** What a call does to the record kept for each id: the call's own id is
      merged or created, every other id reads the same as before. The existing
      collection only grows by one record at the end. */
  lemma AddProgressLookup(records: seq<ProgressRecord>, c: ProgressCall, other: int)
    ensures RecordFor(AddProgress(records, c), c.id) == Step(RecordFor(records, c.id), c)
    ensures other != c.id ==> RecordFor(AddProgress(records, c), other) == RecordFor(records, other)
    ensures |AddProgress(records, c)| == |records| + (if RecordFor(records, c.id).None? then 1 else 0)
    ensures forall j :: 0 <= j < |records| && records[j].id != c.id ==> AddProgress(records, c)[j] == records[j]
  {
    var r := AddProgress(records, c);
    match FirstMatch(records, RecordId, c.id)
    case Some(i) =>
      assert forall j :: 0 <= j < |r| ==> RecordId(r[j]) == RecordId(records[j]);
      FirstMatchAt(r, RecordId, c.id, i);
      SameKeysSameMatch(records, r, other);
    case None =>
      var n := |records|;
      assert forall j :: 0 <= j < n ==> r[j] == records[j];
      FirstMatchAt(r, RecordId, c.id, n);
      if other != c.id {
        SameKeysSameMatch(records, r[..n], other);
        assert r[..n] == records;
        match FirstMatch(records, RecordId, other)
        case Some(k) =>
          FirstMatchAt(r, RecordId, other, k);
        case None =>
          assert forall j :: 0 <= j < |r| ==> RecordId(r[j]) != other;
      }
  }

  /** Two collections with the same ids position by position find the same
      record index for every id. */
  lemma SameKeysSameMatch(a: seq<ProgressRecord>, b: seq<ProgressRecord>, id: int)
    requires |a| == |b| && forall j :: 0 <= j < |a| ==> RecordId(a[j]) == RecordId(b[j])
    ensures FirstMatch(a, RecordId, id) == FirstMatch(b, RecordId, id)
  {
    match FirstMatch(a, RecordId, id)
    case Some(i) =>
      FirstMatchAt(b, RecordId, id, i);
    case None =>
      assert forall j :: 0 <= j < |b| ==> RecordId(b[j]) != id;
  }

  /** Repeating an identical call leaves the collection as it is. */
  lemma AddProgressIdempotent(records: seq<ProgressRecord>, c: ProgressCall)
    ensures AddProgress(AddProgress(records, c), c) == AddProgress(records, c)
  {
    var r := AddProgress(records, c);
    AddProgressLookup(records, c, c.id);
    match FirstMatch(r, RecordId, c.id)
    case Some(i) =>
      assert r[i] == Step(RecordFor(records, c.id), c).value;
      assert Merge(r[i], c) == r[i];
      assert r[i := Merge(r[i], c)] == r;
    case None =>
      assert false;
  }

  ghost predicate UniqueIds(records: seq<ProgressRecord>)
  {
    forall i, j :: 0 <= i < j < |records| ==> records[i].id != records[j].id
  }

  /** A collection whose ids are unique keeps them unique. */
  lemma AddProgressKeepsIdsUnique(records: seq<ProgressRecord>, c: ProgressCall)
    requires UniqueIds(records)
    ensures UniqueIds(AddProgress(records, c))
  {
    var r := AddProgress(records, c);
    match FirstMatch(records, RecordId, c.id)
    case Some(i) =>
      assert forall j :: 0 <= j < |r| ==> r[j].id == RecordId(records[j]);
    case None =>
      assert forall j :: 0 <= j < |records| ==> r[j] == records[j] && records[j].id != c.id by {
        forall j | 0 <= j < |records| ensures r[j] == records[j] && records[j].id != c.id {
          assert RecordId(records[j]) != c.id;
        }
      }
  }

  /** An existing record never loses stars, score or its unlock, whatever
      the call asks for. */
  lemma AddProgressMonotone(records: seq<ProgressRecord>, c: ProgressCall, id: int)
    requires RecordFor(records, id).Some?
    ensures RecordFor(AddProgress(records, c), id).Some?
    ensures RecordFor(AddProgress(records, c), id).value.stars >= RecordFor(records, id).value.stars
    ensures RecordFor(AddProgress(records, c), id).value.score >= RecordFor(records, id).value.score
    ensures RecordFor(records, id).value.unlocked ==> RecordFor(AddProgress(records, c), id).value.unlocked
  {
    AddProgressLookup(records, c, id);
  }

  /** A sequence of `addLevelProgress` calls. */
  function ApplyAll(records: seq<ProgressRecord>, calls: seq<ProgressCall>): seq<ProgressRecord>
    decreases |calls|
  {
    if |calls| == 0 then records else ApplyAll(AddProgress(records, calls[0]), calls[1..])
  }

  /** The record for `id` after a sequence of calls, following only the
      calls for that id. */
  function History(prev: Option<ProgressRecord>, id: int, calls: seq<ProgressCall>): Option<ProgressRecord>
    decreases |calls|
  {
    if |calls| == 0 then prev
    else History(if calls[0].id == id then Step(prev, calls[0]) else prev, id, calls[1..])
  }

  /** Calls for other ids never disturb a level's record. */
  lemma {:induction false} ApplyAllFollowsHistory(records: seq<ProgressRecord>, calls: seq<ProgressCall>, id: int)
    ensures RecordFor(ApplyAll(records, calls), id) == History(RecordFor(records, id), id, calls)
    decreases |calls|
  {
    if |calls| > 0 {
      AddProgressLookup(records, calls[0], id);
      ApplyAllFollowsHistory(AddProgress(records, calls[0]), calls[1..], id);
    }
  }

  /** Over any sequence of calls a record ends with the best stars and best
      score it ever had or was given, and unlocked exactly when it was or
      some call unlocked it. */
  lemma {:induction false} HistoryKeepsBest(p: ProgressRecord, id: int, calls: seq<ProgressCall>)
    requires p.id == id
    ensures History(Some(p), id, calls).Some?
    ensures History(Some(p), id, calls).value.id == id
    ensures History(Some(p), id, calls).value.stars >= p.stars
    ensures History(Some(p), id, calls).value.score >= p.score
    ensures forall k :: 0 <= k < |calls| && calls[k].id == id ==>
              History(Some(p), id, calls).value.stars >= calls[k].stars &&
              History(Some(p), id, calls).value.score >= calls[k].score
    ensures History(Some(p), id, calls).value.stars == p.stars ||
            exists k :: 0 <= k < |calls| && calls[k].id == id && History(Some(p), id, calls).value.stars == calls[k].stars
    ensures History(Some(p), id, calls).value.score == p.score ||
            exists k :: 0 <= k < |calls| && calls[k].id == id && History(Some(p), id, calls).value.score == calls[k].score
    ensures History(Some(p), id, calls).value.unlocked <==>
            p.unlocked || exists k :: 0 <= k < |calls| && calls[k].id == id && calls[k].unlocked
    decreases |calls|
  {
    if |calls| > 0 {
      var q := if calls[0].id == id then Merge(p, calls[0]) else p;
      HistoryKeepsBest(q, id, calls[1..]);
      var r := History(Some(p), id, calls).value;
      assert History(Some(p), id, calls) == History(Some(q), id, calls[1..]);
      forall k | 0 <= k < |calls| && calls[k].id == id
        ensures r.stars >= calls[k].stars && r.score >= calls[k].score
      {
        if k > 0 {
          assert calls[1..][k - 1] == calls[k];
        }
      }
      if r.stars != p.stars {
        if r.stars == q.stars {
          assert calls[0].id == id && r.stars == calls[0].stars;
        } else {
          var k :| 0 <= k < |calls[1..]| && calls[1..][k].id == id && r.stars == calls[1..][k].stars;
          assert calls[k + 1] == calls[1..][k];
        }
      }
      if r.score != p.score {
        if r.score == q.score {
          assert calls[0].id == id && r.score == calls[0].score;
        } else {
          var k :| 0 <= k < |calls[1..]| && calls[1..][k].id == id && r.score == calls[1..][k].score;
          assert calls[k + 1] == calls[1..][k];
        }
      }
      if r.unlocked && !p.unlocked {
        if q.unlocked {
          assert calls[0].id == id && calls[0].unlocked;
        } else {
          var k :| 0 <= k < |calls[1..]| && calls[1..][k].id == id && calls[1..][k].unlocked;
          assert calls[k + 1] == calls[1..][k];
        }
      }
      if !r.unlocked {
        forall k | 0 <= k < |calls| && calls[k].id == id
          ensures !calls[k].unlocked
        {
          if k > 0 {
            assert calls[1..][k - 1] == calls[k];
          }
        }
      }
    }
  }

  /** A level with no record yet: it gets one exactly when some call names
      it; the first such call creates it, and from then on it holds the best
      stars and best score any call for it gave, each taken from one of those
      calls, and is unlocked iff some call for it passed `unlocked`. */
  lemma {:induction false} HistoryFromAbsent(id: int, calls: seq<ProgressCall>)
    ensures History(None, id, calls).None? <==> forall k :: 0 <= k < |calls| ==> calls[k].id != id
    ensures History(None, id, calls).Some? ==>
      var r := History(None, id, calls).value;
      r.id == id
      && (forall k :: 0 <= k < |calls| && calls[k].id == id ==> r.stars >= calls[k].stars && r.score >= calls[k].score)
      && (exists k :: 0 <= k < |calls| && calls[k].id == id && r.stars == calls[k].stars)
      && (exists k :: 0 <= k < |calls| && calls[k].id == id && r.score == calls[k].score)
      && (r.unlocked <==> exists k :: 0 <= k < |calls| && calls[k].id == id && calls[k].unlocked)
    decreases |calls|
  {
    if |calls| > 0 {
      var rest := calls[1..];
      if calls[0].id == id {
        var p := NewRecord(calls[0]);
        assert History(None, id, calls) == History(Some(p), id, rest);
        HistoryKeepsBest(p, id, rest);
        var r := History(Some(p), id, rest).value;
        forall k | 0 <= k < |calls| && calls[k].id == id
          ensures r.stars >= calls[k].stars && r.score >= calls[k].score
        {
          if k > 0 {
            assert calls[k] == rest[k - 1];
          }
        }
        if r.stars != p.stars {
          var k :| 0 <= k < |rest| && rest[k].id == id && r.stars == rest[k].stars;
          assert calls[k + 1] == rest[k];
        }
        if r.score != p.score {
          var k :| 0 <= k < |rest| && rest[k].id == id && r.score == rest[k].score;
          assert calls[k + 1] == rest[k];
        }
        if r.unlocked && !p.unlocked {
          var k :| 0 <= k < |rest| && rest[k].id == id && rest[k].unlocked;
          assert calls[k + 1] == rest[k];
        }
        if !r.unlocked {
          forall k | 0 <= k < |calls| && calls[k].id == id
            ensures !calls[k].unlocked
          {
            if k > 0 {
              assert calls[k] == rest[k - 1];
            }
          }
        }
      } else {
        assert History(None, id, calls) == History(None, id, rest);
        HistoryFromAbsent(id, rest);
        assert forall k :: 0 < k < |calls| ==> calls[k] == rest[k - 1];
        if History(None, id, rest).Some? {
          var r := History(None, id, rest).value;
          var ks :| 0 <= ks < |rest| && rest[ks].id == id && r.stars == rest[ks].stars;
          assert calls[ks + 1] == rest[ks];
          var kc :| 0 <= kc < |rest| && rest[kc].id == id && r.score == rest[kc].score;
          assert calls[kc + 1] == rest[kc];
          if r.unlocked {
            var ku :| 0 <= ku < |rest| && rest[ku].id == id && rest[ku].unlocked;
            assert calls[ku + 1] == rest[ku];
          }
        } else {
          forall k | 0 <= k < |calls|
            ensures calls[k].id != id
          {
            if k > 0 {
              assert calls[k] == rest[k - 1];
            }
          }
        }
      }
    }
  }

  /** The stored collection as `addLevelProgress` reads it: an empty one
      when nothing is stored or the read fails. */
  function ProgressOf(v: Option<Value>): Option<seq<ProgressRecord>>
  {
    match v
    case Some(Progress(levels)) => Some(levels)
    case _ => None
  }

  function StoredOrEmpty(data: Option<seq<ProgressRecord>>): seq<ProgressRecord>
  {
    match data
    case None => []
    case Some(levels) => levels
  }

  /** `getStarsForLevel`: 0 without data or without a record. */
  function StarsFor(data: Option<seq<ProgressRecord>>, id: int): (stars: int)
    ensures data.None? ==> stars == 0
    ensures data.Some? && RecordFor(data.value, id).None? ==> stars == 0
    ensures data.Some? && RecordFor(data.value, id).Some? ==> stars == RecordFor(data.value, id).value.stars
  {
    match data
    case None => 0
    case Some(levels) =>
      match RecordFor(levels, id)
      case None => 0
      case Some(rec) => rec.stars
  }

  /** `isLevelUnlocked`: false without data or without a record. */
  function UnlockedFor(data: Option<seq<ProgressRecord>>, id: int): (unlocked: bool)
    ensures unlocked <==> data.Some? && RecordFor(data.value, id).Some? && RecordFor(data.value, id).value.unlocked
  {
    match data
    case None => false
    case Some(levels) =>
      match RecordFor(levels, id)
      case None => false
      case Some(rec) => rec.unlocked
  }

  /** Calling `addLevelProgress` unlocks a level for good: once the stored
      collection says it is unlocked, later calls keep it so. */
  lemma UnlockIsPermanent(records: seq<ProgressRecord>, c: ProgressCall, id: int)
    requires UnlockedFor(Some(records), id)
    ensures UnlockedFor(Some(AddProgress(records, c)), id)
    ensures StarsFor(Some(AddProgress(records, c)), id) >= StarsFor(Some(records), id)
  {
    AddProgressMonotone(records, c, id);
  }

  function KeptLevel(e: RawEntry): seq<Level>
  {
    if e.Object? && e.level.id.Some? then [e.level] else []
  }

  /** The levels `load` keeps: the objects with a non-null id, in input order. */
  function Identified(raw: seq<RawEntry>): (r: seq<Level>)
    ensures |r| <= |raw|
    ensures forall l :: l in r <==> Object(l) in raw && l.id.Some?
  {
    if |raw| == 0 then []
    else
      var init := raw[..|raw| - 1];
      assert raw == init + [raw[|raw| - 1]];
      Identified(init) + KeptLevel(raw[|raw| - 1])
  }

  /** The store after one `addLevelProgress` call: the stored collection
      (empty when absent or unreadable) with the call merged in, written
      back unless the write fails. */
  function ProgressAfter(st: map<string, Value>, c: ProgressCall, faults: StorageFaults): map<string, Value>
  {
    Saved(st, LevelProgressKey,
      Progress(AddProgress(StoredOrEmpty(ProgressOf(Loaded(st, LevelProgressKey, faults.loadFailed))), c)),
      faults.saveFailed)
  }

  /** The store after a run of calls, each with its own storage faults. */
  function ProgressAfterAll(st: map<string, Value>, calls: seq<ProgressCall>, faults: seq<StorageFaults>): map<string, Value>
    requires |faults| == |calls|
    decreases |calls|
  {
    if |calls| == 0 then st
    else ProgressAfterAll(ProgressAfter(st, calls[0], faults[0]), calls[1..], faults[1..])
  }

  /** When no storage call fails, a run of calls leaves exactly the merge of
      all of them in the store, and the settings entry untouched. */
  lemma {:induction false} ProgressAfterAllApplies(st: map<string, Value>, calls: seq<ProgressCall>, faults: seq<StorageFaults>)
    requires |faults| == |calls| && WellTyped(st)
    requires forall k :: 0 <= k < |faults| ==> faults[k] == StorageFaults(false, false)
    ensures WellTyped(ProgressAfterAll(st, calls, faults))
    ensures ProgressOf(Loaded(ProgressAfterAll(st, calls, faults), LevelProgressKey, false))
      == (if |calls| == 0 then ProgressOf(Loaded(st, LevelProgressKey, false))
          else Some(ApplyAll(StoredOrEmpty(ProgressOf(Loaded(st, LevelProgressKey, false))), calls)))
    ensures forall k :: k != LevelProgressKey ==> Loaded(ProgressAfterAll(st, calls, faults), k, false) == Loaded(st, k, false)
    decreases |calls|
  {
    if |calls| > 0 {
      var next := ProgressAfter(st, calls[0], faults[0]);
      var records := StoredOrEmpty(ProgressOf(Loaded(st, LevelProgressKey, false)));
      assert next == st[LevelProgressKey := Progress(AddProgress(records, calls[0]))];
      ProgressAfterAllApplies(next, calls[1..], faults[1..]);
      assert StoredOrEmpty(ProgressOf(Loaded(next, LevelProgressKey, false))) == AddProgress(records, calls[0]);
    }
  }

  class LevelManager {
    var levels: seq<Level>
    var currentLevel: Option<Level>
    const saveData: SaveDataManager

    /** Every loaded level has an id. */
    ghost predicate Valid()
      reads this
    {
      forall l :: l in levels ==> l.id.Some?
    }

    constructor(saveData: SaveDataManager)
      ensures this.saveData == saveData
      ensures levels == [] && currentLevel == None && Valid()
    {
      this.saveData := saveData;
      levels := [];
      currentLevel := None;
    }

    /** `levelCount`. */
    function LevelCount(): nat
      reads this
    {
      |levels|
    }

    /** `addLevelProgress`: read the collection (empty when absent or
        unreadable), merge the call in, and write it back. */
    method AddLevelProgress(c: ProgressCall, faults: StorageFaults)
      requires WellTyped(saveData.storage)
      modifies saveData
      ensures WellTyped(saveData.storage)
      ensures saveData.storage == ProgressAfter(old(saveData.storage), c, faults)
    {
      var data := saveData.Load(LevelProgressKey, faults.loadFailed);
      var records: seq<ProgressRecord>;
      if data.None? {
        records := [];
      } else {
        records := data.value.levels;
      }
      match FirstMatch(records, RecordId, c.id) {
        case Some(i) =>
          records := records[i := Merge(records[i], c)];
        case None =>
          records := records + [NewRecord(c)];
      }
      saveData.Save(LevelProgressKey, Progress(records), faults.saveFailed);
    }

    /** `clear`. */
    method Clear()
      modifies this
      ensures levels == [] && currentLevel == None && Valid()
    {
      levels := [];
      currentLevel := None;
    }

    /** `getStarsForLevel`. */
    method GetStarsForLevel(id: int, loadFailed: bool) returns (stars: int)
      requires WellTyped(saveData.storage)
      ensures stars == StarsFor(ProgressOf(Loaded(saveData.storage, LevelProgressKey, loadFailed)), id)
    {
      var data := saveData.Load(LevelProgressKey, loadFailed);
      if data.None? {
        return 0;
      }
      var level := RecordFor(data.value.levels, id);
      stars := if level.Some? then level.value.stars else 0;
    }

    /** `isLevelUnlocked`. */
    method IsLevelUnlocked(id: int, loadFailed: bool) returns (unlocked: bool)
      requires WellTyped(saveData.storage)
      ensures unlocked == UnlockedFor(ProgressOf(Loaded(saveData.storage, LevelProgressKey, loadFailed)), id)
    {
      var data := saveData.Load(LevelProgressKey, loadFailed);
      if data.None? {
        return false;
      }
      var level := RecordFor(data.value.levels, id);
      unlocked := if level.Some? then level.value.unlocked else false;
    }

    /** `load`: keep the objects with an id, in order, and clear the
        selection. */
    method Load(raw: seq<RawEntry>)
      modifies this
      ensures levels == Identified(raw) && currentLevel == None && Valid()
      ensures LevelCount() <= |raw|
    {
      levels := [];
      var i := 0;
      while i < |raw|
        invariant 0 <= i <= |raw|
        invariant levels == Identified(raw[..i])
      {
        var rawLevel := raw[i];
        assert raw[..i + 1][..i] == raw[..i];
        if rawLevel.Object? && rawLevel.level.id.Some? {
          levels := levels + [rawLevel.level];
        }
        i := i + 1;
      }
      assert raw[..|raw|] == raw;
      currentLevel := None;
    }

    /** `selectLevel`: the first loaded level with that id; none (and an
        error logged) when no level has it. */
    method SelectLevel(id: int) returns (notFound: bool)
      modifies this
      ensures levels == old(levels)
      ensures currentLevel == Find(levels, LevelId, Some(id))
      ensures notFound <==> forall l :: l in levels ==> l.id != Some(id)
      ensures currentLevel.Some? ==> currentLevel.value in levels && currentLevel.value.id == Some(id)
    {
      currentLevel := Find(levels, LevelId, Some(id));
      notFound := currentLevel.None?;
      if notFound {
        forall l | l in levels ensures l.id != Some(id) {
          var k :| 0 <= k < |levels| && levels[k] == l;
          assert LevelId(levels[k]) != Some(id);
        }
      }
    }
  }
}
