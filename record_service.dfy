/**
 * GameRecordService: the append-only history of finished games under the key
 * "gameRecords", and the statistics the results page shows over it.
 */
module RecordService {
  import opened Wrappers
  import opened Models
  import opened Json
  import opened WebStorage
  import opened Adapters
  import opened Factories

  const RecordsKey: string := "gameRecords"

  // ---------------------------------------------------------------------------
  // Statistics over a record list

  /** The sum of the scores, accumulated from the first record on (the `reduce`). */
  function TotalScore(records: seq<GameRecord>): (t: nat)
    ensures forall i :: 0 <= i < |records| ==> records[i].score <= t
  {
    if records == [] then 0
    else TotalScore(records[..|records| - 1]) + records[|records| - 1].score
  }

  /** Math.max over the scores of a non-empty list. */
  function MaxScore(records: seq<GameRecord>): (m: nat)
    requires records != []
    ensures forall i :: 0 <= i < |records| ==> records[i].score <= m
    ensures exists i :: 0 <= i < |records| && records[i].score == m
  {
    if |records| == 1 then records[0].score
    else
      var front := records[..|records| - 1];
      var last := records[|records| - 1].score;
      var m' := MaxScore(front);
      assert forall i :: 0 <= i < |front| ==> front[i] == records[i];
      if m' < last then last else m'
  }

  /** Math.round(total / n) on non-negative integers: nearest integer, halves rounded up. */
  function RoundHalfUp(total: nat, n: nat): (r: nat)
    requires n > 0
    ensures 2 * n * r <= 2 * total + n < 2 * n * (r + 1)
  {
    (2 * total + n) / (2 * n)
  }

  /** The number of trailing won records. */
  function WinStreak(records: seq<GameRecord>): (k: nat)
    ensures k <= |records|
    ensures forall i :: |records| - k <= i < |records| ==> records[i].won
    ensures k < |records| ==> !records[|records| - 1 - k].won
  {
    if records == [] || !records[|records| - 1].won then 0
    else
      var front := records[..|records| - 1];
      assert forall i :: 0 <= i < |front| ==> front[i] == records[i];
      WinStreak(front) + 1
  }

  /** Multiplying by a natural number preserves order. */
  lemma {:induction false} MulMonotone(a: nat, b: nat, c: nat)
    requires b <= c
    ensures a * b <= a * c
  {
    if a > 0 {
      MulMonotone(a - 1, b, c);
      assert a * b == (a - 1) * b + b;
      assert a * c == (a - 1) * c + c;
    }
  }

  /** The total is at most the number of records times the best score. */
  lemma {:induction false} TotalAtMostCountTimesMax(records: seq<GameRecord>)
    requires records != []
    ensures TotalScore(records) <= |records| * MaxScore(records)
  {
    var n := |records|;
    if n > 1 {
      var front := records[..n - 1];
      TotalAtMostCountTimesMax(front);
      StepBound(TotalScore(front), records[n - 1].score, n - 1, MaxScore(front), MaxScore(records));
    }
  }

  /** One step of the bound: adding a score at most m' to a total at most k * m, where m <= m'. */
  lemma StepBound(total: nat, score: nat, k: nat, m: nat, m': nat)
    requires total <= k * m && m <= m' && score <= m'
    ensures total + score <= (k + 1) * m'
  {
    MulMonotone(k, m, m');
    assert (k + 1) * m' == k * m' + m';
  }

  /** Rounding a mean whose total is at most n * m cannot give more than m. */
  lemma RoundHalfUpAtMost(total: nat, n: nat, m: nat)
    requires n > 0 && total <= n * m
    ensures RoundHalfUp(total, n) <= m
  {
    var r := RoundHalfUp(total, n);
    assert 2 * n * (m + 1) == 2 * (n * m) + 2 * n;
    if r > m {
      MulMonotone(2 * n, m + 1, r);
      assert false;
    }
  }

  /** The average score never exceeds the best score. */
  lemma AverageAtMostBest(records: seq<GameRecord>)
    requires records != []
    ensures RoundHalfUp(TotalScore(records), |records|) <= MaxScore(records)
  {
    TotalAtMostCountTimesMax(records);
    RoundHalfUpAtMost(TotalScore(records), |records|, MaxScore(records));
  }

  /** Appending a record: the streak grows by one on a win and drops to zero on a loss. */
  lemma WinStreakAfterAppend(records: seq<GameRecord>, record: GameRecord)
    ensures WinStreak(records + [record]) == if record.won then WinStreak(records) + 1 else 0
  {
    assert (records + [record])[..|records|] == records;
  }

  /** Appending a record raises the best score to the new score when that is higher. */
  lemma MaxScoreAfterAppend(records: seq<GameRecord>, record: GameRecord)
    requires records != []
    ensures MaxScore(records + [record])
         == if MaxScore(records) < record.score then record.score else MaxScore(records)
  {
    assert (records + [record])[..|records|] == records;
  }

  /** The examples: scores 10, 50, 30 give best 50 and average 30; wins T,F,T,T,T give a streak of 3 and T,F gives 0. */
  lemma Examples(d: string)
    ensures var rs := [GameRecord(10, 100, d, 5, true), GameRecord(50, 100, d, 5, true),
                       GameRecord(30, 100, d, 5, false)];
            MaxScore(rs) == 50 && RoundHalfUp(TotalScore(rs), |rs|) == 30 && |rs| == 3
    ensures var win, loss := GameRecord(1, 1, d, 1, true), GameRecord(0, 1, d, 1, false);
            WinStreak([win, loss, win, win, win]) == 3 && WinStreak([win, loss]) == 0
  {
    var rs := [GameRecord(10, 100, d, 5, true), GameRecord(50, 100, d, 5, true),
               GameRecord(30, 100, d, 5, false)];
    assert rs[..1] == [rs[0]] && rs[..2] == [rs[0], rs[1]];
    assert MaxScore(rs[..2]) == 50;
    assert TotalScore(rs[..1]) == 10;
    assert TotalScore(rs[..2]) == 60;
    assert TotalScore(rs) == 90;
    var win, loss := GameRecord(1, 1, d, 1, true), GameRecord(0, 1, d, 1, false);
    var ws := [win, loss, win, win, win];
    assert ws[..2] == [win, loss] && ws[..3] == [win, loss, win] && ws[..4] == [win, loss, win, win];
    assert WinStreak(ws[..2]) == 0;
    assert WinStreak(ws[..3]) == 1;
    assert WinStreak(ws[..4]) == 2;
  }

  // ---------------------------------------------------------------------------
  // The service's view of a store

  /** getAllRecords: the stored list, or [] when there is none to load. */
  function AllRecords(items: map<string, Text>, access: Access): (records: seq<GameRecord>)
    ensures Loaded(items, access, RecordsKey) == None ==> records == []
    ensures records != [] ==> Loaded(items, access, RecordsKey) == Some(RecordList(records))
    ensures var l := Loaded(items, access, RecordsKey);
            l.Some? && l.value.RecordList? ==> records == l.value.records
  {
    match Loaded(items, access, RecordsKey)
    case Some(RecordList(records)) => records
    case _ => []
  }

  /** The store's entries after saveRecord(record). */
  function SaveRecordEffect(items: map<string, Text>, access: Access, record: GameRecord): (r: map<string, Text>)
    ensures AllRecords(r, access)
         == if access == Available then AllRecords(items, access) + [record] else AllRecords(items, access)
    ensures AgreeOutside(r, items, {RecordsKey})
  {
    Saved(items, access, RecordsKey, RecordList(AllRecords(items, access) + [record]))
  }

  /** The store's entries after saving each of `records` in turn. */
  function SaveEach(items: map<string, Text>, access: Access, records: seq<GameRecord>): map<string, Text>
  {
    if records == [] then items
    else SaveRecordEffect(SaveEach(items, access, records[..|records| - 1]), access, records[|records| - 1])
  }

  /** N saves append N records in call order (and change nothing when the store refuses writes). */
  lemma {:induction false} SaveEachAppendsInOrder(items: map<string, Text>, access: Access, records: seq<GameRecord>)
    ensures AllRecords(SaveEach(items, access, records), access)
         == AllRecords(items, access) + (if access == Available then records else [])
  {
    if records != [] {
      var front := records[..|records| - 1];
      SaveEachAppendsInOrder(items, access, front);
      assert front + [records[|records| - 1]] == records;
    }
  }

  /** The store's entries after clearAllRecords(). */
  function ClearRecordsEffect(items: map<string, Text>, access: Access): (r: map<string, Text>)
    ensures AllRecords(r, access) == []
    ensures access != Denied ==> RecordsKey !in r
    ensures AgreeOutside(r, items, {RecordsKey})
  {
    Removed(items, access, RecordsKey)
  }

  // ---------------------------------------------------------------------------
  // The service

  class GameRecordService {
    const storage: StorageAdapter

    constructor (storageType: string, browser: Browser)
      ensures fresh(storage)
      ensures storage.store == GetStorageFactory(storageType).StoreOf(browser)
    {
      var factory := GetStorageFactory(storageType);
      var adapter := factory.CreateStorage(browser);
      storage := adapter;
    }

    method SaveRecord(record: GameRecord)
      modifies storage.store`items
      ensures storage.store.items == SaveRecordEffect(old(storage.store.items), storage.store.access, record)
    {
      var records := GetAllRecords();
      records := records + [record];
      storage.Save(RecordsKey, RecordList(records));
    }

    method GetAllRecords() returns (records: seq<GameRecord>)
      ensures records == AllRecords(storage.store.items, storage.store.access)
    {
      var loaded := storage.Load(RecordsKey);
      if loaded.Some? && loaded.value.RecordList? {
        records := loaded.value.records;
      } else {
        records := [];
      }
    }

    method GetBestScore() returns (best: nat)
      ensures var records := AllRecords(storage.store.items, storage.store.access);
              && (records == [] ==> best == 0)
              && (forall i :: 0 <= i < |records| ==> records[i].score <= best)
              && (records != [] ==> exists i :: 0 <= i < |records| && records[i].score == best)
    {
      var records := GetAllRecords();
      if |records| == 0 {
        return 0;
      }
      best := MaxScore(records);
    }

    method GetAverageScore() returns (average: nat)
      ensures var records := AllRecords(storage.store.items, storage.store.access);
              && (records == [] ==> average == 0)
              && (records != [] ==>
                    2 * |records| * average <= 2 * TotalScore(records) + |records|
                                             < 2 * |records| * (average + 1))
    {
      var records := GetAllRecords();
      if |records| == 0 {
        return 0;
      }
      var total := TotalScore(records);
      average := RoundHalfUp(total, |records|);
    }

    method GetTotalGames() returns (total: nat)
      ensures total == |AllRecords(storage.store.items, storage.store.access)|
    {
      var records := GetAllRecords();
      total := |records|;
    }

    method GetWinStreak() returns (streak: nat)
      ensures streak == WinStreak(AllRecords(storage.store.items, storage.store.access))
    {
      var records := GetAllRecords();
      streak := 0;
      var i := |records| - 1;
      while i >= 0
        invariant -1 <= i < |records|
        invariant streak == |records| - 1 - i
        invariant WinStreak(records) == streak + WinStreak(records[..i + 1])
      {
        var record := records[i];
        if record.won {
          assert records[..i + 1][..i] == records[..i];
          streak := streak + 1;
        } else {
          break;
        }
        i := i - 1;
      }
    }

    method ClearAllRecords()
      modifies storage.store`items
      ensures storage.store.items == ClearRecordsEffect(old(storage.store.items), storage.store.access)
    {
      storage.Remove(RecordsKey);
    }
  }
}
