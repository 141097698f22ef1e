/** Counter maps with a bounded number of keys, and bounded queues of recent records. */
module CappedCounts {
  import opened Common

  const MAX_AGGREGATE_KEYS: nat := 100
  const OTHER_KEY: string := "<other>"

  type Counts = map<string, nat>

  /** Counts one key; a key that does not fit any more is counted as "other". */
  function Increment(m: Counts, key: string): Counts {
    var target := if key in m || |m| < MAX_AGGREGATE_KEYS then key else OTHER_KEY;
    m[target := SatAdd(if target in m then m[target] else 0, 1)]
  }

  function PushBounded<T>(records: seq<T>, record: T, limit: nat): seq<T> {
    KeepLast(records + [record], limit)
  }

  // ---- Whole histories ----

  /** The counters after a history of keys. */
  function Tally(keys: seq<string>): Counts {
    if keys == [] then map[] else Increment(Tally(keys[..|keys| - 1]), Last(keys))
  }

  function Occurrences(keys: seq<string>, key: string): nat {
    if keys == [] then 0
    else Occurrences(keys[..|keys| - 1], key) + if Last(keys) == key then 1 else 0
  }

  /** The key came up while fewer than the maximum of different keys had been seen before it. */
  ghost predicate Admitted(keys: seq<string>, key: string) {
    exists i :: 0 <= i < |keys| && keys[i] == key && |Elements(keys[..i]) - {key}| < MAX_AGGREGATE_KEYS
  }

  ghost function Pick(m: Counts): string
    requires m != map[]
    ensures Pick(m) in m
  {
    var k :| k in m;
    k
  }

  /** Sum of all counters. */
  ghost function Sum(m: Counts): nat {
    if m == map[] then 0 else m[Pick(m)] + Sum(m - {Pick(m)})
  }

  lemma {:induction false} SumWithout(m: Counts, k: string)
    requires k in m
    ensures Sum(m) == m[k] + Sum(m - {k})
    decreases |m|
  {
    var p := Pick(m);
    if p != k {
      SumWithout(m - {p}, k);
      assert (m - {p}) - {k} == (m - {k}) - {p};
      SumWithout(m - {k}, p);
    }
  }

  lemma SumUpdate(m: Counts, k: string, v: nat)
    ensures Sum(m[k := v]) == Sum(m) - (if k in m then m[k] else 0) + v
  {
    SumWithout(m[k := v], k);
    assert m[k := v] - {k} == m - {k};
    if k in m {
      SumWithout(m, k);
    } else {
      assert m - {k} == m;
    }
  }

  lemma CountBelowSum(m: Counts, k: string)
    requires k in m
    ensures m[k] <= Sum(m)
  {
    SumWithout(m, k);
  }

  lemma {:induction false} TallySum(keys: seq<string>)
    requires |keys| <= MAX_U64
    ensures Sum(Tally(keys)) == |keys|
  {
    if keys != [] {
      var front := keys[..|keys| - 1];
      TallySum(front);
      var m := Tally(front);
      var target := if Last(keys) in m || |m| < MAX_AGGREGATE_KEYS then Last(keys) else OTHER_KEY;
      if target in m {
        CountBelowSum(m, target);
      }
      SumUpdate(m, target, SatAdd(if target in m then m[target] else 0, 1));
    }
  }

  lemma DistinctAppend(keys: seq<string>)
    requires keys != []
    ensures Elements(keys) == Elements(keys[..|keys| - 1]) + {Last(keys)}
  {
    assert keys == keys[..|keys| - 1] + [Last(keys)];
  }

  /** Until a key overflows, the map's keys are the different keys seen; afterwards it is full for good. */
  ghost predicate Fits(keys: seq<string>) {
    |Elements(keys)| <= MAX_AGGREGATE_KEYS
  }

  lemma {:induction false} TallyKeys(keys: seq<string>)
    ensures |Tally(keys)| <= MAX_AGGREGATE_KEYS + 1
    ensures Fits(keys) ==> Tally(keys).Keys == Elements(keys)
    ensures !Fits(keys) ==> |Tally(keys)| >= MAX_AGGREGATE_KEYS && OTHER_KEY in Tally(keys)
    ensures forall k :: k in Tally(keys) && k != OTHER_KEY ==> k in Elements(keys)
    ensures |Tally(keys)| > MAX_AGGREGATE_KEYS ==> OTHER_KEY in Tally(keys)
    ensures |Tally(keys)| <= |Elements(keys)|
  {
    if keys != [] {
      var front := keys[..|keys| - 1];
      TallyKeys(front);
      DistinctAppend(keys);
      var m := Tally(front);
      var k := Last(keys);
      KeyCounts(m, Tally(keys), if k in m || |m| < MAX_AGGREGATE_KEYS then k else OTHER_KEY);
      SetGrows(Elements(front), k);
    }
  }

  lemma SetGrows(s: set<string>, k: string)
    ensures |s + {k}| == |s| + if k in s then 0 else 1
  {
    if k in s {
      assert s + {k} == s;
    }
  }

  lemma KeyCounts(m: Counts, m': Counts, target: string)
    requires m'.Keys == m.Keys + {target}
    ensures |m'| == |m| + if target in m then 0 else 1
  {
    SetGrows(m.Keys, target);
    assert |m| == |m.Keys| && |m'| == |m'.Keys|;
  }

  lemma AdmittedStep(keys: seq<string>, key: string)
    requires keys != []
    ensures var front := keys[..|keys| - 1];
            Admitted(keys, key) <==>
              Admitted(front, key) || (Last(keys) == key && |Elements(front) - {key}| < MAX_AGGREGATE_KEYS)
  {
    hide Elements;
    var front := keys[..|keys| - 1];
    if Admitted(keys, key) {
      var i :| 0 <= i < |keys| && keys[i] == key && |Elements(keys[..i]) - {key}| < MAX_AGGREGATE_KEYS;
      if i < |front| {
        assert front[i] == key && front[..i] == keys[..i];
      } else {
        assert keys[..i] == front;
      }
    }
    if Admitted(front, key) {
      var i :| 0 <= i < |front| && front[i] == key && |Elements(front[..i]) - {key}| < MAX_AGGREGATE_KEYS;
      assert front[..i] == keys[..i] && keys[i] == key;
    } else if Last(keys) == key && |Elements(front) - {key}| < MAX_AGGREGATE_KEYS {
      assert keys[|front|] == key && keys[..|front|] == front;
    }
  }

  lemma IncrementAdmits(m: Counts, k: string, key: string)
    requires key != OTHER_KEY
    ensures key in Increment(m, k) <==> key in m || (k == key && |m| < MAX_AGGREGATE_KEYS)
  {
  }

  /** There is room in the map exactly if fewer than the maximum of other keys have been seen. */
  lemma RoomLeft(front: seq<string>, key: string)
    requires key !in Tally(front) && key != OTHER_KEY && !Admitted(front, key)
    ensures |Tally(front)| < MAX_AGGREGATE_KEYS <==> |Elements(front) - {key}| < MAX_AGGREGATE_KEYS
  {
    hide Tally, Elements, Admitted;
    var d := Elements(front);
    TallyKeys(front);
    if |d - {key}| < MAX_AGGREGATE_KEYS && key in d {
      SomewhereBefore(front, key);
    }
    if key !in d {
      assert d - {key} == d;
    }
    assert |Tally(front)| == |Tally(front).Keys|;
  }

  /** A key is in the map exactly when it was admitted, and then from its first occurrence on. */
  lemma {:induction false} TallyAdmits(keys: seq<string>, key: string)
    requires key != OTHER_KEY
    ensures key in Tally(keys) <==> Admitted(keys, key)
  {
    hide Elements, Admitted, Increment;
    if keys == [] {
      NeverAdmitted(key);
    } else {
      var front := keys[..|keys| - 1];
      TallyAdmits(front, key);
      AdmittedStep(keys, key);
      IncrementAdmits(Tally(front), Last(keys), key);
      if key !in Tally(front) {
        RoomLeft(front, key);
      }
    }
  }

  lemma NeverAdmitted(key: string)
    ensures !Admitted([], key)
  {
  }

  /** A key seen earlier was seen when no more different keys had been seen than now. */
  lemma SomewhereBefore(front: seq<string>, key: string)
    requires key in Elements(front) && |Elements(front) - {key}| < MAX_AGGREGATE_KEYS
    ensures Admitted(front, key)
  {
    var i :| 0 <= i < |front| && front[i] == key;
    var a, b := Elements(front[..i]) - {key}, Elements(front) - {key};
    assert a <= b;
    SubsetSize(a, b);
  }

  lemma {:induction false} TallyCounts(keys: seq<string>, key: string)
    requires |keys| <= MAX_U64 && key != OTHER_KEY && key in Tally(keys)
    ensures Tally(keys)[key] == Occurrences(keys, key)
  {
    var front := keys[..|keys| - 1];
    OccurrencesBound(front, key);
    if key in Tally(front) {
      TallyCounts(front, key);
    } else {
      FirstOccurrence(front, key);
    }
  }

  lemma {:induction false} OccurrencesBound(keys: seq<string>, key: string)
    ensures Occurrences(keys, key) <= |keys|
    ensures key !in keys ==> Occurrences(keys, key) == 0
  {
    if keys != [] {
      OccurrencesBound(keys[..|keys| - 1], key);
    }
  }

  /** A key that enters the map only now has never occurred: once refused, it is never admitted. */
  lemma FirstOccurrence(front: seq<string>, key: string)
    requires key != OTHER_KEY && key !in Tally(front) && |Tally(front)| < MAX_AGGREGATE_KEYS
    ensures Occurrences(front, key) == 0
  {
    TallyKeys(front);
    assert key !in Elements(front);
    OccurrencesBound(front, key);
  }

  /** Increments, among the first ones, whose key is "other" or is never admitted in the whole history. */
  ghost function Refusals(keys: seq<string>, history: seq<string>): nat {
    if keys == [] then 0
    else Refusals(keys[..|keys| - 1], history) + if Refused(Last(keys), history) then 1 else 0
  }

  ghost predicate Refused(key: string, history: seq<string>) {
    key == OTHER_KEY || !Admitted(history, key)
  }

  /** A key that has come up is never admitted later: it was at its first occurrence, or it never is. */
  lemma RefusedForGood(front: seq<string>, next: string, key: string)
    requires key in front
    ensures Refused(key, front) <==> Refused(key, front + [next])
  {
    hide Admitted;
    assert (front + [next])[..|front|] == front;
    AdmittedStep(front + [next], key);
    if key != OTHER_KEY && |Elements(front) - {key}| < MAX_AGGREGATE_KEYS {
      SomewhereBefore(front, key);
    }
  }

  lemma {:induction false} RefusalsExtend(keys: seq<string>, front: seq<string>, next: string)
    requires forall k :: k in keys ==> k in front
    ensures Refusals(keys, front + [next]) == Refusals(keys, front)
  {
    hide Refused;
    if keys != [] {
      assert Last(keys) in keys && forall k :: k in keys[..|keys| - 1] ==> k in keys;
      RefusalsExtend(keys[..|keys| - 1], front, next);
      RefusedForGood(front, next, Last(keys));
    }
  }

  function OtherCount(m: Counts): nat {
    if OTHER_KEY in m then m[OTHER_KEY] else 0
  }

  lemma OtherStep(m: Counts, k: string)
    ensures OtherCount(Increment(m, k)) ==
            if k == OTHER_KEY || k !in Increment(m, k) then SatAdd(OtherCount(m), 1) else OtherCount(m)
  {
  }

  /** "other" counts exactly the increments whose key is itself or was never admitted. */
  lemma {:induction false} OtherCountsRefusals(keys: seq<string>)
    requires |keys| <= MAX_U64
    ensures OtherCount(Tally(keys)) == Refusals(keys, keys) <= |keys|
  {
    hide Increment, Admitted, OtherCount;
    if keys == [] {
      assert OtherCount(map[]) == 0 by { NoOther(); }
    } else {
      var front, k := keys[..|keys| - 1], Last(keys);
      OtherCountsRefusals(front);
      RefusalsExtend(front, front, k);
      assert keys == front + [k];
      OtherStep(Tally(front), k);
      if k != OTHER_KEY {
        TallyAdmits(keys, k);
      }
    }
  }

  lemma NoOther()
    ensures OtherCount(map[]) == 0
  {
  }

  /**
   * Capped aggregates are exact: at most 101 keys, together counting every increment; a key other
   * than "other" is present exactly if it was admitted and then holds its number of occurrences in
   * the whole history; "other" holds the number of increments whose key is itself or was never admitted.
   */
  lemma TallyExact(keys: seq<string>)
    requires |keys| <= MAX_U64
    ensures var m := Tally(keys);
            && |m| <= MAX_AGGREGATE_KEYS + 1
            && Sum(m) == |keys|
            && (forall k :: k != OTHER_KEY ==> (k in m <==> Admitted(keys, k)))
            && (forall k :: k != OTHER_KEY && k in m ==> m[k] == Occurrences(keys, k))
            && OtherCount(m) == Refusals(keys, keys)
  {
    var m := Tally(keys);
    TallyKeys(keys);
    TallySum(keys);
    forall k | k != OTHER_KEY
      ensures k in m <==> Admitted(keys, k)
      ensures k in m ==> m[k] == Occurrences(keys, k)
    {
      TallyAdmits(keys, k);
      if k in m {
        TallyCounts(keys, k);
      }
    }
    OtherCountsRefusals(keys);
  }

  /** Few enough different keys are all counted exactly, "other" included. */
  lemma {:induction false} TallyUncapped(keys: seq<string>, key: string)
    requires |keys| <= MAX_U64 && Fits(keys)
    ensures (if key in Tally(keys) then Tally(keys)[key] else 0) == Occurrences(keys, key)
  {
    OccurrencesBound(keys, key);
    if keys != [] {
      var front := keys[..|keys| - 1];
      DistinctAppend(keys);
      SetGrows(Elements(front), Last(keys));
      TallyKeys(front);
      OccurrencesBound(front, key);
      TallyUncapped(front, key);
    }
  }

  /** A bounded queue holds the newest records in order. */
  function Recent<T>(history: seq<T>, limit: nat): seq<T> {
    if history == [] then [] else PushBounded(Recent(history[..|history| - 1], limit), Last(history), limit)
  }

  lemma SuffixGrows<T>(front: seq<T>, x: T, limit: nat)
    ensures PushBounded(front[|front| - Min(limit, |front|)..], x, limit)
         == (front + [x])[|front| + 1 - Min(limit, |front| + 1)..]
  {
  }

  lemma {:induction false} RecentIsSuffix<T>(history: seq<T>, limit: nat)
    ensures Recent(history, limit) == history[|history| - Min(limit, |history|)..]
  {
    if history != [] {
      var front := history[..|history| - 1];
      RecentIsSuffix(front, limit);
      SuffixGrows(front, Last(history), limit);
      assert history == front + [Last(history)];
    }
  }
}
