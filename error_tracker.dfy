/**
 * The read side of the error tracker: taking the last records of the JSON-lines
 * error log, and the statistics over them (how often each error type and each
 * operation occurs, how many users are affected, and the most frequent type and
 * operation). Reading the file and parsing JSON are not modelled: the log arrives
 * as a sequence of lines, each already parsed or marked unparseable.
 */
module ErrorTracker {
  import opened Wrappers

  /** One parsed line of the log; a key missing from the JSON object is `None`. */
  datatype ErrorRecord = ErrorRecord(errorType: Option<string>, operation: Option<string>, userId: Option<int>)

  /** A line of the log: its record, or `None` when it is not valid JSON. */
  type LogLine = Option<ErrorRecord>

  /** How many records `GetErrorStatistics` looks at. */
  const StatisticsWindow: int := 100

  function MinInt(a: int, b: int): int {
    if a <= b then a else b
  }

  // ---------------------------------------------------------------------------
  // Recent errors

  /** Python's `lines[-limit:]`: with a positive limit the last `limit` lines, with 0 all of them. */
  function LastLines<T>(lines: seq<T>, limit: int): (r: seq<T>)
    ensures limit > 0 ==> |r| == MinInt(limit, |lines|) && r == lines[|lines| - |r|..]
    ensures limit == 0 ==> r == lines
    ensures limit < 0 ==> r == lines[MinInt(-limit, |lines|)..]
  {
    var start := -limit;
    if start >= 0 then lines[MinInt(start, |lines|)..]
    else if |lines| + start >= 0 then lines[|lines| + start..]
    else lines
  }

  /** The records of the lines that parse, in order. */
  function Parsed(lines: seq<LogLine>): (errors: seq<ErrorRecord>)
    ensures |errors| <= |lines|
  {
    if lines == [] then []
    else
      var init := Parsed(lines[..|lines| - 1]);
      match lines[|lines| - 1]
      case Some(e) => init + [e]
      case None => init
  }

  /** Exactly the records of the parseable lines make it into `Parsed`. */
  lemma {:induction false} ParsedContents(lines: seq<LogLine>)
    ensures forall e :: e in Parsed(lines) <==> Some(e) in lines
  {
    if lines != [] {
      var init := lines[..|lines| - 1];
      ParsedContents(init);
      assert lines == init + [lines[|lines| - 1]];
    }
  }

  /** `get_recent_errors`: parse the last `limit` lines, skipping those that fail. */
  method GetRecentErrors(lines: seq<LogLine>, limit: int) returns (errors: seq<ErrorRecord>)
    ensures errors == Parsed(LastLines(lines, limit))
  {
    var window := LastLines(lines, limit);
    errors := [];
    var i := 0;
    while i < |window|
      invariant 0 <= i <= |window|
      invariant errors == Parsed(window[..i])
    {
      assert window[..i + 1][..i] == window[..i];
      match window[i] {
        case Some(e) => errors := errors + [e];
        case None =>
      }
      i := i + 1;
    }
    assert window[..i] == window;
  }

  /** With a positive limit, at most `limit` records come back, each from one of the last `limit` lines. */
  lemma RecentErrorsBounded(lines: seq<LogLine>, limit: int)
    requires limit > 0
    ensures var errors := Parsed(LastLines(lines, limit));
      && |errors| <= limit
      && forall e :: e in errors ==> Some(e) in lines[|lines| - MinInt(limit, |lines|)..]
  {
    ParsedContents(LastLines(lines, limit));
  }

  // ---------------------------------------------------------------------------
  // Counting in insertion order

  /**
   * A Python dict from keys to counts, which remembers the order in which keys
   * were first inserted: a sequence of (key, count) pairs with distinct keys.
   */
  type Tally<K> = seq<(K, nat)>

  function Keys<K>(t: Tally<K>): (ks: seq<K>)
    ensures |ks| == |t| && forall i :: 0 <= i < |t| ==> ks[i] == t[i].0
  {
    seq(|t|, i requires 0 <= i < |t| => t[i].0)
  }

  predicate DistinctKeys<K(==)>(t: Tally<K>) {
    forall i, j :: 0 <= i < j < |t| ==> t[i].0 != t[j].0
  }

  /** Position of key `k`, or -1 when it is absent. */
  function IndexOfKey<K(==)>(t: Tally<K>, k: K): (i: int)
    ensures -1 <= i < |t|
    ensures i >= 0 ==> t[i].0 == k
    ensures i == -1 <==> k !in Keys(t)
  {
    if t == [] then -1
    else if t[0].0 == k then 0
    else
      var i := IndexOfKey(t[1..], k);
      assert Keys(t) == [t[0].0] + Keys(t[1..]);
      if i == -1 then -1 else i + 1
  }

  /** `d.get(k, 0)`. */
  function CountIn<K(==)>(t: Tally<K>, k: K): nat {
    var i := IndexOfKey(t, k);
    if i == -1 then 0 else t[i].1
  }

  /** `d[k] = d.get(k, 0) + 1`: count up in place, or insert at the end with count 1. */
  function Bump<K(==)>(t: Tally<K>, k: K): (r: Tally<K>)
    ensures Total(r) == Total(t) + 1
  {
    var i := IndexOfKey(t, k);
    if i == -1 then
      TotalAppend(t, (k, 1));
      t + [(k, 1)]
    else
      TotalIncrement(t, i, (k, t[i].1 + 1));
      t[i := (k, t[i].1 + 1)]
  }

  /** The sum of all counts. */
  function Total<K>(t: Tally<K>): nat {
    if t == [] then 0 else Total(t[..|t| - 1]) + t[|t| - 1].1
  }

  /** The dict built by counting `ks` one after the other. */
  function TallyOf<K(==)>(ks: seq<K>): (t: Tally<K>)
    ensures DistinctKeys(t)
  {
    if ks == [] then []
    else
      var init := TallyOf(ks[..|ks| - 1]);
      BumpShape(init, ks[|ks| - 1]);
      Bump(init, ks[|ks| - 1])
  }

  /** Counting one more key is one more bump. */
  lemma TallyOfSnoc<K>(ks: seq<K>, k: K)
    ensures TallyOf(ks + [k]) == Bump(TallyOf(ks), k)
  {
    assert (ks + [k])[..|ks|] == ks;
  }

  /** The distinct elements of `ks` in the order of their first occurrence. */
  function FirstOccurrences<K(==)>(ks: seq<K>): seq<K> {
    if ks == [] then []
    else
      var d := FirstOccurrences(ks[..|ks| - 1]);
      if ks[|ks| - 1] in d then d else d + [ks[|ks| - 1]]
  }

  lemma {:induction false} TotalAppend<K>(t: Tally<K>, p: (K, nat))
    ensures Total(t + [p]) == Total(t) + p.1
  {
    assert (t + [p])[..|t|] == t;
  }

  lemma {:induction false} TotalIncrement<K>(t: Tally<K>, i: int, p: (K, nat))
    requires 0 <= i < |t| && p.1 == t[i].1 + 1
    ensures Total(t[i := p]) == Total(t) + 1
    decreases |t|
  {
    var last := |t| - 1;
    if i == last {
      assert t[i := p][..last] == t[..last];
    } else {
      assert t[i := p][..last] == t[..last][i := p];
      TotalIncrement(t[..last], i, p);
    }
  }

  /** With distinct keys, the position of a key is where it stands. */
  lemma IndexOfKeyUnique<K>(t: Tally<K>, x: K, j: int)
    requires DistinctKeys(t) && 0 <= j < |t| && t[j].0 == x
    ensures IndexOfKey(t, x) == j
  {
    assert Keys(t)[j] == x;
  }

  /** Bumping an existing key keeps the keys; bumping a new one appends it. */
  lemma BumpKeys<K>(t: Tally<K>, k: K)
    ensures Keys(Bump(t, k)) == if k in Keys(t) then Keys(t) else Keys(t) + [k]
  {
    var i := IndexOfKey(t, k);
    if i == -1 {
      assert Keys(t + [(k, 1)]) == Keys(t) + [k];
    } else {
      assert Keys(t[i := (k, t[i].1 + 1)]) == Keys(t);
    }
  }

  /** Bumping keeps the keys distinct. */
  lemma BumpShape<K>(t: Tally<K>, k: K)
    requires DistinctKeys(t)
    ensures DistinctKeys(Bump(t, k))
  {
    var t' := Bump(t, k);
    BumpKeys(t, k);
    forall i, j | 0 <= i < j < |t'| ensures t'[i].0 != t'[j].0 {
      assert Keys(t')[i] == t'[i].0 && Keys(t')[j] == t'[j].0;
      if j < |t| {
        assert Keys(t)[i] == t[i].0 && Keys(t)[j] == t[j].0;
      }
    }
  }

  /** Bumping `k` adds one to the count of `k` and leaves every other count alone. */
  lemma BumpCount<K>(t: Tally<K>, k: K, x: K)
    requires DistinctKeys(t)
    ensures CountIn(Bump(t, k), x) == CountIn(t, x) + (if x == k then 1 else 0)
  {
    BumpShape(t, k);
    var t' := Bump(t, k);
    var i := IndexOfKey(t, k);
    var j := IndexOfKey(t, x);
    if j >= 0 {
      IndexOfKeyUnique(t', x, j);
      if x == k { assert j == i; } else { assert j != i; }
    } else if x == k {
      IndexOfKeyUnique(t', k, |t|);
    } else {
      assert x !in Keys(t');
    }
  }

  /**
   * Counting a sequence yields one entry per distinct element, in the order of
   * first occurrence, each with the number of times it occurs; the counts add up
   * to the length of the sequence.
   */
  lemma {:induction false} TallyOfCorrect<K>(ks: seq<K>)
    ensures var t := TallyOf(ks);
      && DistinctKeys(t)
      && Keys(t) == FirstOccurrences(ks)
      && (forall k :: CountIn(t, k) == multiset(ks)[k])
      && Total(t) == |ks|
  {
    if ks != [] {
      var init, k := ks[..|ks| - 1], ks[|ks| - 1];
      assert ks == init + [k];
      TallyOfCorrect(init);
      var t := TallyOf(init);
      BumpShape(t, k);
      forall x ensures CountIn(Bump(t, k), x) == multiset(ks)[x] {
        BumpCount(t, k, x);
      }
    }
  }

  // ---------------------------------------------------------------------------
  // The most frequent key

  /** Where Python's `max(d.items(), key=count)` stops: a largest count, the first one on ties. */
  function FirstMaxIndex<K>(t: Tally<K>): (i: nat)
    requires |t| > 0
    ensures i < |t|
    ensures forall j :: 0 <= j < |t| ==> t[j].1 <= t[i].1
    ensures forall j :: 0 <= j < i ==> t[j].1 < t[i].1
  {
    if |t| == 1 then 0
    else
      var best := FirstMaxIndex(t[..|t| - 1]);
      if t[|t| - 1].1 > t[best].1 then |t| - 1 else best
  }

  /** The key with the largest count, first on ties, or `None` for an empty dict. */
  function MostCommon<K>(t: Tally<K>): (r: Option<K>)
    ensures r.None? <==> t == []
  {
    if t == [] then None else Some(t[FirstMaxIndex(t)].0)
  }

  // ---------------------------------------------------------------------------
  // Statistics

  /** `{'total': 0}` for no records, otherwise the full summary. */
  datatype Statistics =
    | NoErrors
    | Summary(total: nat, errorTypes: Tally<string>, operations: Tally<string>, affectedUsers: nat,
              mostCommonError: Option<string>, mostProblematicOperation: Option<string>)

  /** `error.get('error_type', 'Unknown')`. */
  function TypeOf(e: ErrorRecord): string {
    e.errorType.GetOr("Unknown")
  }

  /** `error.get('operation', 'unknown')`. */
  function OperationOf(e: ErrorRecord): string {
    e.operation.GetOr("unknown")
  }

  /** `if user_id:` — a present, non-zero user id. */
  predicate HasUser(e: ErrorRecord) {
    e.userId.Some? && e.userId.value != 0
  }

  function Types(errors: seq<ErrorRecord>): (r: seq<string>)
    ensures |r| == |errors| && forall i :: 0 <= i < |errors| ==> r[i] == TypeOf(errors[i])
  {
    if errors == [] then [] else Types(errors[..|errors| - 1]) + [TypeOf(errors[|errors| - 1])]
  }

  function Operations(errors: seq<ErrorRecord>): (r: seq<string>)
    ensures |r| == |errors| && forall i :: 0 <= i < |errors| ==> r[i] == OperationOf(errors[i])
  {
    if errors == [] then [] else Operations(errors[..|errors| - 1]) + [OperationOf(errors[|errors| - 1])]
  }

  /** The distinct users that appear with a truthy id. */
  function Users(errors: seq<ErrorRecord>): set<int> {
    set e | e in errors && HasUser(e) :: e.userId.value
  }

  /** What `get_error_statistics` computes from the records. */
  function StatisticsOf(errors: seq<ErrorRecord>): (s: Statistics)
    ensures s == NoErrors <==> errors == []
  {
    if errors == [] then NoErrors
    else
      var types := TallyOf(Types(errors));
      var operations := TallyOf(Operations(errors));
      Summary(|errors|, types, operations, |Users(errors)|, MostCommon(types), MostCommon(operations))
  }

  lemma {:induction false} UsersBounded(errors: seq<ErrorRecord>)
    ensures |Users(errors)| <= |errors|
  {
    if errors != [] {
      var init := errors[..|errors| - 1];
      UsersBounded(init);
      assert errors == init + [errors[|errors| - 1]];
      var last := errors[|errors| - 1];
      UsersSnoc(init, last);
      if HasUser(last) {
        assert |Users(init) + {last.userId.value}| <= |Users(init)| + 1;
      }
    }
  }

  lemma UsersSnoc(errors: seq<ErrorRecord>, e: ErrorRecord)
    ensures Users(errors + [e]) == Users(errors) + (if HasUser(e) then {e.userId.value} else {})
  {
    assert forall x :: x in errors + [e] <==> x in errors || x == e;
  }

  /** Appending one record extends the keys and users by that record's. */
  lemma Snoc(errors: seq<ErrorRecord>, n: int)
    requires 0 <= n < |errors|
    ensures errors[..n + 1] == errors[..n] + [errors[n]]
    ensures Types(errors[..n + 1]) == Types(errors[..n]) + [TypeOf(errors[n])]
    ensures Operations(errors[..n + 1]) == Operations(errors[..n]) + [OperationOf(errors[n])]
    ensures Users(errors[..n + 1]) == Users(errors[..n]) + (if HasUser(errors[n]) then {errors[n].userId.value} else {})
  {
    assert errors[..n + 1] == errors[..n] + [errors[n]];
    UsersSnoc(errors[..n], errors[n]);
  }

  /** Counting one more record bumps each dict once and may add its user. */
  lemma TalliesStep(errors: seq<ErrorRecord>, n: int)
    requires 0 <= n < |errors|
    ensures TallyOf(Types(errors[..n + 1])) == Bump(TallyOf(Types(errors[..n])), TypeOf(errors[n]))
    ensures TallyOf(Operations(errors[..n + 1])) == Bump(TallyOf(Operations(errors[..n])), OperationOf(errors[n]))
    ensures Users(errors[..n + 1]) == Users(errors[..n]) + (if HasUser(errors[n]) then {errors[n].userId.value} else {})
  {
    Snoc(errors, n);
    TallyOfSnoc(Types(errors[..n]), TypeOf(errors[n]));
    TallyOfSnoc(Operations(errors[..n]), OperationOf(errors[n]));
  }

  /**
   * The summary's numbers agree with the records: the total is their number, each
   * dict counts every record once under its key (missing keys as "Unknown" and
   * "unknown"), at most that many users are affected, and the most common error
   * type and operation have the largest count, the earliest first-seen on ties.
   */
  lemma StatisticsConsistent(errors: seq<ErrorRecord>)
    requires errors != []
    ensures var s := StatisticsOf(errors);
      && s.total == |errors|
      && Total(s.errorTypes) == s.total && Total(s.operations) == s.total
      && (forall k :: CountIn(s.errorTypes, k) == multiset(Types(errors))[k])
      && (forall k :: CountIn(s.operations, k) == multiset(Operations(errors))[k])
      && Keys(s.errorTypes) == FirstOccurrences(Types(errors))
      && Keys(s.operations) == FirstOccurrences(Operations(errors))
      && s.affectedUsers <= s.total
      && s.mostCommonError.Some? && s.mostProblematicOperation.Some?
  {
    var types, operations := Types(errors), Operations(errors);
    var s := StatisticsOf(errors);
    assert s.errorTypes == TallyOf(types) && s.operations == TallyOf(operations);
    TallyOfCorrect(types);
    TallyOfCorrect(operations);
    forall k ensures CountIn(s.errorTypes, k) == multiset(types)[k] && CountIn(s.operations, k) == multiset(operations)[k] {
    }
    assert s.errorTypes != [] && s.operations != [];
    UsersBounded(errors);
  }

  /**
   * `k` is what `max` over the counted dict of `ks` picks: an element of `ks`
   * occurring at least as often as any other, and every other element occurring
   * as often was first seen after it.
   */
  predicate FirstMaximal<K(==)>(ks: seq<K>, k: K) {
    var order := FirstOccurrences(ks);
    && k in order
    && (forall i :: 0 <= i < |ks| ==> multiset(ks)[ks[i]] <= multiset(ks)[k])
    && (forall j :: 0 <= j < |order| && order[j] != k && multiset(ks)[order[j]] == multiset(ks)[k] ==>
          exists i :: 0 <= i < j && order[i] == k)
  }

  /** On a dict with distinct keys, the first maximal entry's count bounds every count, earlier ones strictly. */
  lemma FirstMaxOfTally<K>(t: Tally<K>)
    requires DistinctKeys(t) && t != []
    ensures var m := FirstMaxIndex(t);
      && CountIn(t, t[m].0) == t[m].1
      && (forall x :: CountIn(t, x) <= t[m].1)
      && (forall j :: 0 <= j < |t| && t[j].0 != t[m].0 && CountIn(t, t[j].0) == t[m].1 ==> m < j)
  {
    var m := FirstMaxIndex(t);
    IndexOfKeyUnique(t, t[m].0, m);
    forall j | 0 <= j < |t| ensures CountIn(t, t[j].0) == t[j].1 {
      IndexOfKeyUnique(t, t[j].0, j);
    }
  }

  /** The most common element of a non-empty sequence, as counted, is its first maximal one. */
  lemma MostCommonIsFirstMaximal<K>(ks: seq<K>)
    requires ks != []
    ensures MostCommon(TallyOf(ks)).Some? && FirstMaximal(ks, MostCommon(TallyOf(ks)).value)
  {
    var t := TallyOf(ks);
    TallyOfCorrect(ks);
    assert |Keys(t)| == |FirstOccurrences(ks)|;
    assert t != [] by {
      assert ks[0] in multiset(ks);
      assert CountIn(t, ks[0]) > 0;
    }
    FirstMaxOfTally(t);
    var m := FirstMaxIndex(t);
    assert Keys(t)[m] == t[m].0;
    forall j | 0 <= j < |t| && t[j].0 != t[m].0 && multiset(ks)[t[j].0] == multiset(ks)[t[m].0]
      ensures exists i :: 0 <= i < j && Keys(t)[i] == t[m].0
    {
      assert Keys(t)[m] == t[m].0;
    }
  }

  /**
   * The most common error type and the most problematic operation are each the
   * first maximal one of their kind: no other occurs more often, and any that
   * occurs as often was first seen later.
   */
  lemma MostCommonAreFirstMaximal(errors: seq<ErrorRecord>)
    requires errors != []
    ensures FirstMaximal(Types(errors), StatisticsOf(errors).mostCommonError.value)
    ensures FirstMaximal(Operations(errors), StatisticsOf(errors).mostProblematicOperation.value)
  {
    MostCommonIsFirstMaximal(Types(errors));
    MostCommonIsFirstMaximal(Operations(errors));
  }

  /** The loop of `get_error_statistics`: count types and operations, and collect the users. */
  method CountErrors(errors: seq<ErrorRecord>) returns (errorTypes: Tally<string>, operations: Tally<string>, users: map<int, nat>)
    ensures errorTypes == TallyOf(Types(errors))
    ensures operations == TallyOf(Operations(errors))
    ensures users.Keys == Users(errors)
  {
    errorTypes, operations, users := [], [], map[];
    assert errors[..0] == [] && Types([]) == [] && Operations([]) == [];
    var n := 0;
    while n < |errors|
      invariant 0 <= n <= |errors|
      invariant errorTypes == TallyOf(Types(errors[..n]))
      invariant operations == TallyOf(Operations(errors[..n]))
      invariant users.Keys == Users(errors[..n])
    {
      var error := errors[n];
      TalliesStep(errors, n);
      errorTypes := Bump(errorTypes, TypeOf(error));
      operations := Bump(operations, OperationOf(error));
      if HasUser(error) {
        var userId := error.userId.value;
        users := users[userId := (if userId in users then users[userId] else 0) + 1];
      }
      n := n + 1;
    }
    assert errors[..n] == errors;
  }

  /** `get_error_statistics`: the statistics of the last 100 records of the log. */
  method GetErrorStatistics(lines: seq<LogLine>) returns (stats: Statistics)
    ensures stats == StatisticsOf(Parsed(LastLines(lines, StatisticsWindow)))
  {
    var errors := GetRecentErrors(lines, StatisticsWindow);
    if errors == [] {
      return NoErrors;
    }
    var errorTypes, operations, users := CountErrors(errors);
    stats := Summary(|errors|, errorTypes, operations, |users|,
                     MostCommon(errorTypes), MostCommon(operations));
  }
}
