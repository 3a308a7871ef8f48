/** The bounded error log of src/error-tracker.ts. `Date.now()` is an explicit `now` parameter;
    timestamps are milliseconds since the epoch, hence natural numbers. */
module ErrorTracking {
  import opened Wrappers
  import Js

  datatype SpanError = SpanError(timestamp: nat, operation: string, error: Error, retryCount: int)

  const MaxErrors := 100
  const FiveMinutesMs := 5 * 60 * 1000

  /** The buffer after one append: the oldest entry is dropped once it holds more than `MaxErrors`. */
  function Keep(s: seq<SpanError>): seq<SpanError> {
    if |s| > MaxErrors then s[1..] else s
  }

  /** The buffer after a run of `track` calls, in order. */
  function TrackAll(s: seq<SpanError>, es: seq<SpanError>): seq<SpanError>
    decreases |es|
  {
    if es == [] then s else Keep(TrackAll(s, es[..|es| - 1]) + [es[|es| - 1]])
  }

  /** Whatever was tracked, a buffer that started within bounds holds exactly the most recent
      `MaxErrors` entries of everything it has seen, oldest first. */
  lemma {:induction false} TrackAllKeepsMostRecent(s: seq<SpanError>, es: seq<SpanError>)
    requires |s| <= MaxErrors
    ensures var all := s + es;
            TrackAll(s, es) == all[|all| - Js.Min(MaxErrors, |all|)..]
    decreases |es|
  {
    if es != [] {
      var prefix := es[..|es| - 1];
      var last := es[|es| - 1];
      TrackAllKeepsMostRecent(s, prefix);
      var before := s + prefix;
      var kept := before[|before| - Js.Min(MaxErrors, |before|)..];
      assert s + es == before + [last];
      var all := before + [last];
      assert kept + [last] == all[|before| - Js.Min(MaxErrors, |before|)..];
    }
  }

  /** The filter of `getErrorCount`: recent enough, and of the operation when one is given;
      an empty operation string is falsy and matches everything. */
  predicate Matches(e: SpanError, cutoff: int, operation: Option<string>) {
    e.timestamp >= cutoff && (!Js.TruthyOpt(operation) || e.operation == operation.value)
  }

  /** `errors.filter(...)`: every matching entry is kept as often as it occurs, and no other. */
  function Filter(errs: seq<SpanError>, cutoff: int, operation: Option<string>): (r: seq<SpanError>)
    ensures |r| <= |errs|
    ensures forall e :: e in r <==> e in errs && Matches(e, cutoff, operation)
    ensures forall e :: multiset(r)[e] == if Matches(e, cutoff, operation) then multiset(errs)[e] else 0
    decreases |errs|
  {
    if errs == [] then []
    else
      var rest := Filter(errs[..|errs| - 1], cutoff, operation);
      var last := errs[|errs| - 1];
      assert errs == errs[..|errs| - 1] + [last];
      assert multiset(errs) == multiset(errs[..|errs| - 1]) + multiset{last};
      if Matches(last, cutoff, operation) then rest + [last] else rest
  }

  lemma SplitLast(errs: seq<SpanError>)
    requires errs != []
    ensures errs[..|errs| - 1] + [errs[|errs| - 1]] == errs
  {
  }

  /** The positions of the entries `getErrorCount` counts. */
  function MatchingIndices(errs: seq<SpanError>, cutoff: int, operation: Option<string>): set<int> {
    set i | 0 <= i < |errs| && Matches(errs[i], cutoff, operation)
  }

  /** Appending one entry adds its position exactly when it matches. */
  lemma MatchingIndicesSnoc(prefix: seq<SpanError>, last: SpanError, cutoff: int, operation: Option<string>)
    ensures MatchingIndices(prefix + [last], cutoff, operation)
         == MatchingIndices(prefix, cutoff, operation) + (if Matches(last, cutoff, operation) then {|prefix|} else {})
  {
    var errs := prefix + [last];
    forall i | 0 <= i < |prefix| ensures errs[i] == prefix[i] { }
  }

  /** The filtered length is the number of positions holding a matching entry. */
  lemma {:induction false} FilterCountsMatchingIndices(errs: seq<SpanError>, cutoff: int, operation: Option<string>)
    ensures |Filter(errs, cutoff, operation)| == |MatchingIndices(errs, cutoff, operation)|
    decreases |errs|
  {
    if errs == [] {
      assert MatchingIndices(errs, cutoff, operation) == {};
    } else {
      var prefix, last := errs[..|errs| - 1], errs[|errs| - 1];
      assert errs == prefix + [last];
      FilterCountsMatchingIndices(prefix, cutoff, operation);
      MatchingIndicesSnoc(prefix, last, cutoff, operation);
      assert |prefix| !in MatchingIndices(prefix, cutoff, operation);
    }
  }

  /** The `cutoff` of `getErrorCount`: `now - sinceMs` when `sinceMs` is truthy, else 0. */
  function Cutoff(sinceMs: Option<int>, now: int): int {
    if sinceMs.Some? && sinceMs.value != 0 then now - sinceMs.value else 0
  }

  /** How many entries name `operation`. */
  function CountOp(errs: seq<SpanError>, operation: string): nat
    decreases |errs|
  {
    if errs == [] then 0
    else CountOp(errs[..|errs| - 1], operation) + (if errs[|errs| - 1].operation == operation then 1 else 0)
  }

  /** The `byOperation` record of `getStats`, built entry by entry (`(x || 0) + 1`). */
  function Tally(errs: seq<SpanError>): map<string, nat>
    decreases |errs|
  {
    if errs == [] then map[]
    else
      var t := Tally(errs[..|errs| - 1]);
      var op := errs[|errs| - 1].operation;
      t[op := (if op in t then t[op] else 0) + 1]
  }

  /** `byOperation` has a key for exactly the operations that occur, each mapped to its count. */
  lemma {:induction false} TallyCounts(errs: seq<SpanError>, operation: string)
    ensures operation in Tally(errs) <==> exists i :: 0 <= i < |errs| && errs[i].operation == operation
    ensures operation in Tally(errs) ==> Tally(errs)[operation] == CountOp(errs, operation)
    ensures operation !in Tally(errs) ==> CountOp(errs, operation) == 0
    decreases |errs|
  {
    if errs != [] {
      var prefix := errs[..|errs| - 1];
      TallyCounts(prefix, operation);
      if operation in Tally(errs) && errs[|errs| - 1].operation != operation {
        var i :| 0 <= i < |prefix| && prefix[i].operation == operation;
        assert errs[i] == prefix[i];
      }
      if exists i :: 0 <= i < |errs| && errs[i].operation == operation {
        var i :| 0 <= i < |errs| && errs[i].operation == operation;
        if i < |prefix| { assert prefix[i] == errs[i]; }
      }
    }
  }

  /** With no cutoff, counting by a non-empty operation is the same as counting its entries. */
  lemma {:induction false} FilterByOperationCounts(errs: seq<SpanError>, operation: string)
    requires operation != ""
    ensures |Filter(errs, 0, Some(operation))| == CountOp(errs, operation)
    decreases |errs|
  {
    if errs != [] {
      FilterByOperationCounts(errs[..|errs| - 1], operation);
    }
  }

  ghost function Pick(keys: set<string>): string
    requires keys != {}
  {
    var k :| k in keys; k
  }

  /** The sum of a record's values. */
  ghost function ValueSum(m: map<string, nat>): nat
    decreases |m.Keys|
  {
    if m.Keys == {} then 0
    else
      var k := Pick(m.Keys);
      m[k] + ValueSum(m - {k})
  }

  /** The sum does not depend on which key is taken out first. */
  lemma {:induction false} ValueSumWithout(m: map<string, nat>, k: string)
    requires k in m
    ensures ValueSum(m) == m[k] + ValueSum(m - {k})
    decreases |m.Keys|
  {
    var j := Pick(m.Keys);
    if j != k {
      var mj, mk := m - {j}, m - {k};
      assert ValueSum(m) == m[j] + ValueSum(mj);
      assert mj.Keys == m.Keys - {j} && mk.Keys == m.Keys - {k};
      assert ValueSum(mj) == m[k] + ValueSum(mj - {k}) by {
        assert k in mj && mj[k] == m[k];
        ValueSumWithout(mj, k);
      }
      assert ValueSum(mk) == m[j] + ValueSum(mk - {j}) by {
        assert j in mk && mk[j] == m[j];
        ValueSumWithout(mk, j);
      }
      assert mj - {k} == mk - {j};
    }
  }

  /** Adding one to a key's value (0 when absent) adds one to the sum. */
  lemma ValueSumIncrement(m: map<string, nat>, k: string)
    ensures ValueSum(m[k := (if k in m then m[k] else 0) + 1]) == ValueSum(m) + 1
  {
    var m' := m[k := (if k in m then m[k] else 0) + 1];
    ValueSumWithout(m', k);
    if k in m {
      ValueSumWithout(m, k);
      assert m' - {k} == m - {k};
    } else {
      assert m' - {k} == m;
    }
  }

  /** The per-operation counts add up to the number of entries. */
  lemma {:induction false} TallySumsToLength(errs: seq<SpanError>)
    ensures ValueSum(Tally(errs)) == |errs|
    decreases |errs|
  {
    if errs == [] {
      assert Tally(errs).Keys == {};
    } else {
      TallySumsToLength(errs[..|errs| - 1]);
      ValueSumIncrement(Tally(errs[..|errs| - 1]), errs[|errs| - 1].operation);
    }
  }

  datatype ErrorStats = ErrorStats(total: nat, recent5min: nat, byOperation: map<string, nat>)

  /** `SpanErrorTracker`. */
  class SpanErrorTracker {
    var errors: seq<SpanError>

    ghost predicate Valid()
      reads this
    {
      |errors| <= MaxErrors
    }

    constructor ()
      ensures errors == [] && Valid()
    {
      errors := [];
    }

    /** `track`: appends one timestamped entry and drops the oldest beyond `MaxErrors`. */
    method Track(now: nat, operation: string, error: Error, retryCount: int := 0)
      requires Valid()
      modifies this
      ensures Valid()
      ensures errors == Keep(old(errors) + [SpanError(now, operation, error, retryCount)])
      ensures errors == TrackAll(old(errors), [SpanError(now, operation, error, retryCount)])
    {
      errors := errors + [SpanError(now, operation, error, retryCount)];
      if |errors| > MaxErrors {
        errors := errors[1..];
      }
    }

    /** `getRecentErrors`: `slice(-count)`, so the last `count` entries for a positive count, every
        entry for 0, and all but the first `-count` for a negative count. */
    function RecentErrors(count: int := 10): (r: seq<SpanError>)
      reads this
      ensures count >= 1 ==> r == errors[|errors| - Js.Min(count, |errors|)..]
      ensures count == 0 ==> r == errors
      ensures count < 0 ==> r == if -count <= |errors| then errors[-count..] else []
    {
      Js.SliceFrom(errors, -count)
    }

    /** `getErrorCount`. */
    function ErrorCount(now: int, operation: Option<string> := None, sinceMs: Option<int> := None): (c: nat)
      reads this
      ensures c <= |errors|
      ensures c == |MatchingIndices(errors, Cutoff(sinceMs, now), operation)|
      ensures !Js.TruthyOpt(operation) && Cutoff(sinceMs, now) <= 0 ==> c == |errors|
    {
      FilterUnfilteredKeepsAll(errors, Cutoff(sinceMs, now), operation);
      FilterCountsMatchingIndices(errors, Cutoff(sinceMs, now), operation);
      |Filter(errors, Cutoff(sinceMs, now), operation)|
    }

    /** `clear`. */
    method Clear()
      requires Valid()
      modifies this
      ensures Valid() && errors == []
    {
      errors := [];
    }

    /** `getStats`: the total, the count of the last five minutes, and the per-operation tally. */
    method GetStats(now: int) returns (stats: ErrorStats)
      ensures stats.total == |errors|
      ensures stats.recent5min == ErrorCount(now, None, Some(FiveMinutesMs))
      ensures stats.recent5min <= stats.total
      ensures stats.byOperation == Tally(errors)
      ensures forall op :: op in stats.byOperation ==> stats.byOperation[op] == CountOp(errors, op)
      ensures ValueSum(stats.byOperation) == stats.total
    {
      var total := |errors|;
      var recent := ErrorCount(now, None, Some(FiveMinutesMs));
      var byOperation: map<string, nat> := map[];
      var i := 0;
      while i < |errors|
        invariant 0 <= i <= |errors|
        invariant byOperation == Tally(errors[..i])
      {
        var op := errors[i].operation;
        byOperation := byOperation[op := (if op in byOperation then byOperation[op] else 0) + 1];
        assert errors[..i + 1][..i] == errors[..i];
        i := i + 1;
      }
      assert errors[..i] == errors;
      assert forall op :: op in byOperation ==> byOperation[op] == CountOp(errors, op) by {
        forall op | op in byOperation
          ensures byOperation[op] == CountOp(errors, op)
        {
          TallyCounts(errors, op);
        }
      }
      assert ValueSum(byOperation) == total by { TallySumsToLength(errors); }
      stats := ErrorStats(total, recent, byOperation);
    }
  }

  /** When neither filter applies, every entry is counted. */
  lemma {:induction false} FilterUnfilteredKeepsAll(errs: seq<SpanError>, cutoff: int, operation: Option<string>)
    ensures !Js.TruthyOpt(operation) && cutoff <= 0 ==> Filter(errs, cutoff, operation) == errs
    decreases |errs|
  {
    if errs != [] && !Js.TruthyOpt(operation) && cutoff <= 0 {
      var prefix, last := errs[..|errs| - 1], errs[|errs| - 1];
      FilterUnfilteredKeepsAll(prefix, cutoff, operation);
      assert Matches(last, cutoff, operation);
      calc {
        Filter(errs, cutoff, operation);
        Filter(prefix, cutoff, operation) + [last];
        prefix + [last];
        { SplitLast(errs); }
        errs;
      }
    }
  }

  /** Counting one non-empty operation over all time agrees with that operation's entry in the
      statistics, and is 0 for an operation the statistics do not list. */
  lemma ErrorCountAgreesWithStats(tracker: SpanErrorTracker, now: int, operation: string)
    requires operation != ""
    ensures var c := tracker.ErrorCount(now, Some(operation), None);
      && (operation in Tally(tracker.errors) ==> c == Tally(tracker.errors)[operation])
      && (operation !in Tally(tracker.errors) ==> c == 0)
  {
    FilterByOperationCounts(tracker.errors, operation);
    TallyCounts(tracker.errors, operation);
  }

  /** After `clear`, every count is 0, whatever the filters. */
  lemma ClearedCountsAreZero(tracker: SpanErrorTracker, now: int, operation: Option<string>, sinceMs: Option<int>)
    requires tracker.errors == []
    ensures tracker.ErrorCount(now, operation, sinceMs) == 0
    ensures tracker.RecentErrors() == []
  {
  }
}
