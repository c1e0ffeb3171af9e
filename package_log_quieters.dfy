/**
 * The package quieter: sets the level of each logger named in a table, so
 * that chatty third-party libraries log only what matters.
 */
module PackageLogQuieters {
  import opened Wrappers
  import opened Levels
  import opened StdLogging

  /** A `dict[str, int]` of logger names to levels, as its items in insertion order. */
  type LevelTable = seq<(string, int)>

  const DEFAULT_NOISY_PACKAGES: LevelTable := [
    ("tzlocal", WARNING), ("matplotlib", WARNING), ("httpx", WARNING), ("asyncio", WARNING),
    ("websockets", INFO), ("websocket", INFO), ("watchfiles", WARNING), ("httpcore", WARNING),
    ("urllib3", WARNING), ("comtypes", WARNING), ("uvicorn", WARNING)]

  /** No name occurs twice, as in every dictionary. */
  predicate DistinctNames(t: LevelTable) {
    forall i, j | 0 <= i < j < |t| :: t[i].0 != t[j].0
  }

  /** `name` is a key of `t`. */
  predicate HasName(t: LevelTable, name: string) {
    exists i | 0 <= i < |t| :: t[i].0 == name
  }

  /** `t[name]`, or None without that key; of repeated names the last one counts. */
  function Lookup(t: LevelTable, name: string): (r: Option<int>)
    ensures r.Some? <==> HasName(t, name)
    ensures r.Some? ==> (name, r.value) in t
  {
    if t == [] then None
    else if t[|t| - 1].0 == name then Some(t[|t| - 1].1)
    else
      var r := Lookup(t[..|t| - 1], name);
      assert forall i | 0 <= i < |t| - 1 :: t[..|t| - 1][i] == t[i];
      r
  }

  /** `m.get(k)`. */
  function Get(m: map<string, int>, k: string): Option<int> {
    if k in m then Some(m[k]) else None
  }

  /** The named loggers' levels after the table has been applied in order. */
  function QuietedLevels(levels: map<string, int>, t: LevelTable): map<string, int> {
    if t == [] then levels
    else
      var prior := QuietedLevels(levels, t[..|t| - 1]);
      var (name, level) := t[|t| - 1];
      if NamesRoot(name) then prior else prior[name := level]
  }

  /** The root logger's level after the table has been applied in order. */
  function QuietedRootLevel(rootLevel: int, t: LevelTable): int {
    if t == [] then rootLevel
    else if NamesRoot(t[|t| - 1].0) then t[|t| - 1].1
    else QuietedRootLevel(rootLevel, t[..|t| - 1])
  }

  /**
   * `suppress_noisy_package_logs`: `getLogger(name).setLevel(level)` for
   * every item of the table, in order.
   */
  method SuppressNoisyPackageLogs(logging: LoggingState, packages: LevelTable)
    modifies logging`rootLevel, logging`loggerLevels
    ensures logging.loggerLevels == QuietedLevels(old(logging.loggerLevels), packages)
    ensures logging.rootLevel == QuietedRootLevel(old(logging.rootLevel), packages)
  {
    for i := 0 to |packages|
      invariant logging.loggerLevels == QuietedLevels(old(logging.loggerLevels), packages[..i])
      invariant logging.rootLevel == QuietedRootLevel(old(logging.rootLevel), packages[..i])
    {
      var (name, level) := packages[i];
      assert packages[..i + 1][..i] == packages[..i];
      logging.SetLoggerLevel(name, level);
    }
    assert packages[..|packages|] == packages;
  }

  /**
   * What the quieter leaves a named logger at: the table's level for it
   * when the table names it, its earlier level otherwise. The root logger's
   * names never enter the named levels.
   */
  lemma {:induction false} QuietedLookup(levels: map<string, int>, t: LevelTable, name: string)
    ensures !NamesRoot(name) ==>
      Get(QuietedLevels(levels, t), name) == if HasName(t, name) then Lookup(t, name) else Get(levels, name)
    ensures NamesRoot(name) ==> Get(QuietedLevels(levels, t), name) == Get(levels, name)
  {
    if t != [] {
      QuietedLookup(levels, t[..|t| - 1], name);
    }
  }

  /** The root logger changes only through an item naming it, and then to such an item's level; `LastRootAliasWins` says which one. */
  lemma {:induction false} QuietedRoot(rootLevel: int, t: LevelTable)
    ensures (forall i | 0 <= i < |t| :: !NamesRoot(t[i].0)) ==> QuietedRootLevel(rootLevel, t) == rootLevel
    ensures QuietedRootLevel(rootLevel, t) != rootLevel ==> exists i | 0 <= i < |t| :: t[i] == (t[i].0, QuietedRootLevel(rootLevel, t)) && NamesRoot(t[i].0)
  {
    if t != [] {
      QuietedRoot(rootLevel, t[..|t| - 1]);
      if !NamesRoot(t[|t| - 1].0) && QuietedRootLevel(rootLevel, t) != rootLevel {
        var i :| 0 <= i < |t| - 1 && t[..|t| - 1][i] == (t[..|t| - 1][i].0, QuietedRootLevel(rootLevel, t[..|t| - 1])) && NamesRoot(t[..|t| - 1][i].0);
        assert t[i] == t[..|t| - 1][i];
      }
    }
  }

  /**
   * Of the items naming the root logger ("" or "root"), the last one sets
   * its level, and both of its names then report that level.
   */
  lemma {:induction false} LastRootAliasWins(rootLevel: int, levels: map<string, int>, t: LevelTable, k: nat)
    requires k < |t| && NamesRoot(t[k].0)
    requires forall j | k < j < |t| :: !NamesRoot(t[j].0)
    ensures QuietedRootLevel(rootLevel, t) == t[k].1
    ensures LoggerLevel(QuietedRootLevel(rootLevel, t), QuietedLevels(levels, t), "") == t[k].1
    ensures LoggerLevel(QuietedRootLevel(rootLevel, t), QuietedLevels(levels, t), ROOT_LOGGER_NAME) == t[k].1
  {
    if k < |t| - 1 {
      var prefix := t[..|t| - 1];
      assert prefix[k] == t[k];
      forall j | k < j < |prefix|
        ensures !NamesRoot(prefix[j].0)
      {
        assert prefix[j] == t[j];
      }
      LastRootAliasWins(rootLevel, levels, prefix, k);
    }
  }

  /** In a dictionary, the value stored at an item's position is what looking up its name gives. */
  lemma {:induction false} LookupItem(t: LevelTable, k: nat)
    requires DistinctNames(t) && k < |t|
    ensures Lookup(t, t[k].0) == Some(t[k].1)
  {
    if k < |t| - 1 {
      assert t[..|t| - 1][k] == t[k];
      LookupItem(t[..|t| - 1], k);
    }
  }

  /** Every logger the table names, other than the root's "" and "root", ends at the table's level for it. */
  lemma SuppressSetsEach(rootLevel: int, levels: map<string, int>, t: LevelTable, k: nat)
    requires DistinctNames(t) && k < |t| && !NamesRoot(t[k].0)
    ensures LoggerLevel(QuietedRootLevel(rootLevel, t), QuietedLevels(levels, t), t[k].0) == t[k].1
  {
    LookupItem(t, k);
    QuietedLookup(levels, t, t[k].0);
  }

  /** A logger the table does not name keeps its level; an empty table changes nothing. */
  lemma SuppressKeepsOthers(rootLevel: int, levels: map<string, int>, t: LevelTable, name: string)
    requires !HasName(t, name) && !NamesRoot(name)
    ensures LoggerLevel(QuietedRootLevel(rootLevel, t), QuietedLevels(levels, t), name)
            == LoggerLevel(rootLevel, levels, name)
  {
    QuietedLookup(levels, t, name);
  }

  /** Two maps that agree on every lookup are equal. */
  lemma MapsAgree(a: map<string, int>, b: map<string, int>)
    requires forall k :: Get(a, k) == Get(b, k)
    ensures a == b
  {
    assert forall k :: k in a <==> Get(a, k).Some?;
    assert a.Keys == b.Keys;
  }

  /** Applying the same table twice leaves every logger as applying it once. */
  lemma SuppressIdempotent(rootLevel: int, levels: map<string, int>, t: LevelTable)
    ensures QuietedLevels(QuietedLevels(levels, t), t) == QuietedLevels(levels, t)
    ensures QuietedRootLevel(QuietedRootLevel(rootLevel, t), t) == QuietedRootLevel(rootLevel, t)
  {
    var once := QuietedLevels(levels, t);
    forall k
      ensures Get(QuietedLevels(once, t), k) == Get(once, k)
    {
      QuietedLookup(levels, t, k);
      QuietedLookup(once, t, k);
    }
    MapsAgree(QuietedLevels(once, t), once);
    QuietedRootTwice(rootLevel, t);
  }

  lemma {:induction false} QuietedRootTwice(rootLevel: int, t: LevelTable)
    ensures QuietedRootLevel(QuietedRootLevel(rootLevel, t), t) == QuietedRootLevel(rootLevel, t)
  {
    if t != [] && !NamesRoot(t[|t| - 1].0) {
      QuietedRootTwice(rootLevel, t[..|t| - 1]);
    }
  }

  /** The defaults: 11 distinct libraries, none of them the root logger, each quieted to WARNING or INFO. */
  lemma DefaultNoisyPackagesShape()
    ensures |DEFAULT_NOISY_PACKAGES| == 11 && DistinctNames(DEFAULT_NOISY_PACKAGES)
    ensures forall i | 0 <= i < 11 :: DEFAULT_NOISY_PACKAGES[i].1 in {WARNING, INFO}
    ensures forall i | 0 <= i < 11 :: !NamesRoot(DEFAULT_NOISY_PACKAGES[i].0)
  {
  }

  /** `a | b` on dictionaries: `a`'s items with `b`'s values where `b` has the key, then `b`'s new items. */
  function DictUnion(a: LevelTable, b: LevelTable): LevelTable {
    Overridden(a, b) + Added(a, b)
  }

  /** `a`'s items in order, each with `b`'s value when `b` has its name. */
  function Overridden(a: LevelTable, b: LevelTable): (r: LevelTable)
    ensures |r| == |a|
  {
    if a == [] then []
    else [(a[0].0, Lookup(b, a[0].0).GetOr(a[0].1))] + Overridden(a[1..], b)
  }

  /** `b`'s items whose name is not a key of `a`, in order. */
  function Added(a: LevelTable, b: LevelTable): LevelTable {
    if b == [] then []
    else (if HasName(a, b[0].0) then [] else [b[0]]) + Added(a, b[1..])
  }

  /** Looking up in a concatenation: the later part wins. */
  lemma {:induction false} LookupConcat(x: LevelTable, y: LevelTable, name: string)
    ensures Lookup(x + y, name) == if HasName(y, name) then Lookup(y, name) else Lookup(x, name)
  {
    if y == [] {
      assert x + y == x;
    } else {
      assert (x + y)[..|x + y| - 1] == x + y[..|y| - 1];
      LookupConcat(x, y[..|y| - 1], name);
    }
  }

  lemma {:induction false} LookupOverridden(a: LevelTable, b: LevelTable, name: string)
    ensures Lookup(Overridden(a, b), name)
            == if HasName(a, name) then Some(Lookup(b, name).GetOr(Lookup(a, name).value)) else None
  {
    if a != [] {
      var head := [(a[0].0, Lookup(b, a[0].0).GetOr(a[0].1))];
      LookupOverridden(a[1..], b, name);
      LookupConcat(head, Overridden(a[1..], b), name);
      assert a == [a[0]] + a[1..];
      LookupConcat([a[0]], a[1..], name);
      assert Lookup(head, name) == (if a[0].0 == name then Some(Lookup(b, a[0].0).GetOr(a[0].1)) else None) by {
        assert head[..0] == [];
      }
      assert Lookup([a[0]], name) == (if a[0].0 == name then Some(a[0].1) else None) by {
        assert [a[0]][..0] == [];
      }
    }
  }

  lemma {:induction false} LookupAdded(a: LevelTable, b: LevelTable, name: string)
    ensures Lookup(Added(a, b), name) == if HasName(a, name) then None else Lookup(b, name)
  {
    if b != [] {
      var head: LevelTable := if HasName(a, b[0].0) then [] else [b[0]];
      LookupAdded(a, b[1..], name);
      LookupConcat(head, Added(a, b[1..]), name);
      assert b == [b[0]] + b[1..];
      LookupConcat([b[0]], b[1..], name);
      assert [b[0]][..0] == [];
    }
  }

  /** A key of the union has `b`'s value when `b` has it and `a`'s otherwise. */
  lemma UnionLookup(a: LevelTable, b: LevelTable, name: string)
    ensures Lookup(DictUnion(a, b), name) == if HasName(b, name) then Lookup(b, name) else Lookup(a, name)
  {
    LookupConcat(Overridden(a, b), Added(a, b), name);
    LookupOverridden(a, b, name);
    LookupAdded(a, b, name);
  }

  /**
   * Quieting with the defaults merged with extra entries sets both the
   * extra names and the defaults they do not override.
   */
  lemma SuppressMerged(rootLevel: int, levels: map<string, int>, extra: LevelTable, name: string)
    requires !NamesRoot(name)
    ensures var t := DictUnion(DEFAULT_NOISY_PACKAGES, extra);
      LoggerLevel(QuietedRootLevel(rootLevel, t), QuietedLevels(levels, t), name)
      == if HasName(extra, name) then Lookup(extra, name).value
         else if HasName(DEFAULT_NOISY_PACKAGES, name) then Lookup(DEFAULT_NOISY_PACKAGES, name).value
         else LoggerLevel(rootLevel, levels, name)
  {
    var t := DictUnion(DEFAULT_NOISY_PACKAGES, extra);
    UnionLookup(DEFAULT_NOISY_PACKAGES, extra, name);
    QuietedLookup(levels, t, name);
  }
}
