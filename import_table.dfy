/** The import table of lib/routing.ts (`importMap`, `mapCount` and
    safeGetSetImport): every module path the generated route file needs is
    given an identifier once, made of a prefix and the number of paths
    registered before it. */
module ImportTable {
  import opened Text

  /** The prefix safeGetSetImport uses when its caller gives none. */
  const DefaultPrefix: string := "__"

  /** The contents of the table: `importMap`, whose keys Object.entries
      lists in insertion order (`paths`), and `mapCount`. */
  datatype Table = Table(paths: seq<string>, ids: map<string, string>, count: nat)

  const Empty: Table := Table([], map[], 0)

  /** The table is consistent: every path is listed once, the listed paths
      are exactly the keys, and the counter counts them. */
  ghost predicate WellFormed(t: Table) {
    && |t.paths| == t.count
    && (forall j, k :: 0 <= j < k < |t.paths| ==> t.paths[j] != t.paths[k])
    && (forall p :: p in t.ids <==> p in t.paths)
  }

  /** safeGetSetImport on a table: a known path gives its stored identifier
      and leaves the table as it is; a new path gets `prefix` followed by the
      counter, is added last, and the counter grows by one. */
  function GetSet(t: Table, path: string, prefix: string): (string, Table) {
    if path in t.ids then (t.ids[path], t)
    else
      var id := prefix + Decimal(t.count);
      (id, Table(t.paths + [path], t.ids[path := id], t.count + 1))
  }

  /** `importMap[path] = id`: an existing key keeps its place in the
      insertion order, a new one is added last; the counter is untouched. */
  function Assign(t: Table, path: string, id: string): Table {
    if path in t.ids then t.(ids := t.ids[path := id])
    else t.(paths := t.paths + [path], ids := t.ids[path := id])
  }

  lemma EmptyWellFormed()
    ensures WellFormed(Empty)
  {
  }

  /** safeGetSetImport keeps a consistent table consistent, stores the
      identifier it returns, and adds one entry exactly when the path was
      new. */
  lemma GetSetWellFormed(t: Table, path: string, prefix: string)
    ensures var (id, t') := GetSet(t, path, prefix);
      && (WellFormed(t) ==> WellFormed(t'))
      && path in t'.ids && t'.ids[path] == id
      && t'.count == t.count + (if path in t.ids then 0 else 1)
      && (forall p :: p in t.ids ==> p in t'.ids && t'.ids[p] == t.ids[p])
  {
    if path !in t.ids && WellFormed(t) {
      assert path !in t.paths;
    }
  }

  /** Asking twice for the same path, with any prefixes, gives the same
      identifier, and the second request changes nothing. */
  lemma GetSetTwice(t: Table, path: string, prefix1: string, prefix2: string)
    ensures var (id1, t1) := GetSet(t, path, prefix1);
      GetSet(t1, path, prefix2) == (id1, t1)
  {
  }

  /** The reassignment MakeEndpoints makes after registering a layout
      writes back the identifier just returned: it changes nothing. */
  lemma AssignReturned(t: Table, path: string, prefix: string)
    ensures var (id, t') := GetSet(t, path, prefix);
      Assign(t', path, id) == t'
  {
    var (id, t') := GetSet(t, path, prefix);
    assert t'.ids[path := id] == t'.ids;
  }

  /** `id` ends with the decimal text of `k`, preceded by a character that
      is not a digit. */
  predicate TaggedWith(id: string, k: nat) {
    var d := Decimal(k);
    && |d| < |id|
    && id[|id| - |d|..] == d
    && !IsDigit(id[|id| - |d| - 1])
  }

  /** A prefix that cannot run into the number after it. */
  predicate Separating(prefix: string) {
    |prefix| > 0 && !IsDigit(prefix[|prefix| - 1])
  }

  /** The prefixes the route compiler uses all separate. */
  lemma PrefixesSeparate()
    ensures Separating(DefaultPrefix) && Separating("__LAYOUT__") && Separating("__PAGE__")
  {
  }

  lemma SeparatingTags(prefix: string, k: nat)
    requires Separating(prefix)
    ensures TaggedWith(prefix + Decimal(k), k)
  {
    var id, d := prefix + Decimal(k), Decimal(k);
    assert id[|id| - |d|..] == d;
    assert id[|id| - |d| - 1] == prefix[|prefix| - 1];
  }

  /** An identifier carries at most one number. */
  lemma TagUnique(id: string, j: nat, k: nat)
    requires TaggedWith(id, j) && TaggedWith(id, k)
    ensures j == k
  {
    var dj, dk := Decimal(j), Decimal(k);
    DecimalDigits(j);
    DecimalDigits(k);
    assert |dj| == |dk|;
    DecimalInjective(j, k);
  }

  /** Every identifier carries the position of its path in the insertion
      order. */
  predicate Tagged(t: Table) {
    forall k :: 0 <= k < |t.paths| ==> t.paths[k] in t.ids && TaggedWith(t.ids[t.paths[k]], k)
  }

  /** Registering a path with a separating prefix keeps the tags. */
  lemma GetSetTagged(t: Table, path: string, prefix: string)
    requires WellFormed(t) && Tagged(t) && Separating(prefix)
    ensures Tagged(GetSet(t, path, prefix).1)
  {
    if path !in t.ids {
      assert path !in t.paths;
      SeparatingTags(prefix, t.count);
    }
  }

  /** In a tagged table no two paths share an identifier, so every
      generated `import * as ID` names a different module. */
  lemma DistinctIds(t: Table, p: string, q: string)
    requires WellFormed(t) && Tagged(t)
    requires p in t.ids && q in t.ids && p != q
    ensures t.ids[p] != t.ids[q]
  {
    var j :| 0 <= j < |t.paths| && t.paths[j] == p;
    var k :| 0 <= k < |t.paths| && t.paths[k] == q;
    if t.ids[p] == t.ids[q] {
      TagUnique(t.ids[p], j, k);
    }
  }

  /** The module-level `importMap` and `mapCount` of lib/routing.ts. */
  class ImportMap {
    var paths: seq<string>
    var ids: map<string, string>
    var mapCount: nat

    function State(): Table
      reads this
    {
      Table(paths, ids, mapCount)
    }

    ghost predicate Valid()
      reads this
    {
      WellFormed(State())
    }

    constructor ()
      ensures State() == Empty && Valid()
    {
      paths, ids, mapCount := [], map[], 0;
    }

    /** safeGetSetImport. */
    method SafeGetSetImport(path: string, prefix: string) returns (id: string)
      requires Valid()
      modifies this
      ensures Valid()
      ensures (id, State()) == GetSet(old(State()), path, prefix)
    {
      GetSetWellFormed(State(), path, prefix);
      if path !in ids {
        id := prefix + Decimal(mapCount);
        paths := paths + [path];
        ids := ids[path := id];
        mapCount := mapCount + 1;
        return id;
      }
      return ids[path];
    }

    /** `importMap[path] = id`. */
    method Set(path: string, id: string)
      modifies this
      ensures State() == Assign(old(State()), path, id)
    {
      if path !in ids {
        paths := paths + [path];
      }
      ids := ids[path := id];
    }
  }
}
