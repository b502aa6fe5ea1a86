/**
 * The alias table of the gateway (src/server.ts lines 38-50): public path
 * prefixes mounted onto six handler groups, and the resolution of a request
 * path to the group that serves it.
 *
 * The framework's matcher for mounted sub-applications is not part of this
 * model. Resolution here assumes it matches on a path-segment boundary: a
 * prefix serves the path equal to it and every path beneath it
 * (`prefix + "/" + rest`), and nothing else. When several aliases serve a
 * path the earliest registration wins.
 */
module Aliases {
  import opened Wrappers

  /** The six handler groups behind the aliases. */
  datatype Group = ChatCompletions | Models | Embeddings | Usage | Token | Messages

  /** One registration: a public prefix mounted onto a handler group. */
  datatype Alias = Alias(prefix: string, group: Group)

  /** `prefix` serves `path` on a segment boundary: `path` is `prefix` or lies beneath it. */
  predicate Covers(prefix: string, path: string) {
    path == prefix || (|prefix| < |path| && path[..|prefix| + 1] == prefix + "/")
  }

  /** The group of the first alias in `table` that serves `path`, if any. */
  function Resolve(table: seq<Alias>, path: string): (r: Option<Group>)
    ensures r.None? <==> forall i :: 0 <= i < |table| ==> !Covers(table[i].prefix, path)
    ensures r.Some? ==> exists i :: 0 <= i < |table| && Covers(table[i].prefix, path)
                          && table[i].group == r.value
                          && forall j :: 0 <= j < i ==> !Covers(table[j].prefix, path)
  {
    if table == [] then None
    else if Covers(table[0].prefix, path) then Some(table[0].group)
    else
      var r := Resolve(table[1..], path);
      assert forall i :: 1 <= i < |table| ==> table[i] == table[1..][i - 1];
      r
  }

  /** No registered prefix serves another one: no alias shadows another. */
  predicate NoOverlap(table: seq<Alias>) {
    forall i, j :: 0 <= i < |table| && 0 <= j < |table| && i != j ==>
      !Covers(table[i].prefix, table[j].prefix)
  }

  /** Two prefixes that serve the same path are nested: the shorter serves the longer. */
  lemma CoversNested(a: string, b: string, path: string)
    requires Covers(a, path) && Covers(b, path) && |a| <= |b|
    ensures Covers(a, b)
  {
    SameStart(a, path);
    SameStart(b, path);
    if a != b {
      assert |a| < |b| <= |path|;
      assert path[..|a| + 1] == a + "/";
      calc {
        b[..|a| + 1];
        path[..|b|][..|a| + 1];
        path[..|a| + 1];
      }
    }
  }

  /** Without overlaps, at most one alias serves any path. */
  lemma AtMostOneServes(table: seq<Alias>, path: string, i: int, j: int)
    requires NoOverlap(table)
    requires 0 <= i < |table| && 0 <= j < |table|
    requires Covers(table[i].prefix, path) && Covers(table[j].prefix, path)
    ensures i == j
  {
    if i != j {
      if |table[i].prefix| <= |table[j].prefix| {
        CoversNested(table[i].prefix, table[j].prefix, path);
      } else {
        CoversNested(table[j].prefix, table[i].prefix, path);
      }
    }
  }

  /** Without overlaps, every path an alias serves resolves to that alias's group. */
  lemma ResolvesToServingAlias(table: seq<Alias>, path: string, i: int)
    requires NoOverlap(table)
    requires 0 <= i < |table| && Covers(table[i].prefix, path)
    ensures Resolve(table, path) == Some(table[i].group)
  {
    var r := Resolve(table, path);
    assert r.Some?;
    var k :| 0 <= k < |table| && Covers(table[k].prefix, path) && table[k].group == r.value;
    AtMostOneServes(table, path, i, k);
  }

  /** Registering a table a second time after itself changes no resolution. */
  lemma {:induction false} ResolveTwice(table: seq<Alias>, path: string)
    ensures Resolve(table + table, path) == Resolve(table, path)
  {
    ResolveAppend(table, table, path);
    if Resolve(table, path).None? {
      ResolveAppend(table, [], path);
      assert table + [] == table;
    }
  }

  /** Later registrations only serve paths that no earlier one serves. */
  lemma {:induction false} ResolveAppend(front: seq<Alias>, back: seq<Alias>, path: string)
    ensures Resolve(front + back, path) ==
      if Resolve(front, path).Some? then Resolve(front, path) else Resolve(back, path)
  {
    if front != [] {
      assert (front + back)[0] == front[0];
      assert (front + back)[1..] == front[1..] + back;
      ResolveAppend(front[1..], back, path);
    } else {
      assert front + back == back;
    }
  }

  /**
   * Without overlaps the order of registration does not matter: any
   * rearrangement of the table resolves every path the same way.
   */
  lemma ResolveOrderIndependent(table: seq<Alias>, reordered: seq<Alias>, path: string)
    requires NoOverlap(table)
    requires multiset(table) == multiset(reordered)
    ensures Resolve(reordered, path) == Resolve(table, path)
  {
    var r := Resolve(reordered, path);
    if r.Some? {
      var k :| 0 <= k < |reordered| && Covers(reordered[k].prefix, path) && reordered[k].group == r.value;
      assert reordered[k] in multiset(table);
      var i :| 0 <= i < |table| && table[i] == reordered[k];
      ResolvesToServingAlias(table, path, i);
    } else {
      forall i | 0 <= i < |table| ensures !Covers(table[i].prefix, path) {
        assert table[i] in multiset(reordered);
      }
    }
  }

  /** The canonical registrations, in source order. */
  const CanonicalTable: seq<Alias> := [
    Alias("/chat/completions", ChatCompletions),
    Alias("/models", Models),
    Alias("/embeddings", Embeddings),
    Alias("/usage", Usage),
    Alias("/token", Token),
    Alias("/v1/chat/completions", ChatCompletions),
    Alias("/v1/models", Models),
    Alias("/v1/embeddings", Embeddings),
    Alias("/v1/messages", Messages)
  ]

  /** The canonical table has no overlapping prefixes. */
  lemma CanonicalNoOverlap()
    ensures NoOverlap(CanonicalTable)
  {
    forall i, j | 0 <= i < |CanonicalTable| && 0 <= j < |CanonicalTable| && i != j
      ensures !Covers(CanonicalTable[i].prefix, CanonicalTable[j].prefix)
    {
      // The bare prefixes differ from each other and from "/v1/..." at
      // position 1; the "/v1/..." prefixes differ at position 4 or 5.
      var a, b := CanonicalTable[i].prefix, CanonicalTable[j].prefix;
      var k := if a[1] != b[1] then 1 else if a[4] != b[4] then 4 else 5;
      DiffersAt(a, b, k);
    }
  }

  /** A prefix does not serve a different path that disagrees with it at a position both have. */
  lemma DiffersAt(a: string, b: string, k: int)
    requires 0 <= k < |a| && k < |b| && a[k] != b[k]
    ensures !Covers(a, b)
  {
    if |a| < |b| {
      assert (a + "/")[k] == a[k] != b[..|a| + 1][k];
    }
  }

  /**
   * Registering the canonical aliases in any order, or the whole table twice,
   * resolves every path as the source order does.
   */
  lemma CanonicalOrderIrrelevant(reordered: seq<Alias>, path: string)
    requires multiset(reordered) == multiset(CanonicalTable)
    ensures Resolve(reordered, path) == Resolve(CanonicalTable, path)
    ensures Resolve(CanonicalTable + CanonicalTable, path) == Resolve(CanonicalTable, path)
  {
    CanonicalNoOverlap();
    ResolveOrderIndependent(CanonicalTable, reordered, path);
    ResolveTwice(CanonicalTable, path);
  }

  /**
   * Each canonical prefix, and every path beneath it, resolves to its own
   * group and to no other.
   */
  lemma CanonicalRoutes(path: string)
    ensures Covers("/chat/completions", path) ==> Resolve(CanonicalTable, path) == Some(ChatCompletions)
    ensures Covers("/models", path) ==> Resolve(CanonicalTable, path) == Some(Models)
    ensures Covers("/embeddings", path) ==> Resolve(CanonicalTable, path) == Some(Embeddings)
    ensures Covers("/usage", path) ==> Resolve(CanonicalTable, path) == Some(Usage)
    ensures Covers("/token", path) ==> Resolve(CanonicalTable, path) == Some(Token)
    ensures Covers("/v1/chat/completions", path) ==> Resolve(CanonicalTable, path) == Some(ChatCompletions)
    ensures Covers("/v1/models", path) ==> Resolve(CanonicalTable, path) == Some(Models)
    ensures Covers("/v1/embeddings", path) ==> Resolve(CanonicalTable, path) == Some(Embeddings)
    ensures Covers("/v1/messages", path) ==> Resolve(CanonicalTable, path) == Some(Messages)
  {
    var t := CanonicalTable;
    CanonicalNoOverlap();
    if Covers(t[0].prefix, path) { ResolvesToServingAlias(t, path, 0); }
    if Covers(t[1].prefix, path) { ResolvesToServingAlias(t, path, 1); }
    if Covers(t[2].prefix, path) { ResolvesToServingAlias(t, path, 2); }
    if Covers(t[3].prefix, path) { ResolvesToServingAlias(t, path, 3); }
    if Covers(t[4].prefix, path) { ResolvesToServingAlias(t, path, 4); }
    if Covers(t[5].prefix, path) { ResolvesToServingAlias(t, path, 5); }
    if Covers(t[6].prefix, path) { ResolvesToServingAlias(t, path, 6); }
    if Covers(t[7].prefix, path) { ResolvesToServingAlias(t, path, 7); }
    if Covers(t[8].prefix, path) { ResolvesToServingAlias(t, path, 8); }
  }

  /**
   * `/v1/usage`, `/v1/token` and the paths beneath them have no alias, and
   * neither has the root path `/`.
   */
  lemma CanonicalUnaliased(path: string)
    ensures Covers("/v1/usage", path) ==> Resolve(CanonicalTable, path) == None
    ensures Covers("/v1/token", path) ==> Resolve(CanonicalTable, path) == None
    ensures path == "/" ==> Resolve(CanonicalTable, path) == None
  {
    if Covers("/v1/usage", path) {
      SameStart("/v1/usage", path);
      NoCanonicalAliasUnder(path);
    }
    if Covers("/v1/token", path) {
      SameStart("/v1/token", path);
      NoCanonicalAliasUnder(path);
    }
  }

  /** A path a prefix serves starts with that prefix. */
  lemma SameStart(prefix: string, path: string)
    requires Covers(prefix, path)
    ensures |prefix| <= |path| && path[..|prefix|] == prefix
  {
    if path != prefix {
      assert path[..|prefix|] == path[..|prefix| + 1][..|prefix|];
    }
  }

  /**
   * No canonical alias serves a path under `/v1/` whose segment starts with
   * a letter other than those of `chat`, `models`, `embeddings`, `messages`.
   */
  lemma NoCanonicalAliasUnder(path: string)
    requires |path| > 4 && path[..4] == "/v1/"
    requires path[4] != 'c' && path[4] != 'm' && path[4] != 'e'
    ensures Resolve(CanonicalTable, path) == None
  {
    NoCanonicalPrefixServes(path);
  }

  /**
   * The bare prefixes differ from such a path at position 1, the `/v1/`
   * prefixes at position 4, so none of them serves it.
   */
  lemma NoCanonicalPrefixServes(path: string)
    requires |path| > 4 && path[..4] == "/v1/"
    requires path[4] != 'c' && path[4] != 'm' && path[4] != 'e'
    ensures forall i :: 0 <= i < |CanonicalTable| ==> !Covers(CanonicalTable[i].prefix, path)
  {
    var t := CanonicalTable;
    assert path[1] == path[..4][1] == 'v';
    DiffersAt(t[0].prefix, path, 1);
    DiffersAt(t[1].prefix, path, 1);
    DiffersAt(t[2].prefix, path, 1);
    DiffersAt(t[3].prefix, path, 1);
    DiffersAt(t[4].prefix, path, 1);
    DiffersAt(t[5].prefix, path, 4);
    DiffersAt(t[6].prefix, path, 4);
    DiffersAt(t[7].prefix, path, 4);
    DiffersAt(t[8].prefix, path, 4);
  }
}
