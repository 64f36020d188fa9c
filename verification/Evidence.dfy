/** Evidence bundles: their contract, how two are merged, and the references a
    finished consultation cites. */
module Evidence {
  import opened Envelopes
  import opened Tables
  import opened Text

  const MAX_ITEMS := 16
  const MAX_ITEM_BYTES := 262_144
  const MAX_BUNDLE_BYTES := 1_048_576

  function Utf8Size(c: char): nat {
    if c as int < 0x80 then 1 else if c as int < 0x800 then 2 else if c as int < 0x1_0000 then 3 else 4
  }

  function Utf8Length(s: string): nat {
    if s == "" then 0 else Utf8Size(s[0]) + Utf8Length(s[1..])
  }

  function Slashes(s: string): (r: string)
    ensures |r| == |s|
  {
    seq(|s|, k requires 0 <= k < |s| => if s[k] == '\\' then '/' else s[k])
  }

  /** The key under which the bundle contract requires paths to be unique. */
  function ContractKey(path: string): string { Lower(Slashes(path)) }

  /** The key under which a merge replaces items. */
  function MergeKey(item: EvidenceItem): string { Lower(item.path) }

  predicate ValidItem(x: EvidenceItem) {
    && 1 <= |x.path| <= 1024
    && x.byteLength <= MAX_ITEM_BYTES
    && x.byteLength == Utf8Length(x.content)
    && match x.source
       case LocalProject => x.sourceMessageId.None? && x.gitCommit.None? && x.gitBlob.None?
       case PeerResult => x.sourceMessageId.Some? && x.gitCommit.None? && x.gitBlob.None?
       case PinnedGit => x.gitCommit.Some? && x.gitBlob.Some? && x.sourceMessageId.None?
  }

  function TotalBytes(items: seq<EvidenceItem>): nat {
    if items == [] then 0 else TotalBytes(items[..|items| - 1]) + items[|items| - 1].byteLength
  }

  ghost predicate UniquePaths(items: seq<EvidenceItem>) {
    forall i, j :: 0 <= i < j < |items| ==> ContractKey(items[i].path) != ContractKey(items[j].path)
  }

  predicate Pinned(items: seq<EvidenceItem>, revision: Option<string>) {
    forall i :: 0 <= i < |items| && items[i].source.PinnedGit? ==>
                  revision.Some? && items[i].gitCommit == revision
  }

  ghost predicate ValidBundle(b: Bundle) {
    && 1 <= |b.project| <= 120
    && b.totalBytes <= MAX_BUNDLE_BYTES
    && |b.items| <= MAX_ITEMS
    && (forall i :: 0 <= i < |b.items| ==> ValidItem(b.items[i]))
    && b.totalBytes == TotalBytes(b.items)
    && UniquePaths(b.items)
    && Pinned(b.items, b.revision)
  }

  // ---- Merging ----------------------------------------------------------

  ghost predicate UniqueKeys(items: seq<EvidenceItem>) {
    forall i, j :: 0 <= i < j < |items| ==> MergeKey(items[i]) != MergeKey(items[j])
  }

  /** The last item with a given key. */
  ghost function Last(items: seq<EvidenceItem>, k: string): Option<EvidenceItem> {
    if items == [] then None
    else if MergeKey(items[|items| - 1]) == k then Some(items[|items| - 1])
    else Last(items[..|items| - 1], k)
  }

  function IndexOf(items: seq<EvidenceItem>, k: string): (i: nat)
    ensures i <= |items|
    ensures i < |items| ==> MergeKey(items[i]) == k
    ensures forall j :: 0 <= j < i ==> MergeKey(items[j]) != k
  {
    if items == [] then 0
    else
      var i := IndexOf(items[..|items| - 1], k);
      if i < |items| - 1 || MergeKey(items[|items| - 1]) == k then i else i + 1
  }

  /** `Map.set`: an existing key keeps its place and takes the new item. */
  function Put(items: seq<EvidenceItem>, x: EvidenceItem): (r: seq<EvidenceItem>) {
    var i := IndexOf(items, MergeKey(x));
    if i < |items| then items[i := x] else items + [x]
  }

  function MergedItems(all: seq<EvidenceItem>): (m: seq<EvidenceItem>)
    ensures |m| <= |all|
    ensures forall y :: y in m ==> y in all
  {
    if all == [] then [] else
      assert all == all[..|all| - 1] + [all[|all| - 1]];
      Put(MergedItems(all[..|all| - 1]), all[|all| - 1])
  }

  lemma {:induction false} LastIndex(items: seq<EvidenceItem>, i: nat)
    requires UniqueKeys(items) && i < |items|
    ensures Last(items, MergeKey(items[i])) == Some(items[i])
  {
    if i < |items| - 1 {
      LastIndex(items[..|items| - 1], i);
    }
  }

  lemma {:induction false} LastAbsent(items: seq<EvidenceItem>, k: string)
    requires forall i :: 0 <= i < |items| ==> MergeKey(items[i]) != k
    ensures Last(items, k).None?
  {
    if items != [] {
      LastAbsent(items[..|items| - 1], k);
    }
  }

  lemma {:induction false} LastFound(items: seq<EvidenceItem>, k: string) returns (i: nat)
    requires Last(items, k).Some?
    ensures i < |items| && MergeKey(items[i]) == k && items[i] == Last(items, k).value
  {
    if MergeKey(items[|items| - 1]) == k {
      i := |items| - 1;
    } else {
      i := LastFound(items[..|items| - 1], k);
    }
  }

  lemma PutUnique(items: seq<EvidenceItem>, x: EvidenceItem)
    requires UniqueKeys(items)
    ensures UniqueKeys(Put(items, x))
    ensures Last(Put(items, x), MergeKey(x)) == Some(x)
  {
    var i := IndexOf(items, MergeKey(x));
    assert Put(items, x)[i] == x;
    LastIndex(Put(items, x), i);
  }

  lemma PutOther(items: seq<EvidenceItem>, x: EvidenceItem, k: string)
    requires UniqueKeys(items) && k != MergeKey(x)
    ensures Last(Put(items, x), k) == Last(items, k)
  {
    PutUnique(items, x);
    var r := Put(items, x);
    if Last(items, k).Some? {
      var j := LastFound(items, k);
      assert r[j] == items[j];
      LastIndex(r, j);
    } else if Last(r, k).Some? {
      var j := LastFound(r, k);
      assert j < |items| && items[j] == r[j];
      LastIndex(items, j);
    }
  }

  /** The fold keeps, for each key, the last item given for it. */
  lemma {:induction false} MergedItemsKeepLast(all: seq<EvidenceItem>, k: string)
    ensures UniqueKeys(MergedItems(all))
    ensures Last(MergedItems(all), k) == Last(all, k)
  {
    if all != [] {
      var before := all[..|all| - 1];
      MergedItemsKeepLast(before, k);
      PutUnique(MergedItems(before), all[|all| - 1]);
      if k != MergeKey(all[|all| - 1]) {
        PutOther(MergedItems(before), all[|all| - 1], k);
      }
    }
  }

  lemma {:induction false} DistinctItemsStay(all: seq<EvidenceItem>)
    requires UniqueKeys(all)
    ensures MergedItems(all) == all
  {
    if all != [] {
      var before, x := all[..|all| - 1], all[|all| - 1];
      DistinctItemsStay(before);
      assert IndexOf(before, MergeKey(x)) == |before|;
      assert all == before + [x];
    }
  }

  lemma {:induction false} LastConcat(a: seq<EvidenceItem>, b: seq<EvidenceItem>, k: string)
    ensures Last(a + b, k) == if Last(b, k).Some? then Last(b, k) else Last(a, k)
  {
    if b == [] {
      assert a + b == a;
    } else {
      assert (a + b)[..|a + b| - 1] == a + b[..|b| - 1];
      LastConcat(a, b[..|b| - 1], k);
    }
  }

  /** Merging is the right-biased union by key: what is added wins, what it does
      not name stays, and nothing else appears. */
  lemma MergeIsRightBiasedUnion(a: seq<EvidenceItem>, b: seq<EvidenceItem>, k: string)
    ensures UniqueKeys(MergedItems(a + b))
    ensures Last(MergedItems(a + b), k) == if Last(b, k).Some? then Last(b, k) else Last(a, k)
  {
    MergedItemsKeepLast(a + b, k);
    LastConcat(a, b, k);
  }

  function MergedRevision(existing: Bundle, added: Bundle): Option<string> {
    if added.revision.Some? then added.revision else existing.revision
  }

  predicate SameRevision(existing: Bundle, added: Bundle) {
    existing.revision.Some? && added.revision.Some? ==> existing.revision == added.revision
  }

  /** What is left of the bundle contract to check on the merged items: the two
      size limits, and that no two paths differ only in their slashes. */
  ghost predicate FitsBundle(items: seq<EvidenceItem>) {
    |items| <= MAX_ITEMS && TotalBytes(items) <= MAX_BUNDLE_BYTES && UniquePaths(items)
  }

  function MergedBundle(existing: Bundle, added: Bundle): Bundle {
    var items := MergedItems(existing.items + added.items);
    Bundle(existing.project, TotalBytes(items), MergedRevision(existing, added), items)
  }

  /** For valid bundles with one revision, the schema check of the merge can
      only fail on `FitsBundle`: item contracts and pins always carry over. */
  lemma MergedBundleIsValidIffItFits(existing: Bundle, added: Bundle)
    requires ValidBundle(existing) && ValidBundle(added) && SameRevision(existing, added)
    ensures ValidBundle(MergedBundle(existing, added)) <==> FitsBundle(MergedItems(existing.items + added.items))
  {
    var items := MergedItems(existing.items + added.items);
    forall i | 0 <= i < |items|
      ensures ValidItem(items[i])
      ensures items[i].source.PinnedGit? ==>
                MergedRevision(existing, added).Some? && items[i].gitCommit == MergedRevision(existing, added)
    {
      assert items[i] in existing.items + added.items;
    }
  }

  predicate Normalized(items: seq<EvidenceItem>) {
    forall x :: x in items ==> '\\' !in x.path
  }

  /** Where paths carry no backslash, as those of the evidence providers and of peer
      results do, a merge can break nothing but the two size limits. */
  lemma NormalizedMergeIsValidIffSmall(existing: Bundle, added: Bundle)
    requires ValidBundle(existing) && ValidBundle(added) && SameRevision(existing, added)
    requires Normalized(existing.items) && Normalized(added.items)
    ensures var items := MergedItems(existing.items + added.items);
      ValidBundle(MergedBundle(existing, added)) <==> |items| <= MAX_ITEMS && TotalBytes(items) <= MAX_BUNDLE_BYTES
  {
    var items := MergedItems(existing.items + added.items);
    MergedBundleIsValidIffItFits(existing, added);
    MergedItemsKeepLast(existing.items + added.items, "");
    forall i | 0 <= i < |items| ensures ContractKey(items[i].path) == MergeKey(items[i]) {
      assert items[i] in existing.items + added.items;
      assert Slashes(items[i].path) == items[i].path;
    }
  }

  lemma {:induction false} TotalBytesExtend(items: seq<EvidenceItem>, n: nat)
    requires n < |items|
    ensures TotalBytes(items[..n + 1]) == TotalBytes(items[..n]) + items[n].byteLength
  {
    assert items[..n + 1][..n] == items[..n];
  }

  method SumBytes(items: seq<EvidenceItem>) returns (total: nat)
    ensures total == TotalBytes(items)
  {
    total := 0;
    for n := 0 to |items|
      invariant total == TotalBytes(items[..n])
    {
      TotalBytesExtend(items, n);
      total := total + items[n].byteLength;
    }
    assert items[..|items|] == items;
  }

  /** A map with its keys in insertion order stands for a list of items. */
  ghost predicate Represents(order: seq<string>, byKey: map<string, EvidenceItem>, items: seq<EvidenceItem>) {
    && |order| == |items|
    && (forall i :: 0 <= i < |order| ==> order[i] == MergeKey(items[i]) && order[i] in byKey && byKey[order[i]] == items[i])
    && (forall k :: k in byKey ==> k in order)
  }

  lemma RepresentsPut(order: seq<string>, byKey: map<string, EvidenceItem>, items: seq<EvidenceItem>, x: EvidenceItem)
    requires Represents(order, byKey, items) && UniqueKeys(items)
    ensures var k := MergeKey(x);
      Represents(if k in byKey then order else order + [k], byKey[k := x], Put(items, x))
  {
    var k := MergeKey(x);
    if k in byKey {
      var i :| 0 <= i < |order| && order[i] == k;
      assert IndexOf(items, k) == i;
    }
  }

  function Values(order: seq<string>, byKey: map<string, EvidenceItem>): seq<EvidenceItem>
    requires forall i :: 0 <= i < |order| ==> order[i] in byKey
  {
    seq(|order|, i requires 0 <= i < |order| => byKey[order[i]])
  }

  lemma ValuesAre(order: seq<string>, byKey: map<string, EvidenceItem>, items: seq<EvidenceItem>)
    requires Represents(order, byKey, items)
    ensures Values(order, byKey) == items
  {
  }

  lemma MergedItemsExtend(all: seq<EvidenceItem>, n: nat)
    requires n < |all| && UniqueKeys(MergedItems(all[..n]))
    ensures MergedItems(all[..n + 1]) == Put(MergedItems(all[..n]), all[n])
    ensures UniqueKeys(MergedItems(all[..n + 1]))
  {
    assert all[..n + 1][..n] == all[..n];
    PutUnique(MergedItems(all[..n]), all[n]);
  }

  method CollectByKey(all: seq<EvidenceItem>) returns (values: seq<EvidenceItem>)
    ensures values == MergedItems(all)
  {
    var order: seq<string> := [];
    var byKey: map<string, EvidenceItem> := map[];
    ghost var merged: seq<EvidenceItem> := [];
    for n := 0 to |all|
      invariant merged == MergedItems(all[..n]) && UniqueKeys(merged)
      invariant Represents(order, byKey, merged)
    {
      var x := all[n];
      MergedItemsExtend(all, n);
      RepresentsPut(order, byKey, merged, x);
      if MergeKey(x) !in byKey {
        order := order + [MergeKey(x)];
      }
      byKey := byKey[MergeKey(x) := x];
      merged := Put(merged, x);
    }
    assert all[..|all|] == all;
    ValuesAre(order, byKey, merged);
    values := Values(order, byKey);
  }

  /** Mixed revisions are an evidence error the coordinator handles; a merged
      bundle that breaks the contract is a schema error that it does not. */
  method MergeEvidence(existing: Bundle, added: Bundle) returns (r: Result<Bundle>)
    requires ValidBundle(existing) && ValidBundle(added)
    ensures r == MergeSpec(existing, added)
  {
    if existing.revision.Some? && added.revision.Some? && existing.revision != added.revision {
      return Err(MixedRevisions);
    }
    var merged := CollectByKey(existing.items + added.items);
    var total := SumBytes(merged);
    var bundle := Bundle(existing.project, total, MergedRevision(existing, added), merged);
    var valid := CheckBundle(bundle);
    r := if valid then Ok(bundle) else Err(Invalid);
  }

  ghost function MergeSpec(existing: Bundle, added: Bundle): Result<Bundle> {
    if !SameRevision(existing, added) then Err(MixedRevisions)
    else if ValidBundle(MergedBundle(existing, added)) then Ok(MergedBundle(existing, added))
    else Err(Invalid)
  }

  /** Merging two valid bundles fails for mixed revisions, throws where the result
      does not fit, and otherwise yields a valid bundle: the right-biased union of
      the items, with their exact size and the one revision there is. */
  lemma MergeKeepsTheContract(existing: Bundle, added: Bundle, k: string)
    requires ValidBundle(existing) && ValidBundle(added)
    ensures var r := MergeSpec(existing, added);
      && (r == Err(MixedRevisions) <==> !SameRevision(existing, added))
      && (r.Ok? <==> SameRevision(existing, added) && FitsBundle(MergedItems(existing.items + added.items)))
      && (r.Ok? ==>
            && ValidBundle(r.value) && r.value.project == existing.project
            && r.value.totalBytes == TotalBytes(r.value.items)
            && Last(r.value.items, k) ==
               (if Last(added.items, k).Some? then Last(added.items, k) else Last(existing.items, k))
            && (existing.revision.Some? ==> r.value.revision == existing.revision)
            && (added.revision.Some? ==> r.value.revision == added.revision))
  {
    if SameRevision(existing, added) {
      MergedBundleIsValidIffItFits(existing, added);
      MergeIsRightBiasedUnion(existing.items, added.items, k);
    }
  }

  lemma UniquePathsExtend(items: seq<EvidenceItem>, x: EvidenceItem)
    ensures UniquePaths(items + [x]) <==>
              UniquePaths(items) && forall j :: 0 <= j < |items| ==> ContractKey(items[j].path) != ContractKey(x.path)
  {
    var all := items + [x];
    if UniquePaths(all) {
      forall i, j | 0 <= i < j < |items| ensures ContractKey(items[i].path) != ContractKey(items[j].path) {
        assert all[i] == items[i] && all[j] == items[j];
      }
      forall j | 0 <= j < |items| ensures ContractKey(items[j].path) != ContractKey(x.path) {
        assert all[j] == items[j] && all[|items|] == x;
      }
    }
  }

  method CheckUniquePaths(items: seq<EvidenceItem>) returns (unique: bool)
    ensures unique <==> UniquePaths(items)
  {
    var seen: set<string> := {};
    unique := true;
    for n := 0 to |items|
      invariant seen == set j | 0 <= j < n :: ContractKey(items[j].path)
      invariant unique <==> UniquePaths(items[..n])
    {
      var k := ContractKey(items[n].path);
      assert items[..n + 1] == items[..n] + [items[n]];
      UniquePathsExtend(items[..n], items[n]);
      unique := unique && k !in seen;
      seen := seen + {k};
    }
    assert items[..|items|] == items;
  }

  method CheckBundle(b: Bundle) returns (valid: bool)
    ensures valid <==> ValidBundle(b)
  {
    var total := SumBytes(b.items);
    var unique := CheckUniquePaths(b.items);
    valid := && 1 <= |b.project| <= 120
             && b.totalBytes <= MAX_BUNDLE_BYTES
             && |b.items| <= MAX_ITEMS
             && (forall i :: 0 <= i < |b.items| ==> ValidItem(b.items[i]))
             && b.totalBytes == total
             && unique
             && Pinned(b.items, b.revision);
  }

  // ---- Citing -----------------------------------------------------------

  function ItemReference(x: EvidenceItem): Reference {
    if x.source.PeerResult? && x.sourceMessageId.Some?
    then Reference(BridgeMessage, x.sourceMessageId.value)
    else Reference(RepositoryPath, x.path)
  }

  predicate Selected(x: EvidenceItem, paths: seq<string>) {
    exists p :: p in paths && ContractKey(p) == ContractKey(x.path)
  }

  /** A reference belongs to an item when it names the item or its commit. */
  predicate Cites(r: Reference, x: EvidenceItem) {
    r == ItemReference(x) || (x.gitCommit.Some? && r == Reference(GitCommit, x.gitCommit.value))
  }

  /** What an item is cited as, by where it came from: the message that brought a peer's
      result, the path of a file, and for pinned files the commit too. */
  predicate CitedAs(x: EvidenceItem, r: Reference) {
    match x.source
    case PeerResult => x.sourceMessageId.Some? && r == Reference(BridgeMessage, x.sourceMessageId.value)
    case LocalProject => r == Reference(RepositoryPath, x.path)
    case PinnedGit =>
      r == Reference(RepositoryPath, x.path) || (x.gitCommit.Some? && r == Reference(GitCommit, x.gitCommit.value))
  }

  predicate SameLetter(c: char, d: char) {
    c == d || ('A' <= c <= 'Z' && d as int == c as int + 32) || ('A' <= d <= 'Z' && c as int == d as int + 32)
  }

  predicate IsSlash(c: char) { c == '/' || c == '\\' }

  /** Equal up to the case of ASCII letters. */
  predicate SameUpToCase(a: string, b: string) {
    |a| == |b| && forall k :: 0 <= k < |a| ==> SameLetter(a[k], b[k])
  }

  /** Equal up to the case of ASCII letters and the direction of slashes. */
  predicate SamePath(a: string, b: string) {
    |a| == |b| && forall k :: 0 <= k < |a| ==> SameLetter(a[k], b[k]) || (IsSlash(a[k]) && IsSlash(b[k]))
  }

  lemma LowerIgnoresCase(a: string, b: string)
    ensures Lower(a) == Lower(b) <==> SameUpToCase(a, b)
  {
    if |a| == |b| {
      assert forall k :: 0 <= k < |a| ==> (Lower(a)[k] == Lower(b)[k] <==> SameLetter(a[k], b[k]));
    }
  }

  /** A bundle may hold one item under each path; a merge replaces items under the same one. */
  lemma KeysMean(a: string, b: string, x: EvidenceItem, y: EvidenceItem)
    ensures ContractKey(a) == ContractKey(b) <==> SamePath(a, b)
    ensures MergeKey(x) == MergeKey(y) <==> SameUpToCase(x.path, y.path)
  {
    LowerIgnoresCase(x.path, y.path);
    LowerIgnoresCase(Slashes(a), Slashes(b));
    if |a| == |b| {
      forall k | 0 <= k < |a|
        ensures SameLetter(Slashes(a)[k], Slashes(b)[k]) <==> SameLetter(a[k], b[k]) || (IsSlash(a[k]) && IsSlash(b[k]))
      {
      }
    }
  }

  /** A character takes one to four bytes, one exactly if it is an ASCII character. */
  lemma {:induction false} Utf8Bounds(s: string)
    ensures |s| <= Utf8Length(s) <= 4 * |s|
    ensures Utf8Length(s) == |s| <==> forall k :: 0 <= k < |s| ==> s[k] as int < 128
  {
    if s != "" {
      Utf8Bounds(s[1..]);
      assert forall k :: 0 < k < |s| ==> s[k] == s[1..][k - 1];
    }
  }

  lemma CitationsByProvenance(x: EvidenceItem, r: Reference)
    requires ValidItem(x)
    ensures Cites(r, x) <==> CitedAs(x, r)
  {
  }

  lemma SelectionByPath(x: EvidenceItem, paths: seq<string>)
    ensures Selected(x, paths) <==> exists p :: p in paths && SamePath(p, x.path)
  {
    forall p ensures ContractKey(p) == ContractKey(x.path) <==> SamePath(p, x.path) {
      KeysMean(p, x.path, x, x);
    }
  }

  function AddReference(refs: seq<Reference>, r: Reference): (s: seq<Reference>)
    requires Distinct(refs)
    ensures Distinct(s)
    ensures forall q :: q in s <==> q in refs || q == r
    ensures |s| <= |refs| + 1 && (r in refs ==> s == refs)
  {
    if r in refs then refs else refs + [r]
  }

  /** The references of a completed run. Every pinned item carries the one
      revision of the bundle, so commits add at most a single reference. */
  method BuildEvidenceReferences(b: Bundle, finalPaths: seq<string>) returns (refs: seq<Reference>)
    requires ValidBundle(b)
    ensures Distinct(refs)
    ensures forall r :: r in refs <==> exists x :: x in b.items && Selected(x, finalPaths) && Cites(r, x)
    ensures |refs| <= |b.items| + 1 <= 17
  {
    refs := [];
    ghost var commits := 0;
    for n := 0 to |b.items|
      invariant Distinct(refs)
      invariant forall r :: r in refs <==> exists x :: x in b.items[..n] && Selected(x, finalPaths) && Cites(r, x)
      invariant commits <= 1 && |refs| <= n + commits
      invariant commits == 0 ==> forall r :: r in refs ==> !r.kind.GitCommit?
      invariant commits == 1 ==> b.revision.Some? && Reference(GitCommit, b.revision.value) in refs
    {
      var x := b.items[n];
      assert b.items[..n + 1] == b.items[..n] + [x];
      ghost var before := refs;
      if Selected(x, finalPaths) {
        refs := AddReference(refs, ItemReference(x));
        if x.gitCommit.Some? {
          assert x.source.PinnedGit? && x.gitCommit == b.revision;
          refs := AddReference(refs, Reference(GitCommit, x.gitCommit.value));
          commits := 1;
        }
      }
      forall r ensures r in refs <==> exists y :: y in b.items[..n + 1] && Selected(y, finalPaths) && Cites(r, y) {
        if r in refs && r !in before {
          assert x in b.items[..n + 1] && Selected(x, finalPaths) && Cites(r, x);
        } else if r in before {
          var y :| y in b.items[..n] && Selected(y, finalPaths) && Cites(r, y);
          assert y in b.items[..n + 1];
        }
      }
    }
    assert b.items[..|b.items|] == b.items;
  }
}
