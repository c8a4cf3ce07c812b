/** The duplicate-organisation cleanup of the server package: organisations are grouped by
    exact name, each group of two or more is sorted by id, the first is kept and the ids of
    the others are deleted one by one, counting successes and failures. */
module RemoveDuplicateOrganizations {
  import opened Fhir
  import Lists

  // ---------------------------------------------------------------------
  // The listing

  /** The organisations of the search result that are present and have a non-empty id, in order. */
  function Listed(entries: seq<Option<Organization>>): (orgs: seq<Organization>)
    ensures forall i :: 0 <= i < |orgs| ==> Truthy(orgs[i].id)
    ensures forall i :: 0 <= i < |entries| && entries[i].Some? && Truthy(entries[i].value.id) ==> entries[i].value in orgs
    ensures forall o :: o in orgs ==> Some(o) in entries
  {
    if entries == [] then []
    else
      var rest := Listed(entries[1..]);
      if entries[0].Some? && Truthy(entries[0].value.id) then [entries[0].value] + rest else rest
  }

  /** The organisation's id, the empty string when it has none. */
  function IdOf(o: Organization): string {
    if o.id.Some? then o.id.value else ""
  }

  /** The ids of the organisations with a truthy name, in list order. */
  function NamedIds(orgs: seq<Organization>): seq<string> {
    if orgs == [] then []
    else NamedIds(orgs[..|orgs| - 1]) + (if Truthy(orgs[|orgs| - 1].name) then [IdOf(orgs[|orgs| - 1])] else [])
  }

  /** The ids of the organisations named exactly `name`, in list order. */
  function IdsNamed(orgs: seq<Organization>, name: string): seq<string> {
    if orgs == [] then []
    else IdsNamed(orgs[..|orgs| - 1], name) + (if orgs[|orgs| - 1].name == Some(name) then [IdOf(orgs[|orgs| - 1])] else [])
  }

  /** Ids are unique in the store. */
  predicate DistinctIds(orgs: seq<Organization>) {
    forall i, j :: 0 <= i < j < |orgs| ==> IdOf(orgs[i]) != IdOf(orgs[j])
  }

  // ---------------------------------------------------------------------
  // Grouping by name

  /** `organizationsByName`: the names in insertion order and the ids held under each. */
  datatype Groups = Groups(names: seq<string>, members: map<string, seq<string>>)

  function Group(orgs: seq<Organization>): Groups {
    if orgs == [] then Groups([], map[])
    else
      var g := Group(orgs[..|orgs| - 1]);
      var o := orgs[|orgs| - 1];
      if !Truthy(o.name) then g
      else if o.name.value in g.members then Groups(g.names, g.members[o.name.value := g.members[o.name.value] + [IdOf(o)]])
      else Groups(g.names + [o.name.value], g.members[o.name.value := [IdOf(o)]])
  }

  ghost predicate WellFormed(g: Groups) {
    (forall i, j :: 0 <= i < j < |g.names| ==> g.names[i] != g.names[j])
    && (forall name :: name in g.members <==> name in g.names)
    && (forall name :: name in g.members ==> g.members[name] != [])
  }

  /** The groups in name order, concatenated. */
  function Flatten(names: seq<string>, members: map<string, seq<string>>): seq<string>
    requires forall name :: name in names ==> name in members
  {
    if names == [] then []
    else Flatten(names[..|names| - 1], members) + members[names[|names| - 1]]
  }

  lemma {:induction false} FlattenIgnores(names: seq<string>, members: map<string, seq<string>>, name: string, v: seq<string>)
    requires forall n :: n in names ==> n in members
    requires name !in names
    ensures Flatten(names, members[name := v]) == Flatten(names, members)
  {
    if names != [] {
      FlattenIgnores(names[..|names| - 1], members, name, v);
    }
  }

  lemma {:induction false} FlattenAppend(names: seq<string>, members: map<string, seq<string>>, name: string, extra: seq<string>)
    requires forall n :: n in names ==> n in members
    requires forall i, j :: 0 <= i < j < |names| ==> names[i] != names[j]
    requires name in names
    ensures multiset(Flatten(names, members[name := members[name] + extra])) == multiset(Flatten(names, members)) + multiset(extra)
  {
    var front := names[..|names| - 1];
    if names[|names| - 1] == name {
      assert name !in front;
      FlattenIgnores(front, members, name, members[name] + extra);
    } else {
      FlattenAppend(front, members, name, extra);
    }
  }

  /** Names are the distinct truthy names in first-seen order, and each group holds, in list
      order, the ids of exactly the organisations with that name. */
  lemma {:induction false} GroupMembers(orgs: seq<Organization>)
    ensures WellFormed(Group(orgs))
    ensures forall name :: name in Group(orgs).names <==> name != "" && IdsNamed(orgs, name) != []
    ensures forall name :: name in Group(orgs).members ==> Group(orgs).members[name] == IdsNamed(orgs, name)
  {
    if orgs != [] {
      var front := orgs[..|orgs| - 1];
      var o := orgs[|orgs| - 1];
      GroupMembers(front);
      forall name
        ensures IdsNamed(orgs, name) == IdsNamed(front, name) + (if o.name == Some(name) then [IdOf(o)] else [])
      {
      }
      var g := Group(front);
      if !Truthy(o.name) {
        assert Group(orgs) == g;
      } else if o.name.value in g.members {
        assert Group(orgs) == Groups(g.names, g.members[o.name.value := g.members[o.name.value] + [IdOf(o)]]);
      } else {
        var n := o.name.value;
        assert Group(orgs) == Groups(g.names + [n], g.members[n := [IdOf(o)]]);
        forall name
          ensures name in g.names + [n] <==> name != "" && IdsNamed(orgs, name) != []
        {
          assert name in g.names + [n] <==> name in g.names || name == n;
        }
      }
    }
  }

  /** Together the groups hold every named organisation once. */
  lemma {:induction false} GroupFlatten(orgs: seq<Organization>)
    ensures WellFormed(Group(orgs))
    ensures multiset(Flatten(Group(orgs).names, Group(orgs).members)) == multiset(NamedIds(orgs))
  {
    GroupMembers(orgs);
    if orgs != [] {
      var front := orgs[..|orgs| - 1];
      var o := orgs[|orgs| - 1];
      var g := Group(front);
      GroupFlatten(front);
      if Truthy(o.name) {
        var name := o.name.value;
        if name in g.members {
          FlattenAppend(g.names, g.members, name, [IdOf(o)]);
        } else {
          FlattenIgnores(g.names, g.members, name, [IdOf(o)]);
        }
      }
    }
  }

  // ---------------------------------------------------------------------
  // Sorting by id under `localeCompare`

  /** The locale comparison of ids is taken to be a total preorder on strings. */
  ghost predicate TotalPreorder(leq: (string, string) -> bool) {
    (forall a, b :: leq(a, b) || leq(b, a))
    && (forall a, b, c :: leq(a, b) && leq(b, c) ==> leq(a, c))
  }

  ghost predicate SortedBy(s: seq<string>, leq: (string, string) -> bool) {
    forall i, j :: 0 <= i < j < |s| ==> leq(s[i], s[j])
  }

  /** Places `x` after every element that is not greater than it, as a stable sort does. */
  function Insert(sorted: seq<string>, x: string, leq: (string, string) -> bool): (r: seq<string>)
    ensures multiset(r) == multiset(sorted) + multiset{x}
    ensures |r| == |sorted| + 1
  {
    if sorted == [] then [x]
    else if leq(sorted[|sorted| - 1], x) then sorted + [x]
    else
      assert sorted == sorted[..|sorted| - 1] + [sorted[|sorted| - 1]];
      Insert(sorted[..|sorted| - 1], x, leq) + [sorted[|sorted| - 1]]
  }

  /** `Array.prototype.sort` with the id comparator (a stable insertion sort). */
  function Sort(s: seq<string>, leq: (string, string) -> bool): (r: seq<string>)
    ensures multiset(r) == multiset(s)
    ensures |r| == |s|
  {
    if s == [] then []
    else
      assert s == s[..|s| - 1] + [s[|s| - 1]];
      Insert(Sort(s[..|s| - 1], leq), s[|s| - 1], leq)
  }

  lemma {:induction false} InsertSorted(sorted: seq<string>, x: string, leq: (string, string) -> bool)
    requires TotalPreorder(leq) && SortedBy(sorted, leq)
    ensures SortedBy(Insert(sorted, x, leq), leq)
  {
    if sorted != [] && !leq(sorted[|sorted| - 1], x) {
      var front := sorted[..|sorted| - 1];
      var last := sorted[|sorted| - 1];
      InsertSorted(front, x, leq);
      var r := Insert(front, x, leq);
      forall i | 0 <= i < |r|
        ensures leq(r[i], last)
      {
        assert r[i] in multiset(r);
        if r[i] != x {
          assert r[i] in multiset(front);
          var k :| 0 <= k < |front| && front[k] == r[i];
          assert leq(sorted[k], sorted[|sorted| - 1]);
        }
      }
    }
  }

  lemma {:induction false} SortSorted(s: seq<string>, leq: (string, string) -> bool)
    requires TotalPreorder(leq)
    ensures SortedBy(Sort(s, leq), leq)
  {
    if s != [] {
      SortSorted(s[..|s| - 1], leq);
      InsertSorted(Sort(s[..|s| - 1], leq), s[|s| - 1], leq);
    }
  }

  // ---------------------------------------------------------------------
  // Marking

  /** `duplicatesToDelete`: for each group of two or more, in name order, the sorted ids after the first. */
  function Marks(names: seq<string>, members: map<string, seq<string>>, leq: (string, string) -> bool): seq<string>
    requires forall name :: name in names ==> name in members
  {
    if names == [] then []
    else
      var group := members[names[|names| - 1]];
      Marks(names[..|names| - 1], members, leq) + (if |group| > 1 then Sort(group, leq)[1..] else [])
  }

  /** The id kept in each group, in name order. */
  function Kept(names: seq<string>, members: map<string, seq<string>>, leq: (string, string) -> bool): seq<string>
    requires forall name :: name in names ==> name in members && members[name] != []
  {
    if names == [] then []
    else Kept(names[..|names| - 1], members, leq) + [Sort(members[names[|names| - 1]], leq)[0]]
  }

  /** Each group splits into its kept id and its marked ids. */
  lemma {:induction false} MarksAndKept(names: seq<string>, members: map<string, seq<string>>, leq: (string, string) -> bool)
    requires forall name :: name in names ==> name in members && members[name] != []
    ensures multiset(Marks(names, members, leq)) + multiset(Kept(names, members, leq)) == multiset(Flatten(names, members))
    ensures |Kept(names, members, leq)| == |names|
  {
    if names != [] {
      var front := names[..|names| - 1];
      var group := members[names[|names| - 1]];
      MarksAndKept(front, members, leq);
      var sorted := Sort(group, leq);
      Lists.MultisetHeadTail(sorted);
      MarksKeptStep(names, members, leq);
    }
  }

  /** The last name adds its group's marked ids, its kept id and its whole group. */
  lemma MarksKeptStep(names: seq<string>, members: map<string, seq<string>>, leq: (string, string) -> bool)
    requires forall name :: name in names ==> name in members && members[name] != []
    requires names != []
    ensures var front := names[..|names| - 1];
            var group := members[names[|names| - 1]];
            var sorted := Sort(group, leq);
            && Marks(names, members, leq) == Marks(front, members, leq) + (if |group| > 1 then sorted[1..] else [])
            && Kept(names, members, leq) == Kept(front, members, leq) + [sorted[0]]
            && Flatten(names, members) == Flatten(front, members) + group
  {
  }

  /** Only members of groups of two or more are ever marked. */
  lemma {:induction false} MarkedComeFromDuplicates(names: seq<string>, members: map<string, seq<string>>, leq: (string, string) -> bool, x: string)
    requires forall name :: name in names ==> name in members
    requires x in Marks(names, members, leq)
    ensures exists name :: name in names && |members[name]| > 1 && x in members[name]
  {
    var last := names[|names| - 1];
    var group := members[last];
    if x in Marks(names[..|names| - 1], members, leq) {
      MarkedComeFromDuplicates(names[..|names| - 1], members, leq, x);
      var name :| name in names[..|names| - 1] && |members[name]| > 1 && x in members[name];
      assert name in names;
    } else {
      assert |group| > 1 && x in Sort(group, leq)[1..];
      assert x in multiset(Sort(group, leq));
      assert last in names;
    }
  }

  /** What the script marks for deletion, from the search result. */
  function MarkedIds(entries: seq<Option<Organization>>, leq: (string, string) -> bool): seq<string> {
    var g := Group(Listed(entries));
    GroupMembers(Listed(entries));
    Marks(g.names, g.members, leq)
  }

  /** The id kept for a name. */
  function KeptId(entries: seq<Option<Organization>>, leq: (string, string) -> bool, name: string): string
    requires name in Group(Listed(entries)).names
  {
    GroupMembers(Listed(entries));
    Sort(Group(Listed(entries)).members[name], leq)[0]
  }

  /** The kept id of every group, in name order. */
  function KeptIds(entries: seq<Option<Organization>>, leq: (string, string) -> bool): seq<string> {
    var g := Group(Listed(entries));
    GroupMembers(Listed(entries));
    Kept(g.names, g.members, leq)
  }

  /** The marked ids and the kept ids together are the named ids, one kept id per name. */
  lemma SplitMarkedKept(entries: seq<Option<Organization>>, leq: (string, string) -> bool)
    ensures multiset(MarkedIds(entries, leq)) + multiset(KeptIds(entries, leq)) == multiset(NamedIds(Listed(entries)))
    ensures |KeptIds(entries, leq)| == |Group(Listed(entries)).names|
  {
    var orgs := Listed(entries);
    var g := Group(orgs);
    GroupMembers(orgs);
    GroupFlatten(orgs);
    MarksAndKept(g.names, g.members, leq);
  }

  /** The kept id of a name is among the kept ids. */
  lemma KeptIdListed(entries: seq<Option<Organization>>, leq: (string, string) -> bool, name: string)
    requires name in Group(Listed(entries)).names
    ensures KeptId(entries, leq, name) in KeptIds(entries, leq)
  {
    var g := Group(Listed(entries));
    GroupMembers(Listed(entries));
    var k := KeptInKept(g.names, g.members, leq, name);
  }

  /** An element occurring at most once in a union cannot be in both parts. */
  lemma OnceNotInBoth(a: seq<string>, b: seq<string>, c: seq<string>, x: string)
    requires multiset(a) + multiset(b) == multiset(c)
    requires multiset(c)[x] <= 1 && x in b
    ensures x !in a
  {
    assert multiset(b)[x] >= 1;
    assert multiset(a)[x] + multiset(b)[x] == multiset(c)[x];
  }

  /** The number of marked ids is the number of named organisations minus the number of
      distinct names, which are exactly the truthy names, each listed once. */
  lemma MarkedCount(entries: seq<Option<Organization>>, leq: (string, string) -> bool)
    ensures var orgs := Listed(entries);
            var names := Group(orgs).names;
            && |MarkedIds(entries, leq)| == |NamedIds(orgs)| - |names|
            && (forall i, j :: 0 <= i < j < |names| ==> names[i] != names[j])
            && (forall name :: name in names <==> name != "" && IdsNamed(orgs, name) != [])
  {
    GroupMembers(Listed(entries));
    SplitMarkedKept(entries, leq);
    assert |multiset(MarkedIds(entries, leq)) + multiset(KeptIds(entries, leq))| == |multiset(NamedIds(Listed(entries)))|;
  }

  /** For each name, the kept id is one of that name's ids and is least among them under the
      comparator (not the first occurrence in the listing); the marked ids are precisely the
      others when the group has two or more. */
  lemma KeptIsLeast(entries: seq<Option<Organization>>, leq: (string, string) -> bool, name: string)
    requires TotalPreorder(leq)
    requires name in Group(Listed(entries)).names
    ensures var ids := IdsNamed(Listed(entries), name);
            var kept := KeptId(entries, leq, name);
            && kept in ids
            && (forall x :: x in ids ==> leq(kept, x))
  {
    var ids := IdsNamed(Listed(entries), name);
    GroupMembers(Listed(entries));
    var sorted := Sort(ids, leq);
    SortSorted(ids, leq);
    assert sorted[0] in multiset(ids);
    forall x | x in ids
      ensures leq(sorted[0], x)
    {
      assert x in multiset(sorted);
      var k :| 0 <= k < |sorted| && sorted[k] == x;
      if k == 0 {
        assert leq(x, x) || leq(x, x);
      }
    }
  }

  /** An id that no named organisation carries is not among the named ids. */
  lemma {:induction false} NotAmongNamed(orgs: seq<Organization>, x: string)
    requires forall i :: 0 <= i < |orgs| && Truthy(orgs[i].name) ==> IdOf(orgs[i]) != x
    ensures x !in NamedIds(orgs)
  {
    if orgs != [] {
      NotAmongNamed(orgs[..|orgs| - 1], x);
    }
  }

  /** With unique ids, every named id occurs once. */
  lemma {:induction false} DistinctNamedIds(orgs: seq<Organization>)
    requires DistinctIds(orgs)
    ensures forall x :: multiset(NamedIds(orgs))[x] <= 1
  {
    if orgs != [] {
      var front := orgs[..|orgs| - 1];
      assert DistinctIds(front);
      DistinctNamedIds(front);
      NotAmongNamed(front, IdOf(orgs[|orgs| - 1]));
    }
  }

  /** With unique ids, the kept organisation of a name is never marked. */
  lemma KeptNeverMarked(entries: seq<Option<Organization>>, leq: (string, string) -> bool, name: string)
    requires DistinctIds(Listed(entries))
    requires name in Group(Listed(entries)).names
    ensures KeptId(entries, leq, name) !in MarkedIds(entries, leq)
  {
    SplitMarkedKept(entries, leq);
    KeptIdListed(entries, leq, name);
    DistinctNamedIds(Listed(entries));
    OnceNotInBoth(MarkedIds(entries, leq), KeptIds(entries, leq), NamedIds(Listed(entries)), KeptId(entries, leq, name));
  }

  /** Every marked id is the id of a named organisation. */
  lemma MarkedAreNamed(entries: seq<Option<Organization>>, leq: (string, string) -> bool)
    ensures multiset(MarkedIds(entries, leq)) <= multiset(NamedIds(Listed(entries)))
  {
    SplitMarkedKept(entries, leq);
  }

  /** With unique ids, an organisation without a truthy name is never marked. */
  lemma UnnamedNeverMarked(entries: seq<Option<Organization>>, leq: (string, string) -> bool, o: Organization)
    requires DistinctIds(Listed(entries))
    requires o in Listed(entries) && !Truthy(o.name)
    ensures IdOf(o) !in MarkedIds(entries, leq)
  {
    var orgs := Listed(entries);
    MarkedAreNamed(entries, leq);
    var j :| 0 <= j < |orgs| && orgs[j] == o;
    forall i | 0 <= i < |orgs| && Truthy(orgs[i].name)
      ensures IdOf(orgs[i]) != IdOf(o)
    {
      assert i != j;
    }
    NotAmongNamed(orgs, IdOf(o));
    assert multiset(NamedIds(orgs))[IdOf(o)] == 0;
    assert multiset(MarkedIds(entries, leq))[IdOf(o)] == 0;
  }

  /** Every marked id belongs to a name shared by two or more organisations. */
  lemma MarkedShareAName(entries: seq<Option<Organization>>, leq: (string, string) -> bool, x: string)
    requires x in MarkedIds(entries, leq)
    ensures exists name :: name in Group(Listed(entries)).names && |IdsNamed(Listed(entries), name)| > 1 && x in IdsNamed(Listed(entries), name)
  {
    var g := Group(Listed(entries));
    GroupMembers(Listed(entries));
    MarkedComeFromDuplicates(g.names, g.members, leq, x);
  }

  lemma {:induction false} KeptInKept(names: seq<string>, members: map<string, seq<string>>, leq: (string, string) -> bool, name: string)
    returns (k: nat)
    requires forall n :: n in names ==> n in members && members[n] != []
    requires name in names
    ensures k < |Kept(names, members, leq)| && Kept(names, members, leq)[k] == Sort(members[name], leq)[0]
  {
    if names[|names| - 1] == name {
      k := |names| - 1;
      MarksAndKept(names, members, leq);
    } else {
      k := KeptInKept(names[..|names| - 1], members, leq, name);
    }
  }

  // ---------------------------------------------------------------------
  // The script

  /** How many of `ids` the store deletes without an error. */
  function Succeeded(ids: seq<string>, deleteOk: string -> bool): nat {
    if ids == [] then 0
    else Succeeded(ids[..|ids| - 1], deleteOk) + (if deleteOk(ids[|ids| - 1]) then 1 else 0)
  }

  /** The loop that fills `organizationsByName`. */
  method GroupByName(organizations: seq<Organization>) returns (names: seq<string>, byName: map<string, seq<string>>)
    ensures Groups(names, byName) == Group(organizations)
  {
    names, byName := [], map[];
    var i := 0;
    while i < |organizations|
      invariant 0 <= i <= |organizations|
      invariant Groups(names, byName) == Group(organizations[..i])
    {
      var org := organizations[i];
      assert organizations[..i + 1] == organizations[..i] + [org];
      assert organizations[..i + 1][..i] == organizations[..i];
      if Truthy(org.name) {
        var name := org.name.value;
        if name in byName {
          byName := byName[name := byName[name] + [IdOf(org)]];
        } else {
          names := names + [name];
          byName := byName[name := [IdOf(org)]];
        }
      }
      i := i + 1;
    }
    assert organizations[..i] == organizations;
  }

  /** The inner loop: push every sorted id after the first. */
  method PushAllButFirst(acc: seq<string>, sorted: seq<string>) returns (r: seq<string>)
    requires |sorted| > 0
    ensures r == acc + sorted[1..]
  {
    r := acc;
    var j := 1;
    while j < |sorted|
      invariant 1 <= j <= |sorted|
      invariant r == acc + sorted[1..j]
    {
      Lists.AppendAssociative(acc, sorted[1..j], [sorted[j]]);
      assert sorted[1..j + 1] == sorted[1..j] + [sorted[j]];
      r := r + [sorted[j]];
      j := j + 1;
    }
    assert sorted[1..j] == sorted[1..];
  }

  /** Taking one more name adds that group's marked ids at the end. */
  lemma MarksStep(names: seq<string>, members: map<string, seq<string>>, leq: (string, string) -> bool, k: nat)
    requires forall name :: name in names ==> name in members
    requires k < |names|
    ensures var group := members[names[k]];
            Marks(names[..k + 1], members, leq)
              == Marks(names[..k], members, leq) + (if |group| > 1 then Sort(group, leq)[1..] else [])
  {
    assert names[..k + 1][..k] == names[..k];
  }

  /** The loop over the groups that fills `duplicatesToDelete`. */
  method MarkDuplicates(names: seq<string>, byName: map<string, seq<string>>, leq: (string, string) -> bool)
    returns (duplicatesToDelete: seq<string>)
    requires forall name :: name in names ==> name in byName
    ensures duplicatesToDelete == Marks(names, byName, leq)
  {
    duplicatesToDelete := [];
    var k := 0;
    while k < |names|
      invariant 0 <= k <= |names|
      invariant duplicatesToDelete == Marks(names[..k], byName, leq)
    {
      var orgs := byName[names[k]];
      if |orgs| > 1 {
        duplicatesToDelete := PushAllButFirst(duplicatesToDelete, Sort(orgs, leq));
      }
      MarksStep(names, byName, leq, k);
      k := k + 1;
    }
    assert names[..k] == names;
  }

  /** The delete loop: a failed delete is counted and the loop goes on. */
  method DeleteAll(ids: seq<string>, deleteOk: string -> bool) returns (deletedCount: nat, errorCount: nat)
    ensures deletedCount == Succeeded(ids, deleteOk)
    ensures deletedCount + errorCount == |ids|
  {
    deletedCount, errorCount := 0, 0;
    var n := 0;
    while n < |ids|
      invariant 0 <= n <= |ids|
      invariant deletedCount == Succeeded(ids[..n], deleteOk)
      invariant deletedCount + errorCount == n
    {
      if deleteOk(ids[n]) {
        deletedCount := deletedCount + 1;
      } else {
        errorCount := errorCount + 1;
      }
      assert ids[..n + 1][..n] == ids[..n];
      n := n + 1;
    }
    assert ids[..n] == ids;
  }

  /** The body of `main` after the search; no delete is attempted when nothing is marked. */
  method PruneDuplicates(entries: seq<Option<Organization>>, leq: (string, string) -> bool, deleteOk: string -> bool)
    returns (duplicatesToDelete: seq<string>, deletedCount: nat, errorCount: nat)
    ensures duplicatesToDelete == MarkedIds(entries, leq)
    ensures deletedCount == Succeeded(duplicatesToDelete, deleteOk)
    ensures deletedCount + errorCount == |duplicatesToDelete|
  {
    var organizations := Listed(entries);
    var names, byName := GroupByName(organizations);
    GroupMembers(organizations);
    duplicatesToDelete := MarkDuplicates(names, byName, leq);
    if |duplicatesToDelete| > 0 {
      deletedCount, errorCount := DeleteAll(duplicatesToDelete, deleteOk);
    } else {
      deletedCount, errorCount := 0, 0;
    }
  }
}
