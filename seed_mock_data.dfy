/** The mock-data seeding pipeline of the server package: files are read in a fixed
    dependency order, and each resource gets a normalised id, the target project,
    display strings on its references, and a create / update / delete-then-create
    decision against the store, which bumps exactly one of three counters. */
module SeedMockData {
  import opened Fhir

  // ---------------------------------------------------------------------
  // JSON values, as the reference walk sees them

  datatype Json =
    | JNull
    | JBool(b: bool)
    | JNum(n: int)
    | JStr(s: string)
    | JArr(items: seq<Json>)
    | JObj(fields: seq<Member>)

  /** One own key of an object, in insertion order. */
  datatype Member = Member(key: string, value: Json)

  /** JavaScript falsiness of a JSON value (NaN is not modelled). */
  predicate Falsy(v: Json) {
    v == JNull || v == JBool(false) || v == JNum(0) || v == JStr("")
  }

  /** `obj[key]` for the first member with that key. */
  function Lookup(fields: seq<Member>, key: string): Option<Json> {
    if fields == [] then None
    else if fields[0].key == key then Some(fields[0].value)
    else Lookup(fields[1..], key)
  }

  /** Assigning an object key: replaces the member in place, or appends it. */
  function SetMember(fields: seq<Member>, key: string, x: Json): seq<Member> {
    if fields == [] then [Member(key, x)]
    else if fields[0].key == key then [Member(key, x)] + fields[1..]
    else [fields[0]] + SetMember(fields[1..], key, x)
  }

  lemma LookupSetMember(fields: seq<Member>, key: string, x: Json, other: string)
    ensures Lookup(SetMember(fields, key, x), other) == if other == key then Some(x) else Lookup(fields, other)
  {
  }

  /** `isReference(value)`: an object whose `reference` member is a string. */
  predicate IsReference(v: Json) {
    v.JObj? && Lookup(v.fields, "reference").Some? && Lookup(v.fields, "reference").value.JStr?
  }

  function RefText(v: Json): string
    requires IsReference(v)
  {
    Lookup(v.fields, "reference").value.s
  }

  /** The reference carries a non-empty display. */
  predicate HasDisplay(v: Json)
    requires v.JObj?
  {
    var d := Lookup(v.fields, "display");
    d.Some? && !Falsy(d.value)
  }

  /** A non-empty reference string and no display: the only references the walk may touch. */
  predicate NeedsDisplay(v: Json) {
    IsReference(v) && RefText(v) != "" && !HasDisplay(v)
  }

  function SetDisplay(v: Json, d: string): Json
    requires v.JObj?
  {
    JObj(SetMember(v.fields, "display", JStr(d)))
  }

  lemma SetDisplayKeepsReference(v: Json, d: string)
    requires IsReference(v)
    ensures IsReference(SetDisplay(v, d)) && RefText(SetDisplay(v, d)) == RefText(v)
    ensures HasDisplay(SetDisplay(v, d)) <==> d != ""
  {
    LookupSetMember(v.fields, "display", JStr(d), "reference");
    LookupSetMember(v.fields, "display", JStr(d), "display");
  }

  // ---------------------------------------------------------------------
  // The store and the display resolution

  type Key = (string, string)

  datatype Meta = Meta(project: Option<string>, others: map<string, string>)

  datatype Resource = Resource(resourceType: string, id: Option<string>, meta: Option<Meta>, body: Json)

  function ProjectOf(r: Resource): Option<string> {
    if r.meta.Some? then r.meta.value.project else None
  }

  /** What the store holds: every resource under (resourceType, id). */
  type Store = map<Key, Resource>

  /** The type and id read from the first two slash-separated segments of a reference; a missing id reads as empty. */
  function TargetKey(ref: string): Key {
    var id := SecondSegment(ref);
    (FirstSegment(ref), if id.Some? then id.value else "")
  }

  /** The referenced resource reads back and its display string is non-empty and differs
      from the reference literal; `displayOf` stands for the library's `getDisplayString`. */
  predicate Resolvable(ref: string, store: Store, displayOf: Resource -> string) {
    var k := TargetKey(ref);
    k.0 != "" && k.1 != "" && k in store
    && displayOf(store[k]) != "" && displayOf(store[k]) != ref
  }

  function DisplayAt(ref: string, store: Store, displayOf: Resource -> string): string
    requires Resolvable(ref, store, displayOf)
  {
    displayOf(store[TargetKey(ref)])
  }

  datatype Resolved = Resolved(value: Json, cache: map<string, string>)
  datatype ResolvedItems = ResolvedItems(values: seq<Json>, cache: map<string, string>)
  datatype ResolvedMembers = ResolvedMembers(members: seq<Member>, cache: map<string, string>)

  /** One reference: cached display first, else a read of the target; failures leave it as it is. */
  function ResolveRef(v: Json, cache: map<string, string>, store: Store, displayOf: Resource -> string): Resolved
    requires IsReference(v)
  {
    if !NeedsDisplay(v) then Resolved(v, cache)
    else
      var ref := RefText(v);
      if ref in cache && cache[ref] != "" then Resolved(SetDisplay(v, cache[ref]), cache)
      else if Resolvable(ref, store, displayOf) then
        var d := DisplayAt(ref, store, displayOf);
        Resolved(SetDisplay(v, d), cache[ref := d])
      else Resolved(v, cache)
  }

  /** `processValue`: the recursive walk over every array element and every own key. */
  function Resolve(v: Json, cache: map<string, string>, store: Store, displayOf: Resource -> string): Resolved
    decreases v
  {
    if Falsy(v) then Resolved(v, cache)
    else if IsReference(v) then ResolveRef(v, cache, store, displayOf)
    else match v
      case JArr(items) =>
        var r := ResolveItems(items, cache, store, displayOf);
        Resolved(JArr(r.values), r.cache)
      case JObj(fields) =>
        var r := ResolveMembers(fields, cache, store, displayOf);
        Resolved(JObj(r.members), r.cache)
      case _ => Resolved(v, cache)
  }

  function ResolveItems(s: seq<Json>, cache: map<string, string>, store: Store, displayOf: Resource -> string): ResolvedItems
    decreases s
  {
    if s == [] then ResolvedItems([], cache)
    else
      var front := ResolveItems(s[..|s| - 1], cache, store, displayOf);
      var last := Resolve(s[|s| - 1], front.cache, store, displayOf);
      ResolvedItems(front.values + [last.value], last.cache)
  }

  function ResolveMembers(s: seq<Member>, cache: map<string, string>, store: Store, displayOf: Resource -> string): ResolvedMembers
    decreases s
  {
    if s == [] then ResolvedMembers([], cache)
    else
      var front := ResolveMembers(s[..|s| - 1], cache, store, displayOf);
      var last := Resolve(s[|s| - 1].value, front.cache, store, displayOf);
      ResolvedMembers(front.members + [Member(s[|s| - 1].key, last.value)], last.cache)
  }

  /** `r` is `v` with, at most, a non-empty `display` added to references that needed one:
      same shape, same keys, references that had a display and every other value untouched. */
  ghost predicate DisplaysAdded(v: Json, r: Json)
    decreases v
  {
    if Falsy(v) then r == v
    else if IsReference(v) then r == v || (NeedsDisplay(v) && exists d :: d != "" && r == SetDisplay(v, d))
    else match v
      case JArr(items) =>
        r.JArr? && |r.items| == |items|
        && forall i :: 0 <= i < |items| ==> DisplaysAdded(items[i], r.items[i])
      case JObj(fields) =>
        r.JObj? && |r.fields| == |fields|
        && forall i :: 0 <= i < |fields| ==> r.fields[i].key == fields[i].key && DisplaysAdded(fields[i].value, r.fields[i].value)
      case _ => r == v
  }

  /** Every cached display is what a read of its target gives now. */
  ghost predicate CacheConsistent(cache: map<string, string>, store: Store, displayOf: Resource -> string) {
    forall ref :: ref in cache ==> Resolvable(ref, store, displayOf) && cache[ref] == DisplayAt(ref, store, displayOf)
  }

  /** No cached display is ever dropped or replaced. */
  ghost predicate Extends(c: map<string, string>, c': map<string, string>) {
    forall ref :: ref in c && c[ref] != "" ==> ref in c' && c'[ref] == c[ref]
  }

  /** No reference is left that the walk could still resolve. */
  ghost predicate Settled(v: Json, store: Store, displayOf: Resource -> string)
    decreases v
  {
    if Falsy(v) then true
    else if IsReference(v) then !NeedsDisplay(v) || !Resolvable(RefText(v), store, displayOf)
    else match v
      case JArr(items) => forall i :: 0 <= i < |items| ==> Settled(items[i], store, displayOf)
      case JObj(fields) => forall i :: 0 <= i < |fields| ==> Settled(fields[i].value, store, displayOf)
      case _ => true
  }

  lemma ResolveRefFacts(v: Json, cache: map<string, string>, store: Store, displayOf: Resource -> string)
    requires IsReference(v)
    ensures DisplaysAdded(v, ResolveRef(v, cache, store, displayOf).value)
    ensures Extends(cache, ResolveRef(v, cache, store, displayOf).cache)
    ensures CacheConsistent(cache, store, displayOf) ==>
      CacheConsistent(ResolveRef(v, cache, store, displayOf).cache, store, displayOf)
      && Settled(ResolveRef(v, cache, store, displayOf).value, store, displayOf)
  {
    if NeedsDisplay(v) {
      var ref := RefText(v);
      if ref in cache && cache[ref] != "" {
        SetDisplayKeepsReference(v, cache[ref]);
        assert !Falsy(SetDisplay(v, cache[ref]));
      } else if Resolvable(ref, store, displayOf) {
        var d := DisplayAt(ref, store, displayOf);
        SetDisplayKeepsReference(v, d);
        assert !Falsy(SetDisplay(v, d));
      }
    }
  }

  /** The walk only adds displays and only grows the cache; from a consistent cache it keeps
      the cache consistent and leaves nothing resolvable behind. */
  lemma {:induction false} ResolveFacts(v: Json, cache: map<string, string>, store: Store, displayOf: Resource -> string)
    ensures DisplaysAdded(v, Resolve(v, cache, store, displayOf).value)
    ensures Extends(cache, Resolve(v, cache, store, displayOf).cache)
    ensures CacheConsistent(cache, store, displayOf) ==>
      CacheConsistent(Resolve(v, cache, store, displayOf).cache, store, displayOf)
      && Settled(Resolve(v, cache, store, displayOf).value, store, displayOf)
    decreases v
  {
    if Falsy(v) {
    } else if IsReference(v) {
      ResolveRefFacts(v, cache, store, displayOf);
    } else {
      match v
      case JArr(items) =>
        ResolveItemsFacts(items, cache, store, displayOf);
      case JObj(fields) =>
        ResolveMembersFacts(fields, cache, store, displayOf);
        var out := ResolveMembers(fields, cache, store, displayOf).members;
        LookupPointwise(fields, out, "reference");
        if Lookup(fields, "reference").Some? {
          DisplaysAddedKeepsStrings(Lookup(fields, "reference").value, Lookup(out, "reference").value);
        }
      case _ =>
    }
  }

  /** Pointwise-related members answer every key lookup with related values. */
  lemma {:induction false} LookupPointwise(fields: seq<Member>, out: seq<Member>, key: string)
    requires |out| == |fields|
    requires forall i :: 0 <= i < |fields| ==> out[i].key == fields[i].key && DisplaysAdded(fields[i].value, out[i].value)
    ensures Lookup(fields, key).Some? <==> Lookup(out, key).Some?
    ensures Lookup(fields, key).Some? ==> DisplaysAdded(Lookup(fields, key).value, Lookup(out, key).value)
  {
    if fields != [] && fields[0].key != key {
      LookupPointwise(fields[1..], out[1..], key);
    }
  }

  /** Only strings become strings: adding displays never turns an object into a reference. */
  lemma DisplaysAddedKeepsStrings(v: Json, r: Json)
    requires DisplaysAdded(v, r)
    ensures r.JStr? ==> v.JStr?
  {
    if IsReference(v) && r != v {
      var d :| d != "" && r == SetDisplay(v, d);
    }
  }

  lemma {:induction false} ResolveItemsFacts(s: seq<Json>, cache: map<string, string>, store: Store, displayOf: Resource -> string)
    ensures |ResolveItems(s, cache, store, displayOf).values| == |s|
    ensures forall i :: 0 <= i < |s| ==> DisplaysAdded(s[i], ResolveItems(s, cache, store, displayOf).values[i])
    ensures Extends(cache, ResolveItems(s, cache, store, displayOf).cache)
    ensures CacheConsistent(cache, store, displayOf) ==>
      CacheConsistent(ResolveItems(s, cache, store, displayOf).cache, store, displayOf)
      && forall i :: 0 <= i < |s| ==> Settled(ResolveItems(s, cache, store, displayOf).values[i], store, displayOf)
    decreases s
  {
    if s != [] {
      var front := ResolveItems(s[..|s| - 1], cache, store, displayOf);
      ResolveItemsFacts(s[..|s| - 1], cache, store, displayOf);
      ResolveFacts(s[|s| - 1], front.cache, store, displayOf);
      var r := ResolveItems(s, cache, store, displayOf);
      forall i | 0 <= i < |s| - 1
        ensures s[i] == s[..|s| - 1][i] && r.values[i] == front.values[i]
      {
      }
    }
  }

  lemma {:induction false} ResolveMembersFacts(s: seq<Member>, cache: map<string, string>, store: Store, displayOf: Resource -> string)
    ensures |ResolveMembers(s, cache, store, displayOf).members| == |s|
    ensures forall i :: 0 <= i < |s| ==>
      ResolveMembers(s, cache, store, displayOf).members[i].key == s[i].key
      && DisplaysAdded(s[i].value, ResolveMembers(s, cache, store, displayOf).members[i].value)
    ensures Extends(cache, ResolveMembers(s, cache, store, displayOf).cache)
    ensures CacheConsistent(cache, store, displayOf) ==>
      CacheConsistent(ResolveMembers(s, cache, store, displayOf).cache, store, displayOf)
      && forall i :: 0 <= i < |s| ==> Settled(ResolveMembers(s, cache, store, displayOf).members[i].value, store, displayOf)
    decreases s
  {
    if s != [] {
      var front := ResolveMembers(s[..|s| - 1], cache, store, displayOf);
      ResolveMembersFacts(s[..|s| - 1], cache, store, displayOf);
      ResolveFacts(s[|s| - 1].value, front.cache, store, displayOf);
      var r := ResolveMembers(s, cache, store, displayOf);
      forall i | 0 <= i < |s| - 1
        ensures s[i] == s[..|s| - 1][i] && r.members[i] == front.members[i]
      {
      }
    }
  }

  /** On a settled value with a consistent cache the walk changes nothing and reads nothing new. */
  lemma {:induction false} SettledIsFixed(v: Json, cache: map<string, string>, store: Store, displayOf: Resource -> string)
    requires Settled(v, store, displayOf) && CacheConsistent(cache, store, displayOf)
    ensures Resolve(v, cache, store, displayOf) == Resolved(v, cache)
    decreases v
  {
    if !Falsy(v) && !IsReference(v) {
      match v
      case JArr(items) =>
        SettledItemsFixed(items, cache, store, displayOf);
      case JObj(fields) =>
        SettledMembersFixed(fields, cache, store, displayOf);
      case _ =>
    }
  }

  lemma {:induction false} SettledItemsFixed(s: seq<Json>, cache: map<string, string>, store: Store, displayOf: Resource -> string)
    requires forall i :: 0 <= i < |s| ==> Settled(s[i], store, displayOf)
    requires CacheConsistent(cache, store, displayOf)
    ensures ResolveItems(s, cache, store, displayOf) == ResolvedItems(s, cache)
    decreases s
  {
    if s != [] {
      SettledItemsFixed(s[..|s| - 1], cache, store, displayOf);
      SettledIsFixed(s[|s| - 1], cache, store, displayOf);
      assert s[..|s| - 1] + [s[|s| - 1]] == s;
    }
  }

  lemma {:induction false} SettledMembersFixed(s: seq<Member>, cache: map<string, string>, store: Store, displayOf: Resource -> string)
    requires forall i :: 0 <= i < |s| ==> Settled(s[i].value, store, displayOf)
    requires CacheConsistent(cache, store, displayOf)
    ensures ResolveMembers(s, cache, store, displayOf) == ResolvedMembers(s, cache)
    decreases s
  {
    if s != [] {
      SettledMembersFixed(s[..|s| - 1], cache, store, displayOf);
      SettledIsFixed(s[|s| - 1].value, cache, store, displayOf);
      assert s[..|s| - 1] + [Member(s[|s| - 1].key, s[|s| - 1].value)] == s;
    }
  }

  /** Resolving twice gives what resolving once gave: the second pass alters no value and
      adds nothing to the cache. */
  lemma ResolveIdempotent(v: Json, cache: map<string, string>, store: Store, displayOf: Resource -> string)
    requires CacheConsistent(cache, store, displayOf)
    ensures var once := Resolve(v, cache, store, displayOf);
            Resolve(once.value, once.cache, store, displayOf) == once
  {
    var once := Resolve(v, cache, store, displayOf);
    ResolveFacts(v, cache, store, displayOf);
    SettledIsFixed(once.value, once.cache, store, displayOf);
  }

  /** A reference lacking a display whose target reads back with a usable display string
      ends up carrying exactly that string, whether it came from the cache or from the read. */
  lemma ResolvedReferenceShowsTarget(v: Json, cache: map<string, string>, store: Store, displayOf: Resource -> string)
    requires NeedsDisplay(v) && Resolvable(RefText(v), store, displayOf)
    requires CacheConsistent(cache, store, displayOf)
    ensures Resolve(v, cache, store, displayOf).value == SetDisplay(v, DisplayAt(RefText(v), store, displayOf))
    ensures RefText(v) in Resolve(v, cache, store, displayOf).cache
  {
    assert !Falsy(v);
  }

  /** A reference lacking a display whose target does not read back (or reads back with an
      empty display, or one equal to the literal) is left as it was, and nothing is cached. */
  lemma UnresolvableReferenceUnchanged(v: Json, cache: map<string, string>, store: Store, displayOf: Resource -> string)
    requires NeedsDisplay(v) && !Resolvable(RefText(v), store, displayOf)
    requires CacheConsistent(cache, store, displayOf)
    ensures Resolve(v, cache, store, displayOf) == Resolved(v, cache)
  {
    assert !Falsy(v);
  }

  // ---------------------------------------------------------------------
  // Target project

  datatype Project = Project(id: Option<string>, name: Option<string>, superAdmin: bool)

  /** The system project that holds the FHIR definitions. */
  const R4ProjectId := "161452d9-43b7-5c29-aa7b-c85680fa45c6"

  /** The projects of the search result that are present and have a non-empty id, in order. */
  function ListedProjects(entries: seq<Option<Project>>): (ps: seq<Project>)
    ensures forall i :: 0 <= i < |ps| ==> Truthy(ps[i].id) && Some(ps[i]) in entries
    ensures forall i :: 0 <= i < |entries| && entries[i].Some? && Truthy(entries[i].value.id) ==> entries[i].value in ps
    ensures |ps| <= |entries|
  {
    if entries == [] then []
    else
      var rest := ListedProjects(entries[1..]);
      assert forall i :: 1 <= i < |entries| ==> entries[i] == entries[1..][i - 1];
      if entries[0].Some? && Truthy(entries[0].value.id) then [entries[0].value] + rest else rest
  }

  /** Listing distributes over concatenation, so the projects keep the order of the search. */
  lemma {:induction false} ListedProjectsAppend(a: seq<Option<Project>>, b: seq<Option<Project>>)
    ensures ListedProjects(a + b) == ListedProjects(a) + ListedProjects(b)
  {
    if a == [] {
      assert a + b == b;
    } else {
      assert (a + b)[1..] == a[1..] + b;
      ListedProjectsAppend(a[1..], b);
    }
  }

  predicate IsUserProject(p: Project) {
    !p.superAdmin && p.id != Some(R4ProjectId)
  }

  predicate IsNonR4Project(p: Project) {
    p.id != Some(R4ProjectId)
  }

  /** `Array.prototype.find`, as an index. */
  function FindFirst(ps: seq<Project>, f: Project -> bool): (i: Option<nat>)
    ensures i.Some? ==> i.value < |ps| && f(ps[i.value]) && forall j :: 0 <= j < i.value ==> !f(ps[j])
    ensures i.None? ==> forall j :: 0 <= j < |ps| ==> !f(ps[j])
  {
    if ps == [] then None
    else if f(ps[0]) then Some(0)
    else
      var r := FindFirst(ps[1..], f);
      if r.Some? then Some(r.value + 1) else None
  }

  /** The project the seeded resources are stamped with; `None` for a failed search. */
  function SelectTargetProject(search: Option<seq<Option<Project>>>): Option<string> {
    if search.None? then None
    else
      var ps := ListedProjects(search.value);
      var user := FindFirst(ps, IsUserProject);
      if user.Some? then ps[user.value].id
      else
        var any := FindFirst(ps, IsNonR4Project);
        if any.Some? then ps[any.value].id else None
  }

  /** The three-way rule: the first listed non-super-admin, non-R4 project; else the first
      non-R4 project; else none. A chosen id is never empty and never the R4 project. */
  lemma TargetProjectChoice(entries: seq<Option<Project>>)
    ensures var ps := ListedProjects(entries);
            var r := SelectTargetProject(Some(entries));
            && (r.Some? ==> r.value != "" && r.value != R4ProjectId)
            && (forall i :: 0 <= i < |ps| && IsUserProject(ps[i]) && (forall j :: 0 <= j < i ==> !IsUserProject(ps[j])) ==> r == ps[i].id)
            && ((forall j :: 0 <= j < |ps| ==> !IsUserProject(ps[j])) ==>
                  forall i :: 0 <= i < |ps| && IsNonR4Project(ps[i]) && (forall j :: 0 <= j < i ==> !IsNonR4Project(ps[j])) ==> r == ps[i].id)
            && ((forall j :: 0 <= j < |ps| ==> !IsNonR4Project(ps[j])) ==> r.None?)
  {
    ChosenIsValid(entries);
    UserProjectFirst(entries);
    FallbackProject(entries);
    NoneWithoutNonR4(entries, ListedProjects(entries));
  }

  lemma ChosenIsValid(entries: seq<Option<Project>>)
    ensures var r := SelectTargetProject(Some(entries));
            r.Some? ==> r.value != "" && r.value != R4ProjectId
  {
    var ps := ListedProjects(entries);
    var user := FindFirst(ps, IsUserProject);
    if user.None? {
      var any := FindFirst(ps, IsNonR4Project);
      if any.Some? {
        assert Truthy(ps[any.value].id);
      }
    } else {
      assert Truthy(ps[user.value].id);
    }
  }

  /** The first listed user project is chosen. */
  lemma UserProjectFirst(entries: seq<Option<Project>>)
    ensures var ps := ListedProjects(entries);
            forall i :: 0 <= i < |ps| && IsUserProject(ps[i]) && (forall j :: 0 <= j < i ==> !IsUserProject(ps[j])) ==>
              SelectTargetProject(Some(entries)) == ps[i].id
  {
    var ps := ListedProjects(entries);
    forall i | 0 <= i < |ps| && IsUserProject(ps[i]) && (forall j :: 0 <= j < i ==> !IsUserProject(ps[j]))
      ensures SelectTargetProject(Some(entries)) == ps[i].id
    {
      FindFirstIsFirst(ps, IsUserProject, i);
    }
  }

  /** Without a user project, the first non-R4 project is chosen. */
  lemma FallbackProject(entries: seq<Option<Project>>)
    ensures var ps := ListedProjects(entries);
            (forall j :: 0 <= j < |ps| ==> !IsUserProject(ps[j])) ==>
              forall i :: 0 <= i < |ps| && IsNonR4Project(ps[i]) && (forall j :: 0 <= j < i ==> !IsNonR4Project(ps[j])) ==>
                SelectTargetProject(Some(entries)) == ps[i].id
  {
    var ps := ListedProjects(entries);
    if FindFirst(ps, IsUserProject).None? {
      forall i | 0 <= i < |ps| && IsNonR4Project(ps[i]) && (forall j :: 0 <= j < i ==> !IsNonR4Project(ps[j]))
        ensures SelectTargetProject(Some(entries)) == ps[i].id
      {
        FindFirstIsFirst(ps, IsNonR4Project, i);
      }
    }
  }

  /** Without a non-R4 project nothing is chosen. */
  lemma NoneWithoutNonR4(entries: seq<Option<Project>>, ps: seq<Project>)
    requires ps == ListedProjects(entries)
    ensures (forall j :: 0 <= j < |ps| ==> !IsNonR4Project(ps[j])) ==> SelectTargetProject(Some(entries)).None?
  {
    var user := FindFirst(ps, IsUserProject);
    var any := FindFirst(ps, IsNonR4Project);
    if user.Some? {
      assert IsNonR4Project(ps[user.value]);
    } else if any.Some? {
      assert IsNonR4Project(ps[any.value]);
    }
  }

  /** The first index satisfying `f` is the one `FindFirst` finds. */
  lemma FindFirstIsFirst(ps: seq<Project>, f: Project -> bool, i: nat)
    requires i < |ps| && f(ps[i]) && forall j :: 0 <= j < i ==> !f(ps[j])
    ensures FindFirst(ps, f) == Some(i)
  {
  }

  // ---------------------------------------------------------------------
  // Id normalisation and project stamping

  predicate IsHexDigit(c: char) {
    '0' <= c <= '9' || 'a' <= c <= 'f' || 'A' <= c <= 'F'
  }

  /** The 8-4-4-4-12 hexadecimal form of a UUID (section 3 of RFC 4122). */
  predicate IsUuid(s: string) {
    |s| == 36
    && forall i :: 0 <= i < 36 ==> if i == 8 || i == 13 || i == 18 || i == 23 then s[i] == '-' else IsHexDigit(s[i])
  }

  /** Every draw of the version-4 generator (section 4.4 of RFC 4122) is UUID-shaped. */
  ghost predicate UuidSource(uuid: nat -> string) {
    forall n :: IsUuid(uuid(n))
  }

  /** A missing, empty or non-UUID id is replaced by a fresh one; a UUID is kept. */
  function NormalizeId(id: Option<string>, freshId: string): string {
    if Truthy(id) && IsUuid(id.value) then id.value else freshId
  }

  /** Normalisation always ends in a UUID, never touches one, and is therefore idempotent. */
  lemma NormalizeIdFacts(id: Option<string>, freshId: string, otherId: string)
    requires IsUuid(freshId)
    ensures IsUuid(NormalizeId(id, freshId))
    ensures Truthy(id) && IsUuid(id.value) ==> NormalizeId(id, freshId) == id.value
    ensures NormalizeId(Some(NormalizeId(id, freshId)), otherId) == NormalizeId(id, freshId)
  {
    assert NormalizeId(id, freshId) != "";
  }

  /** With a target, every resource but a Project gets the target as its meta project, its other meta keys kept. */
  function StampProject(r: Resource, target: Option<string>): Resource {
    if Truthy(target) && r.resourceType != "Project" then
      r.(meta := Some(Meta(target, if r.meta.Some? then r.meta.value.others else map[])))
    else r
  }

  /** With a target, a non-Project resource carries that project afterwards, whatever it had,
      and keeps its other meta keys; Project resources and runs without a target keep meta.
      Stamping a second time changes nothing. */
  lemma StampProjectFacts(r: Resource, target: Option<string>)
    ensures Truthy(target) && r.resourceType != "Project" ==>
      ProjectOf(StampProject(r, target)) == target
      && StampProject(r, target).meta.value.others == (if r.meta.Some? then r.meta.value.others else map[])
    ensures !Truthy(target) || r.resourceType == "Project" ==> StampProject(r, target) == r
    ensures StampProject(StampProject(r, target), target) == StampProject(r, target)
    ensures StampProject(r, target).(meta := r.meta) == r
  {
  }

  // ---------------------------------------------------------------------
  // One resource: the upsert decision and the counters

  datatype Ledger = Ledger(created: nat, updated: nat, errors: nat)

  function Total(l: Ledger): nat {
    l.created + l.updated + l.errors
  }

  /** The store's behaviour and the library functions the pipeline calls. */
  datatype Backend = Backend(
    target: Option<string>,
    refusesCreate: set<Key>,    // a create of these keys throws
    refusesUpdate: set<Key>,    // an update of these keys throws
    undeletable: set<Key>,      // delete of these keys throws
    uuid: nat -> string,        // the n-th draw of the UUID v4 generator
    displayOf: Resource -> string)

  datatype SeedState = SeedState(store: Store, cache: map<string, string>, ledger: Ledger, draws: nat)

  datatype Action = Create | Update | DeleteThenCreate | UpdateAfterFailedDelete

  /** The decision against an existing copy under the same type and id. */
  function Decide(store: Store, key: Key, env: Backend): Action {
    if key !in store then Create
    else if Truthy(env.target) && ProjectOf(store[key]) != env.target then
      (if key in env.undeletable then UpdateAfterFailedDelete else DeleteThenCreate)
    else Update
  }

  /** Whether the store refuses the write a decision calls for: a create after Create and
      DeleteThenCreate, an update otherwise. */
  predicate Refused(a: Action, key: Key, env: Backend) {
    if a == Create || a == DeleteThenCreate then key in env.refusesCreate else key in env.refusesUpdate
  }

  /** The resource as it is written: normalised id, stamped project, resolved references. */
  function Prepared(r0: Resource, s: SeedState, env: Backend): (Resource, SeedState) {
    var needsFresh := !(Truthy(r0.id) && IsUuid(r0.id.value));
    var id := NormalizeId(r0.id, env.uuid(s.draws));
    var draws := if needsFresh then s.draws + 1 else s.draws;
    var r1 := StampProject(r0.(id := Some(id)), env.target);
    var walked := Resolve(r1.body, s.cache, s.store, env.displayOf);
    (r1.(body := walked.value), s.(cache := walked.cache, draws := draws))
  }

  function KeyOf(r: Resource): Key
    requires r.id.Some?
  {
    (r.resourceType, r.id.value)
  }

  /** Writing a prepared resource: the decision, the store change and the counter it moves. */
  function Upsert(s: SeedState, r: Resource, env: Backend): SeedState {
    var key := (r.resourceType, if r.id.Some? then r.id.value else "");
    var l := s.ledger;
    match Decide(s.store, key, env)
    case Create | DeleteThenCreate =>
      var st := if Decide(s.store, key, env) == DeleteThenCreate then s.store - {key} else s.store;
      if key in env.refusesCreate then s.(store := st, ledger := l.(errors := l.errors + 1))
      else s.(store := st[key := r], ledger := l.(created := l.created + 1))
    case Update | UpdateAfterFailedDelete =>
      if key in env.refusesUpdate then s.(ledger := l.(errors := l.errors + 1))
      else s.(store := s.store[key := r], ledger := l.(updated := l.updated + 1))
  }

  function SeedStep(s: SeedState, r0: Resource, env: Backend): SeedState {
    var (r, s1) := Prepared(r0, s, env);
    Upsert(s1, r, env)
  }

  /** Every processed resource moves exactly one of the three counters, by one. */
  lemma ExactlyOneCounter(s: SeedState, r0: Resource, env: Backend)
    ensures var l, l' := s.ledger, SeedStep(s, r0, env).ledger;
            Total(l') == Total(l) + 1
            && (l'.created == l.created + 1 || l'.updated == l.updated + 1 || l'.errors == l.errors + 1)
            && l'.created >= l.created && l'.updated >= l.updated && l'.errors >= l.errors
  {
  }

  /** The outcome in the store for the resource's own key, case by case, and nothing else
      in the store changes; an accepted create counts as created, an accepted update as
      updated, and a refused write as an error, with the other counters unchanged. */
  lemma UpsertOutcome(s: SeedState, r0: Resource, env: Backend)
    requires UuidSource(env.uuid)
    ensures var (r, _) := Prepared(r0, s, env);
            var s' := SeedStep(s, r0, env);
            var key := KeyOf(r);
            var refused := Refused(Decide(s.store, key, env), key, env);
            && IsUuid(key.1)
            && (forall k :: k != key ==> (k in s'.store <==> k in s.store) && (k in s.store ==> s'.store[k] == s.store[k]))
            && (!refused ==> key in s'.store && s'.store[key] == r)
            && (key !in s.store ==> s'.ledger.created == s.ledger.created + 1 || key in env.refusesCreate)
            && (!refused && Decide(s.store, key, env) in {Create, DeleteThenCreate} ==>
                  s'.ledger == s.ledger.(created := s.ledger.created + 1))
            && (!refused && Decide(s.store, key, env) in {Update, UpdateAfterFailedDelete} ==>
                  s'.ledger == s.ledger.(updated := s.ledger.updated + 1))
            && (refused ==>
                  s'.ledger == s.ledger.(errors := s.ledger.errors + 1)
                  && (key in s'.store <==> Decide(s.store, key, env) != Create && Decide(s.store, key, env) != DeleteThenCreate))
            && (refused && key in s'.store ==> s'.store[key] == s.store[key])
  {
    NormalizeIdFacts(r0.id, env.uuid(s.draws), env.uuid(s.draws));
    var (r, s1) := Prepared(r0, s, env);
    assert s1.store == s.store && s1.ledger == s.ledger;
    UpsertFacts(s1, r, env);
  }

  /** Writing a resource with an id: only its own key changes in the store, and the counters
      move as the decision says. */
  lemma UpsertFacts(s: SeedState, r: Resource, env: Backend)
    requires r.id.Some?
    ensures var s' := Upsert(s, r, env);
            var key := KeyOf(r);
            var refused := Refused(Decide(s.store, key, env), key, env);
            && (forall k :: k != key ==> (k in s'.store <==> k in s.store) && (k in s.store ==> s'.store[k] == s.store[k]))
            && (!refused ==> key in s'.store && s'.store[key] == r)
            && (key !in s.store ==> s'.ledger.created == s.ledger.created + 1 || key in env.refusesCreate)
            && (!refused && Decide(s.store, key, env) in {Create, DeleteThenCreate} ==>
                  s'.ledger == s.ledger.(created := s.ledger.created + 1))
            && (!refused && Decide(s.store, key, env) in {Update, UpdateAfterFailedDelete} ==>
                  s'.ledger == s.ledger.(updated := s.ledger.updated + 1))
            && (refused ==>
                  s'.ledger == s.ledger.(errors := s.ledger.errors + 1)
                  && (key in s'.store <==> Decide(s.store, key, env) != Create && Decide(s.store, key, env) != DeleteThenCreate))
            && (refused && key in s'.store ==> s'.store[key] == s.store[key])
  {
  }

  /** A copy that sits in another project than the target: a successful delete and create
      leaves one copy in the target project; a failed create after the delete leaves no copy
      at all; a failed delete falls back to an update in place. */
  lemma CrossProjectConflict(s: SeedState, r0: Resource, env: Backend)
    requires UuidSource(env.uuid)
    requires var (r, _) := Prepared(r0, s, env);
             KeyOf(r) in s.store && Truthy(env.target) && ProjectOf(s.store[KeyOf(r)]) != env.target
    ensures var (r, _) := Prepared(r0, s, env);
            var s' := SeedStep(s, r0, env);
            var key := KeyOf(r);
            && (key !in env.undeletable && key !in env.refusesCreate ==>
                  key in s'.store && s'.ledger.created == s.ledger.created + 1
                  && (r.resourceType != "Project" ==> ProjectOf(s'.store[key]) == env.target))
            && (key !in env.undeletable && key in env.refusesCreate ==> key !in s'.store)
            && (key in env.undeletable && key !in env.refusesUpdate ==>
                  s'.store[key] == r && s'.ledger.updated == s.ledger.updated + 1)
  {
    var (r, _) := Prepared(r0, s, env);
    StampProjectFacts(r0.(id := r.id), env.target);
  }

  // ---------------------------------------------------------------------
  // Files

  /** What reading and parsing one file gives. */
  datatype FileInput =
    | Missing               // existsSync is false: skipped
    | Unreadable            // readFileSync or JSON.parse throws: one error
    | NotAnArray            // parsed, but not an array: skipped
    | Resources(items: seq<Resource>)

  const ImportOrder: seq<string> := [
    "organizations.json", "locations.json", "practitioners.json", "patients.json",
    "appointments.json", "encounters.json", "serviceRequests.json",
    "diagnosticReports.json", "medicationRequests.json"]

  function FileOf(files: map<string, FileInput>, name: string): FileInput {
    if name in files then files[name] else Missing
  }

  /** How far one file moves the sum of the counters. */
  function FileWork(f: FileInput): nat {
    match f
    case Missing => 0
    case Unreadable => 1
    case NotAnArray => 0
    case Resources(items) => |items|
  }

  function RunWork(files: map<string, FileInput>, names: seq<string>): nat {
    if names == [] then 0 else RunWork(files, names[..|names| - 1]) + FileWork(FileOf(files, names[|names| - 1]))
  }

  /** The state after seeding `items` one after the other. */
  function SeedItems(s: SeedState, items: seq<Resource>, env: Backend): SeedState {
    if items == [] then s else SeedStep(SeedItems(s, items[..|items| - 1], env), items[|items| - 1], env)
  }

  /** The state after one file: a missing file or one that is not an array changes nothing,
      an unreadable one counts one error, an array seeds its resources in order. */
  function FileStep(s: SeedState, f: FileInput, env: Backend): SeedState {
    match f
    case Missing => s
    case NotAnArray => s
    case Unreadable => s.(ledger := s.ledger.(errors := s.ledger.errors + 1))
    case Resources(items) => SeedItems(s, items, env)
  }

  /** The state after the files named by `names`, in that order. */
  function RunSteps(s: SeedState, files: map<string, FileInput>, names: seq<string>, env: Backend): SeedState {
    if names == [] then s else FileStep(RunSteps(s, files, names[..|names| - 1], env), FileOf(files, names[|names| - 1]), env)
  }

  /** Seeding `a + b` is seeding `a`, then `b`. */
  lemma {:induction false} SeedItemsAppend(s: SeedState, a: seq<Resource>, b: seq<Resource>, env: Backend)
    ensures SeedItems(s, a + b, env) == SeedItems(SeedItems(s, a, env), b, env)
  {
    if b == [] {
      assert a + b == a;
    } else {
      assert (a + b)[..|a + b| - 1] == a + b[..|b| - 1];
      SeedItemsAppend(s, a, b[..|b| - 1], env);
    }
  }

  /** Seeding resources moves the counters by one per resource, and none goes down. */
  lemma {:induction false} SeedItemsCounts(s: SeedState, items: seq<Resource>, env: Backend)
    ensures var l, l' := s.ledger, SeedItems(s, items, env).ledger;
            && Total(l') == Total(l) + |items|
            && l'.created >= l.created && l'.updated >= l.updated && l'.errors >= l.errors
  {
    if items != [] {
      SeedItemsCounts(s, items[..|items| - 1], env);
      ExactlyOneCounter(SeedItems(s, items[..|items| - 1], env), items[|items| - 1], env);
    }
  }

  /** A run moves the sum of the counters by the work of its files, and none goes down. */
  lemma {:induction false} RunStepsCounts(s: SeedState, files: map<string, FileInput>, names: seq<string>, env: Backend)
    ensures var l, l' := s.ledger, RunSteps(s, files, names, env).ledger;
            && Total(l') == Total(l) + RunWork(files, names)
            && l'.created >= l.created && l'.updated >= l.updated && l'.errors >= l.errors
  {
    if names != [] {
      var prev := RunSteps(s, files, names[..|names| - 1], env);
      RunStepsCounts(s, files, names[..|names| - 1], env);
      var f := FileOf(files, names[|names| - 1]);
      if f.Resources? {
        SeedItemsCounts(prev, f.items, env);
      }
    }
  }

  /** A run without any file on disk leaves the state as it was. */
  lemma {:induction false} EmptyRunChangesNothing(s: SeedState, names: seq<string>, env: Backend)
    ensures RunSteps(s, map[], names, env) == s
  {
    if names != [] {
      EmptyRunChangesNothing(s, names[..|names| - 1], env);
    }
  }

  class Seeder {
    const env: Backend
    var store: Store
    var cache: map<string, string>
    var ledger: Ledger
    var draws: nat
    /** The file names in the order they were visited. */
    ghost var visited: seq<string>

    function State(): SeedState
      reads this
    {
      SeedState(store, cache, ledger, draws)
    }

    constructor (env: Backend, store: Store)
      ensures this.env == env && this.store == store
      ensures cache == map[] && ledger == Ledger(0, 0, 0) && draws == 0 && visited == []
    {
      this.env := env;
      this.store := store;
      cache := map[];
      ledger := Ledger(0, 0, 0);
      draws := 0;
      visited := [];
    }

    /** `processValue`: fills displays in place and fills the cache lazily. */
    method ProcessValue(v: Json) returns (r: Json)
      modifies this`cache
      ensures Resolved(r, cache) == Resolve(v, old(cache), store, env.displayOf)
      decreases v
    {
      if Falsy(v) {
        return v;
      }
      if IsReference(v) {
        r := v;
        var ref := RefText(v);
        if ref != "" && !HasDisplay(v) {
          if ref in cache && cache[ref] != "" {
            r := SetDisplay(v, cache[ref]);
            return;
          }
          var key := TargetKey(ref);
          if key.0 != "" && key.1 != "" && key in store {
            var d := env.displayOf(store[key]);
            if d != "" && d != ref {
              r := SetDisplay(v, d);
              cache := cache[ref := d];
            }
          }
        }
        return;
      }
      match v {
        case JArr(items) =>
          var out := [];
          var i := 0;
          while i < |items|
            invariant 0 <= i <= |items|
            invariant ResolvedItems(out, cache) == ResolveItems(items[..i], old(cache), store, env.displayOf)
          {
            var x := ProcessValue(items[i]);
            assert items[..i + 1][..i] == items[..i];
            out := out + [x];
            i := i + 1;
          }
          assert items[..i] == items;
          r := JArr(out);
        case JObj(fields) =>
          var out := [];
          var i := 0;
          while i < |fields|
            invariant 0 <= i <= |fields|
            invariant ResolvedMembers(out, cache) == ResolveMembers(fields[..i], old(cache), store, env.displayOf)
          {
            var x := ProcessValue(fields[i].value);
            assert fields[..i + 1][..i] == fields[..i];
            out := out + [Member(fields[i].key, x)];
            i := i + 1;
          }
          assert fields[..i] == fields;
          r := JObj(out);
        case _ =>
          r := v;
      }
    }

    /** Id normalisation, project stamping and the reference walk of one resource. */
    method Prepare(r0: Resource) returns (resource: Resource)
      modifies this`cache, this`draws
      ensures (resource, State()) == Prepared(r0, old(State()), env)
    {
      resource := r0;
      var resourceId := resource.id;
      if Truthy(resourceId) && !IsUuid(resourceId.value) {
        resourceId := Some(env.uuid(draws));
        draws := draws + 1;
      } else if !Truthy(resourceId) {
        resourceId := Some(env.uuid(draws));
        draws := draws + 1;
      }
      resource := resource.(id := resourceId);
      if Truthy(env.target) && resource.resourceType != "Project" {
        resource := resource.(meta := Some(Meta(env.target, if resource.meta.Some? then resource.meta.value.others else map[])));
      }
      var body := ProcessValue(resource.body);
      resource := resource.(body := body);
    }

    /** The read of an existing copy, the optional delete, then update or create. */
    method Write(resource: Resource)
      requires resource.id.Some?
      modifies this`store, this`ledger
      ensures State() == Upsert(old(State()), resource, env)
    {
      var key := (resource.resourceType, resource.id.value);
      var existing := key in store;
      var needsRecreate := false;
      if existing && Truthy(env.target) && ProjectOf(store[key]) != env.target {
        if key !in env.undeletable {
          store := store - {key};
          existing := false;
          needsRecreate := true;
        }
      }
      if existing && !needsRecreate {
        if key in env.refusesUpdate {
          ledger := ledger.(errors := ledger.errors + 1);
        } else {
          store := store[key := resource];
          ledger := ledger.(updated := ledger.updated + 1);
        }
      } else {
        if key in env.refusesCreate {
          ledger := ledger.(errors := ledger.errors + 1);
        } else {
          store := store[key := resource];
          ledger := ledger.(created := ledger.created + 1);
        }
      }
    }

    /** The body of the inner loop of `seedMockData` for one resource. */
    method SeedResource(r0: Resource)
      modifies this
      ensures State() == SeedStep(old(State()), r0, env)
      ensures visited == old(visited)
    {
      var resource := Prepare(r0);
      Write(resource);
    }

    /** One file: skipped when missing or not an array, one error when unreadable,
        otherwise one seeding step per resource, in order. */
    method SeedFile(name: string, f: FileInput)
      modifies this
      ensures State() == FileStep(old(State()), f, env)
      ensures visited == old(visited) + [name]
      ensures Total(ledger) == old(Total(ledger)) + FileWork(f)
    {
      visited := visited + [name];
      match f {
        case Missing =>
        case NotAnArray =>
        case Unreadable =>
          ledger := ledger.(errors := ledger.errors + 1);
        case Resources(items) =>
          var i := 0;
          while i < |items|
            invariant 0 <= i <= |items|
            invariant State() == SeedItems(old(State()), items[..i], env)
            invariant visited == old(visited) + [name]
          {
            SeedResource(items[i]);
            assert items[..i + 1][..i] == items[..i];
            i := i + 1;
          }
          assert items[..i] == items;
          SeedItemsCounts(old(State()), items, env);
      }
    }

    /** `seedMockData` after the project search: every file of the fixed order, in that order. */
    method SeedAll(files: map<string, FileInput>)
      modifies this
      ensures State() == RunSteps(old(State()), files, ImportOrder, env)
      ensures visited == old(visited) + ImportOrder
      ensures Total(ledger) == old(Total(ledger)) + RunWork(files, ImportOrder)
    {
      var k := 0;
      while k < |ImportOrder|
        invariant 0 <= k <= |ImportOrder|
        invariant State() == RunSteps(old(State()), files, ImportOrder[..k], env)
        invariant visited == old(visited) + ImportOrder[..k]
      {
        var name := ImportOrder[k];
        SeedFile(name, FileOf(files, name));
        assert ImportOrder[..k + 1][..k] == ImportOrder[..k];
        k := k + 1;
      }
      assert ImportOrder[..k] == ImportOrder;
      RunStepsCounts(old(State()), files, ImportOrder, env);
    }
  }
}
