/** Coding agents by capability (internal/codingagents/registry.go and catalog.go): an index
    from capabilities to backend names, kept beside the catalog it is built from. */
module CapabilityRegistry {
  import opened Ordering
  import opened Wrappers

  /** Other fields do not touch the index; sound stands for their validation. */
  datatype Definition = Definition(name: string, backend: string, caps: seq<string>, features: seq<string>,
                                   sound: bool, rest: string)

  type Catalog = map<string, Definition>

  predicate Supported(capability: string) {
    capability == "implement" || capability == "review" || capability == "rewrite_task" ||
    capability == "larger_model" ||
    capability == "service_proxy"
  }

  // ---- capability lists without repeats ----

  /** The supported ones, each where it first stands. */
  function FirstSupported(raw: seq<string>): (out: seq<string>)
    ensures NoRepeats(out) && forall c :: c in out <==> c in raw && Supported(c)
  {
    if raw == [] then [] else
      var last := raw[|raw| - 1];
      var front := FirstSupported(raw[..|raw| - 1]);
      assert raw == raw[..|raw| - 1] + [last];
      if Supported(last) && last !in front then front + [last] else front
  }

  method NormalizeCapabilities(raw: seq<string>) returns (out: seq<string>)
    ensures out == FirstSupported(raw)
  {
    out := [];
    var seen: set<string> := {};
    var i := 0;
    while i < |raw|
      invariant 0 <= i <= |raw|
      invariant out == FirstSupported(raw[..i]) && forall c :: c in seen <==> c in out
    {
      var value := raw[i];
      assert raw[..i + 1][..i] == raw[..i];
      i := i + 1;
      if !Supported(value) {
        continue;
      }
      if value in seen {
        continue;
      }
      seen := seen + {value};
      out := out + [value];
    }
    assert raw[..|raw|] == raw;
  }

  function Merged(existing: seq<string>, features: seq<string>): seq<string> {
    if features == [] then existing else
      var last := features[|features| - 1];
      var front := Merged(existing, features[..|features| - 1]);
      if Supported(last) && last !in front then front + [last] else front
  }

  method MergeCapabilities(existing: seq<string>, features: seq<string>) returns (caps: seq<string>)
    ensures caps == Merged(existing, features)
  {
    caps := existing;
    var seen := set c | c in existing;
    var i := 0;
    while i < |features|
      invariant 0 <= i <= |features|
      invariant caps == Merged(existing, features[..i]) && forall c :: c in seen <==> c in caps
    {
      var feature := features[i];
      assert features[..i + 1][..i] == features[..i];
      i := i + 1;
      if Supported(feature) && feature !in seen {
        seen := seen + {feature};
        caps := caps + [feature];
      }
    }
    assert features[..|features|] == features;
  }

  function Normalized(d: Definition): Definition {
    var name := if d.name == "" then d.backend else d.name;
    var caps := if d.features != [] then Merged(d.caps, d.features) else d.caps;
    d.(name := name, backend := if d.backend == "" then name else d.backend, caps := FirstSupported(caps))
  }

  method NormalizeDefinition(d: Definition) returns (r: Definition)
    ensures r == Normalized(d)
  {
    r := d;
    if r.name == "" {
      r := r.(name := r.backend);
    }
    if r.backend == "" {
      r := r.(backend := r.name);
    }
    if |r.features| > 0 {
      var merged := MergeCapabilities(r.caps, r.features);
      r := r.(caps := merged);
    }
    var caps := NormalizeCapabilities(r.caps);
    r := r.(caps := caps);
  }

  // ---- normalising once is enough ----

  predicate IsNormal(d: Definition) {
    NoRepeats(d.caps) && (forall c :: c in d.caps ==> Supported(c)) &&
    (forall c :: c in d.features && Supported(c) ==> c in d.caps) &&
    (d.name == "" ==> d.backend == "") && (d.backend == "" ==> d.name == "")
  }

  lemma {:induction false} MergedMembers(existing: seq<string>, features: seq<string>)
    ensures forall c :: c in Merged(existing, features) <==> c in existing || (c in features && Supported(c))
    decreases |features|
  {
    if features != [] {
      MergedMembers(existing, features[..|features| - 1]);
      assert features == features[..|features| - 1] + [features[|features| - 1]];
    }
  }

  lemma NormalizedIsNormal(d: Definition)
    ensures IsNormal(Normalized(d))
  {
    MergedMembers(d.caps, d.features);
  }

  lemma {:induction false} NothingToMerge(existing: seq<string>, features: seq<string>)
    requires forall c :: c in features && Supported(c) ==> c in existing
    ensures Merged(existing, features) == existing
    decreases |features|
  {
    if features != [] {
      assert features == features[..|features| - 1] + [features[|features| - 1]];
      NothingToMerge(existing, features[..|features| - 1]);
    }
  }

  lemma {:induction false} NothingToDrop(caps: seq<string>)
    requires NoRepeats(caps) && forall c :: c in caps ==> Supported(c)
    ensures FirstSupported(caps) == caps
    decreases |caps|
  {
    if caps != [] {
      assert caps == caps[..|caps| - 1] + [caps[|caps| - 1]];
      NothingToDrop(caps[..|caps| - 1]);
    }
  }

  /** Definitions pass through normalisation several times; only the first can change them. */
  lemma NormalizedOnce(d: Definition)
    ensures Normalized(Normalized(d)) == Normalized(d)
  {
    NormalizedIsNormal(d);
    NothingToMerge(Normalized(d).caps, d.features);
    NothingToDrop(Normalized(d).caps);
  }

  // ---- the catalog ----

  function Added(catalog: Catalog, d: Definition): Option<Catalog> {
    var n := Normalized(d);
    if n.name == "" || !n.sound then None else Some(catalog[n.name := n])
  }

  function LoadedFrom(ds: seq<Definition>): Option<Catalog> {
    if ds == [] then Some(map[]) else
      match LoadedFrom(ds[..|ds| - 1])
      case None => None
      case Some(catalog) => Added(catalog, ds[|ds| - 1])
  }

  predicate Sound(catalog: Catalog) {
    forall name :: name in catalog ==> catalog[name].name == name && IsNormal(catalog[name])
  }

  lemma AddedSound(catalog: Catalog, d: Definition)
    requires Sound(catalog)
    ensures Added(catalog, d).Some? ==> Sound(Added(catalog, d).value)
  {
    hide Normalized, IsNormal;
    NormalizedIsNormal(d);
  }

  method Add(catalog0: Catalog, d: Definition) returns (ok: bool, catalog: Catalog)
    ensures ok <==> Added(catalog0, d).Some?
    ensures catalog == if ok then Added(catalog0, d).value else catalog0
  {
    catalog := catalog0;
    var definition := NormalizeDefinition(d);
    if definition.name == "" {
      return false, catalog;
    }
    if !definition.sound {
      return false, catalog;
    }
    catalog := catalog[definition.name := definition];
    ok := true;
  }

  /** The built-in definitions and then the repository's own; the first bad one is an error. */
  method LoadCatalog(ds: seq<Definition>) returns (r: Option<Catalog>)
    ensures r == LoadedFrom(ds)
    ensures r.Some? ==> Sound(r.value)
  {
    hide Sound, Added;
    var catalog: Catalog := map[];
    EmptySound();
    var i := 0;
    while i < |ds|
      invariant 0 <= i <= |ds|
      invariant LoadedFrom(ds[..i]) == Some(catalog) && Sound(catalog)
    {
      assert ds[..i + 1][..i] == ds[..i];
      AddedSound(catalog, ds[i]);
      var ok;
      ok, catalog := Add(catalog, ds[i]);
      i := i + 1;
      if !ok {
        BadOneFails(ds, i);
        return None;
      }
    }
    assert ds[..|ds|] == ds;
    r := Some(catalog);
  }

  lemma EmptySound()
    ensures Sound(map[])
  {
  }

  lemma {:induction false} BadOneFails(ds: seq<Definition>, i: nat)
    requires i <= |ds| && LoadedFrom(ds[..i]).None?
    ensures LoadedFrom(ds).None?
    decreases |ds|
  {
    if i == |ds| {
      assert ds[..i] == ds;
    } else {
      assert ds[..|ds| - 1][..i] == ds[..i];
      BadOneFails(ds[..|ds| - 1], i);
    }
  }

  function NameOf(d: Definition): string {
    if d.name != "" then d.name else d.backend
  }

  /** What a definition offers once it is normalised: of the five capabilities there are,
      those it lists or names among its features; and each of its two names stands in for
      the other. */
  lemma NormalizedOffers(d: Definition)
    ensures var all := {"implement", "review", "rewrite_task", "larger_model", "service_proxy"};
      forall c :: c in Normalized(d).caps <==> c in all && (c in d.caps || c in d.features)
    ensures Normalized(d).name == NameOf(d) && Normalized(d).backend == if d.backend != "" then d.backend else d.name
    ensures Normalized(d).sound == d.sound && Normalized(d).rest == d.rest
  {
    MergedMembers(d.caps, d.features);
  }

  /** A catalog loads exactly when every definition has a name and is valid. */
  lemma {:induction false} LoadSucceedsIff(ds: seq<Definition>)
    ensures LoadedFrom(ds).Some? <==> forall i :: 0 <= i < |ds| ==> NameOf(ds[i]) != "" && ds[i].sound
    decreases |ds|
  {
    hide Normalized;
    if ds != [] {
      var n := |ds| - 1;
      LoadSucceedsIff(ds[..n]);
      NormalizedOffers(ds[n]);
      assert forall i :: 0 <= i < n ==> ds[..n][i] == ds[i];
    }
  }

  predicate LastOfName(ds: seq<Definition>, i: nat, name: string) {
    i < |ds| && NameOf(ds[i]) == name && forall k :: i < k < |ds| ==> NameOf(ds[k]) != name
  }

  /** Of several definitions of one name the last one is in the catalog. */
  lemma {:induction false} LastDefinitionWins(ds: seq<Definition>, name: string)
    requires LoadedFrom(ds).Some?
    ensures name in LoadedFrom(ds).value <==> exists i: nat :: LastOfName(ds, i, name)
    ensures forall i: nat :: LastOfName(ds, i, name) ==>
      name in LoadedFrom(ds).value && LoadedFrom(ds).value[name] == Normalized(ds[i])
    decreases |ds|
  {
    hide Normalized, NameOf;
    if ds != [] {
      var n := |ds| - 1;
      LastDefinitionWins(ds[..n], name);
      NormalizedOffers(ds[n]);
      if NameOf(ds[n]) == name {
        assert LastOfName(ds, n, name);
      } else {
        forall i: nat
          ensures LastOfName(ds[..n], i, name) <==> LastOfName(ds, i, name)
        {
        }
      }
    }
  }

  // ---- the index ----

  type Index = map<string, seq<string>>

  predicate Offers(catalog: Catalog, name: string, capability: string) {
    name in catalog && capability in catalog[name].caps
  }

  function NamesFor(index: Index, capability: string): seq<string> {
    if capability in index then index[capability] else []
  }

  /** Under each capability the names offering it, of those in some set, in order, once each. */
  predicate Lists(catalog: Catalog, names: set<string>, capability: string, listed: seq<string>) {
    Ascending(listed) && (forall name :: name in listed ==> name in names && Offers(catalog, name, capability)) &&
    forall name :: name in names && Offers(catalog, name, capability) ==> name in listed
  }

  ghost predicate Indexed(catalog: Catalog, names: set<string>, index: Index) {
    forall capability :: Lists(catalog, names, capability, NamesFor(index, capability))
  }

  /** While one definition is entered: its capabilities up to some point. */
  ghost predicate Entered(catalog: Catalog, names: set<string>, name: string, caps: seq<string>, before: Index,
                          index: Index) {
    forall capability ::
      NamesFor(index, capability) == NamesFor(before, capability) + if capability in caps then [name] else []
  }

  lemma EnteredAll(catalog: Catalog, names: set<string>, name: string, before: Index, index: Index)
    requires Indexed(catalog, names, before) && name in catalog && name !in names
    requires forall n :: n in names ==> Less(n, name)
    requires Entered(catalog, names, name, catalog[name].caps, before, index)
    ensures Indexed(catalog, names + {name}, index)
  {
    hide Less;
    forall capability
      ensures Lists(catalog, names + {name}, capability, NamesFor(index, capability))
    {
      assert Lists(catalog, names, capability, NamesFor(before, capability));
      assert NamesFor(index, capability) ==
        NamesFor(before, capability) + if capability in catalog[name].caps then [name] else [];
    }
  }

  lemma EnterOne(catalog: Catalog, names: set<string>, name: string, caps: seq<string>, i: nat, before: Index,
                 index: Index)
    requires i < |caps| && NoRepeats(caps) && Entered(catalog, names, name, caps[..i], before, index)
    ensures Entered(catalog, names, name, caps[..i + 1], before, index[caps[i] := NamesFor(index, caps[i]) + [name]])
  {
    assert caps[..i + 1] == caps[..i] + [caps[i]];
    assert caps[i] !in caps[..i];
    forall capability
      ensures NamesFor(index[caps[i] := NamesFor(index, caps[i]) + [name]], capability) ==
        NamesFor(before, capability) + if capability in caps[..i + 1] then [name] else []
    {
      assert NamesFor(index, capability) ==
        NamesFor(before, capability) + if capability in caps[..i] then [name] else [];
    }
  }

  lemma {:induction false} SortingSorted(s: seq<string>)
    requires Ascending(s)
    ensures SortedList(s) == s
  {
    hide Less;
    if s != [] {
      assert s == [s[0]] + s[1..];
      assert Ascending(s[1..]);
      SortingSorted(s[1..]);
    }
  }

  method EnterDefinition(catalog: Catalog, ghost names: set<string>, name: string, index0: Index) returns (index: Index)
    requires name in catalog && catalog[name].name == name && IsNormal(catalog[name])
    ensures Entered(catalog, names, name, catalog[name].caps, index0, index)
  {
    hide Entered;
    index := index0;
    var caps := catalog[name].caps;
    NothingEntered(catalog, names, name, caps, index0);
    for i := 0 to |caps|
      invariant Entered(catalog, names, name, caps[..i], index0, index)
    {
      EnterOne(catalog, names, name, caps, i, index0, index);
      assert caps[i] in caps;
      if Supported(caps[i]) {
        index := index[caps[i] := NamesFor(index, caps[i]) + [catalog[name].name]];
      }
    }
    AllEntered(catalog, names, name, caps, index0, index);
  }

  lemma NothingEntered(catalog: Catalog, names: set<string>, name: string, caps: seq<string>, index: Index)
    ensures Entered(catalog, names, name, caps[..0], index, index)
  {
  }

  lemma AllEntered(catalog: Catalog, names: set<string>, name: string, caps: seq<string>, before: Index, index: Index)
    requires Entered(catalog, names, name, caps[..|caps|], before, index)
    ensures Entered(catalog, names, name, caps, before, index)
  {
    assert caps[..|caps|] == caps;
  }

  // ---- the registry ----

  predicate Wanted(catalog: Catalog, required: seq<string>, name: string) {
    name in catalog && forall c :: c in required && Supported(c) ==> c in catalog[name].caps
  }

  function Definitions(catalog: Catalog, names: seq<string>): seq<Definition>
    requires forall name :: name in names ==> name in catalog
  {
    if names == [] then [] else Definitions(catalog, names[..|names| - 1]) + [catalog[names[|names| - 1]]]
  }

  function WantedNames(catalog: Catalog, required: seq<string>): set<string> {
    set name | name in catalog && Wanted(catalog, required, name)
  }

  /** The scan the index stands in for: every backend, in name order, that offers what is required. */
  function Scan(catalog: Catalog, required: seq<string>): seq<Definition> {
    var names := SortedKeys(WantedNames(catalog, required));
    assert forall name :: name in names ==> name in Elements(names);
    Definitions(catalog, names)
  }

  class AgentRegistry {
    var catalog: Catalog
    var index: Index

    constructor ()
      ensures Valid() && catalog == map[]
    {
      catalog, index := map[], map[];
    }

    ghost predicate Valid()
      reads this
    {
      Sound(catalog) && Indexed(catalog, catalog.Keys, index)
    }

    method RebuildIndex()
      requires Sound(catalog)
      modifies this`index
      ensures Valid()
    {
      hide Indexed, Entered, Less, Ascending, IsNormal;
      index := map[];
      var names := SortedKeys(catalog.Keys);
      NothingIndexed(catalog, names);
      for i := 0 to |names|
        invariant Indexed(catalog, Elements(names[..i]), index)
      {
        NextName(catalog, names, i);
        ghost var before := index;
        index := EnterDefinition(catalog, Elements(names[..i]), names[i], index);
        EnteredAll(catalog, Elements(names[..i]), names[i], before, index);
      }
      assert names[..|names|] == names;
      SortNames();
    }

    /** Sorting every list once more changes nothing: the names came in order. */
    method SortNames()
      requires Indexed(catalog, catalog.Keys, index)
      modifies this`index
      ensures Indexed(catalog, catalog.Keys, index)
    {
      hide Indexed, Ascending, SortedList;
      var left := index.Keys;
      while left != {}
        invariant Indexed(catalog, catalog.Keys, index)
        invariant forall key :: key in left ==> key in index
        decreases |left|
      {
        var key :| key in left;
        left := left - {key};
        SortedAlready(catalog, catalog.Keys, index, key);
        index := index[key := SortedList(index[key])];
      }
    }

    method Load(ds: seq<Definition>) returns (ok: bool)
      requires Valid()
      modifies this
      ensures Valid()
      ensures ok <==> LoadedFrom(ds).Some?
      ensures catalog == if ok then LoadedFrom(ds).value else old(catalog)
    {
      var loaded := LoadCatalog(ds);
      if loaded.None? {
        return false;
      }
      catalog := loaded.value;
      RebuildIndex();
      ok := true;
    }

    method Register(definition: Definition) returns (ok: bool)
      requires Valid()
      modifies this
      ensures Valid()
      ensures ok <==> Added(old(catalog), definition).Some?
      ensures catalog == if ok then Added(old(catalog), definition).value else old(catalog)
    {
      hide Normalized, Indexed;
      var normalized := NormalizeDefinition(definition);
      if normalized.name == "" || !normalized.sound {
        return false;
      }
      NormalizedOnce(definition);
      AddedSound(catalog, definition);
      var updated;
      ok, updated := Add(catalog, normalized);
      catalog := updated;
      RebuildIndex();
    }

    /** The counts over the index find exactly what the scan finds. */
    method Discover(required: seq<string>) returns (result: seq<Definition>)
      requires Valid()
      ensures result == Scan(catalog, required)
    {
      hide Indexed, SortedKeys, Ascending, Wanted, Scan, CountsFit;
      var capabilities := NormalizeCapabilities(required);
      var matching: set<string>;
      if |capabilities| == 0 {
        matching := catalog.Keys;
      } else {
        var counts := CountAll(capabilities);
        matching := set name | name in counts && counts[name] == |capabilities|;
        FullCounts(catalog, capabilities, counts);
      }
      MatchingIs(catalog, required, capabilities, matching);
      result := Collect(matching);
    }

    method Collect(matching: set<string>) returns (result: seq<Definition>)
      requires forall name :: name in matching ==> name in catalog
      ensures (forall name :: name in SortedKeys(matching) ==> name in catalog) &&
        result == Definitions(catalog, SortedKeys(matching))
    {
      hide Ascending, Less;
      var names := SortedKeys(matching);
      assert forall name :: name in names ==> name in Elements(names);
      result := [];
      for i := 0 to |names|
        invariant result == Definitions(catalog, names[..i])
      {
        assert names[..i + 1][..i] == names[..i];
        if names[i] in catalog {
          result := result + [catalog[names[i]]];
        }
      }
      assert names[..|names|] == names;
    }

    method CountAll(capabilities: seq<string>) returns (counts: map<string, nat>)
      requires Valid() && NoRepeats(capabilities)
      ensures CountsFit(catalog, capabilities, |capabilities|, counts)
    {
      hide Indexed, CountsFit, Sound;
      counts := map[];
      NothingCounted(catalog, capabilities);
      for i := 0 to |capabilities|
        invariant CountsFit(catalog, capabilities, i, counts)
      {
        ghost var before := counts;
        var names := NamesFor(index, capabilities[i]);
        assert names[..0] == [];
        IndexedList(catalog, index, capabilities[i]);
        for j := 0 to |names|
          invariant Bumped(before, names[..j], counts)
        {
          BumpOne(before, names, j, counts);
          counts := counts[names[j] := Count(counts, names[j]) + 1];
        }
        assert names[..|names|] == names;
        NextCount(catalog, capabilities, i, names, before, counts);
      }
    }
  }

  lemma NothingIndexed(catalog: Catalog, names: seq<string>)
    ensures Indexed(catalog, Elements(names[..0]), map[])
  {
  }

  lemma NextName(catalog: Catalog, names: seq<string>, i: nat)
    requires Sound(catalog) && Ascending(names) && Elements(names) == catalog.Keys && i < |names|
    ensures names[i] in catalog && catalog[names[i]].name == names[i] && IsNormal(catalog[names[i]])
    ensures Elements(names[..i + 1]) == Elements(names[..i]) + {names[i]} && names[i] !in Elements(names[..i])
    ensures forall n :: n in Elements(names[..i]) ==> Less(n, names[i])
  {
    hide IsNormal;
    assert names[i] in Elements(names);
    assert names[..i + 1] == names[..i] + [names[i]];
    LessIrreflexive(names[i]);
  }

  lemma SortedAlready(catalog: Catalog, names: set<string>, index: Index, key: string)
    requires Indexed(catalog, names, index) && key in index
    ensures Indexed(catalog, names, index[key := SortedList(index[key])])
  {
    hide Ascending, SortedList;
    assert Lists(catalog, names, key, NamesFor(index, key));
    SortingSorted(index[key]);
    assert index[key := index[key]] == index;
  }

  // ---- counting over the index ----

  function Count(counts: map<string, nat>, name: string): nat {
    if name in counts then counts[name] else 0
  }

  /** How many of the first i required capabilities a backend offers. */
  function OfferedCount(catalog: Catalog, capabilities: seq<string>, i: nat, name: string): nat
    requires i <= |capabilities|
  {
    if i == 0 then 0 else
      OfferedCount(catalog, capabilities, i - 1, name) + if Offers(catalog, name, capabilities[i - 1]) then 1 else 0
  }

  ghost predicate CountsFit(catalog: Catalog, capabilities: seq<string>, i: nat, counts: map<string, nat>)
    requires i <= |capabilities|
  {
    forall name :: Count(counts, name) == OfferedCount(catalog, capabilities, i, name)
  }

  ghost predicate Bumped(before: map<string, nat>, names: seq<string>, counts: map<string, nat>) {
    forall name :: Count(counts, name) == Count(before, name) + if name in names then 1 else 0
  }

  lemma NothingCounted(catalog: Catalog, capabilities: seq<string>)
    ensures CountsFit(catalog, capabilities, 0, map[])
  {
  }

  lemma IndexedList(catalog: Catalog, index: Index, capability: string)
    requires Indexed(catalog, catalog.Keys, index)
    ensures NoRepeats(NamesFor(index, capability))
    ensures forall name :: name in NamesFor(index, capability) <==> Offers(catalog, name, capability)
  {
    hide Ascending, Less;
    var names := NamesFor(index, capability);
    assert Lists(catalog, catalog.Keys, capability, names);
    forall i, j | 0 <= i < j < |names|
      ensures names[i] != names[j]
    {
      AscendingApart(names, i, j);
    }
  }

  lemma AscendingApart(names: seq<string>, i: nat, j: nat)
    requires Ascending(names) && i < j < |names|
    ensures names[i] != names[j]
  {
    LessIrreflexive(names[i]);
  }

  lemma BumpOne(before: map<string, nat>, names: seq<string>, j: nat, counts: map<string, nat>)
    requires j < |names| && NoRepeats(names) && Bumped(before, names[..j], counts)
    ensures Bumped(before, names[..j + 1], counts[names[j] := Count(counts, names[j]) + 1])
  {
    assert names[..j + 1] == names[..j] + [names[j]];
    assert names[j] !in names[..j];
  }

  lemma NextCount(catalog: Catalog, capabilities: seq<string>, i: nat, names: seq<string>, before: map<string, nat>,
                  counts: map<string, nat>)
    requires i < |capabilities| && CountsFit(catalog, capabilities, i, before) && Bumped(before, names, counts)
    requires forall name :: name in names <==> Offers(catalog, name, capabilities[i])
    ensures CountsFit(catalog, capabilities, i + 1, counts)
  {
  }

  lemma {:induction false} FullCount(catalog: Catalog, capabilities: seq<string>, i: nat, name: string)
    requires i <= |capabilities|
    ensures OfferedCount(catalog, capabilities, i, name) <= i
    ensures OfferedCount(catalog, capabilities, i, name) == i <==>
      forall j :: 0 <= j < i ==> Offers(catalog, name, capabilities[j])
  {
    if i > 0 {
      FullCount(catalog, capabilities, i - 1, name);
    }
  }

  lemma FullCounts(catalog: Catalog, capabilities: seq<string>, counts: map<string, nat>)
    requires CountsFit(catalog, capabilities, |capabilities|, counts) && capabilities != []
    ensures forall name :: (name in counts && counts[name] == |capabilities|) <==>
      forall c :: c in capabilities ==> Offers(catalog, name, c)
  {
    forall name
      ensures (name in counts && counts[name] == |capabilities|) <==>
        forall c :: c in capabilities ==> Offers(catalog, name, c)
    {
      FullCount(catalog, capabilities, |capabilities|, name);
      assert Count(counts, name) == OfferedCount(catalog, capabilities, |capabilities|, name);
    }
  }

  lemma MatchingIs(catalog: Catalog, required: seq<string>, capabilities: seq<string>, matching: set<string>)
    requires capabilities == FirstSupported(required)
    requires if capabilities == [] then matching == catalog.Keys else
      forall name :: name in matching <==> forall c :: c in capabilities ==> Offers(catalog, name, c)
    ensures matching == WantedNames(catalog, required)
    ensures (forall name :: name in SortedKeys(matching) ==> name in catalog)
    ensures Scan(catalog, required) == Definitions(catalog, SortedKeys(matching))
  {
    assert forall name :: name in SortedKeys(matching) ==> name in Elements(SortedKeys(matching));
    forall name
      ensures name in matching <==> name in catalog && Wanted(catalog, required, name)
    {
      assert capabilities != [] ==> capabilities[0] in capabilities;
    }
  }
}
