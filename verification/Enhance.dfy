/** From the current profile, the user's chain and the Clash configuration to the configuration the core runs with. */
module Enhance {
  import opened Wrappers
  import opened Mappings

  // ----- field.rs

  const HANDLE_FIELDS: seq<string> :=
    ["mode", "mixed-port", "socks-port", "port", "allow-lan", "log-level", "ipv6", "secret", "external-controller"]

  const DEFAULT_FIELDS: seq<string> := ["proxies", "proxy-providers", "proxy-groups", "rule-providers", "rules"]

  function Restricted(config: Pairs, names: seq<string>): map<Key, Value> {
    map k | k in config.content && k.Name? && k.name in names :: config.content[k]
  }

  method UseFilter(config: Mapping, filter: seq<string>) returns (ret: Mapping)
    ensures ret.content == Restricted(config, filter)
  {
    var r := EMPTY;
    for i := 0 to |config.order|
      invariant r.Valid()
      invariant forall k :: k in r.content <==> k in config.order[..i] && k.Name? && k.name in filter
      invariant forall k :: k in r.content ==> r.content[k] == config.content[k]
    {
      var key := config.order[i];
      assert key in config.order;
      if key.Name? && key.name in filter {
        r := Insert(r, key, config.content[key]);
      }
    }
    assert config.order[..|config.order|] == config.order;
    ret := r;
  }

  /** String keys in lower case; of several that become the same, the last one counts. */
  function Lowered(order: seq<Key>, content: map<Key, Value>): (m: map<Key, Value>)
    requires forall k :: k in order ==> k in content
    ensures forall k :: k in m ==> k.Name?
  {
    if order == [] then map[]
    else
      var m, key := Lowered(order[..|order| - 1], content), order[|order| - 1];
      if key.Name? then m[Name(Lower(key.name)) := content[key]] else m
  }

  method UseLowercase(config: Mapping) returns (ret: Mapping)
    ensures ret.content == Lowered(config.order, config.content)
  {
    var r := EMPTY;
    for i := 0 to |config.order|
      invariant r.Valid()
      invariant forall k :: k in config.order[..i] ==> k in config.content
      invariant r.content == Lowered(config.order[..i], config.content)
    {
      var key := config.order[i];
      assert key in config.order && config.order[..i + 1][..i] == config.order[..i];
      if key.Name? {
        r := Insert(r, Name(Lower(key.name)), config.content[key]);
      }
    }
    assert config.order[..|config.order|] == config.order;
    ret := r;
  }

  /** The last string key that lowers to `name` decides what it maps to. */
  lemma {:induction false} LoweredIsTheLast(order: seq<Key>, content: map<Key, Value>, i: nat)
    requires forall k :: k in order ==> k in content
    requires i < |order| && order[i].Name?
    requires forall j :: i < j < |order| && order[j].Name? ==> Lower(order[j].name) != Lower(order[i].name)
    ensures var name := Name(Lower(order[i].name));
      name in Lowered(order, content) && Lowered(order, content)[name] == content[order[i]]
  {
    if i < |order| - 1 {
      LoweredIsTheLast(order[..|order| - 1], content, i);
    }
  }

  /** The given names that are keys, in the order given. */
  function Present(config: Pairs, names: seq<string>): seq<Key> {
    if names == [] then []
    else (if Name(names[0]) in config.content then [Name(names[0])] else []) + Present(config, names[1..])
  }

  ghost predicate Distinct(names: seq<string>) { forall i, j :: 0 <= i < j < |names| ==> names[i] != names[j] }

  lemma {:induction false} PresentAppends(config: Pairs, names: seq<string>, name: string)
    ensures Present(config, names + [name]) ==
            Present(config, names) + (if Name(name) in config.content then [Name(name)] else [])
  {
    if names == [] {
      assert names + [name] == [name];
    } else {
      PresentAppends(config, names[1..], name);
      assert (names + [name])[1..] == names[1..] + [name];
    }
  }

  lemma FieldsAreDistinct()
    ensures Distinct(HANDLE_FIELDS) && Distinct(DEFAULT_FIELDS)
    ensures forall n :: n in HANDLE_FIELDS ==> n !in DEFAULT_FIELDS
  {
  }

  lemma RestrictedAppends(config: Pairs, names: seq<string>, name: string)
    ensures Restricted(config, names + [name]) ==
            if Name(name) in config.content then Restricted(config, names)[Name(name) := config.content[Name(name)]]
            else Restricted(config, names)
  {
  }

  /** One field copied, if the configuration has it. */
  function CopyField(config: Mapping, r: Mapping, name: string): Mapping {
    if Name(name) in config.content then Insert(r, Name(name), config.content[Name(name)]) else r
  }

  /** `r` is `start` with the given fields behind it. */
  ghost predicate Copied(config: Pairs, names: seq<string>, start: Pairs, r: Pairs) {
    && r.content == start.content + Restricted(config, names)
    && r.order == start.order + Present(config, names)
  }

  lemma PutBehind(a: map<Key, Value>, b: map<Key, Value>, k: Key, v: Value)
    ensures (a + b)[k := v] == a + b[k := v]
  {
  }

  lemma CopyStep(config: Mapping, names: seq<string>, i: nat, start: Mapping, r: Mapping)
    requires i < |names| && Distinct(names) && Name(names[i]) !in start.content
    requires Copied(config, names[..i], start, r)
    ensures Copied(config, names[..i + 1], start, CopyField(config, r, names[i]))
  {
    var key := Name(names[i]);
    assert names[..i + 1] == names[..i] + [names[i]];
    PresentAppends(config, names[..i], names[i]);
    RestrictedAppends(config, names[..i], names[i]);
    NotCopiedYet(config, names, i);
    hide Restricted, Present, Distinct;
    if key in config.content {
      PutBehind(start.content, Restricted(config, names[..i]), key, config.content[key]);
      assert key !in r.content;
      assert start.order + Present(config, names[..i]) + [key] == start.order + (Present(config, names[..i]) + [key]);
    }
  }

  /** Inserts those of `names` that are keys of `config`, none of which is in `start`. */
  method CopyFields(config: Mapping, names: seq<string>, start: Mapping) returns (ret: Mapping)
    requires Distinct(names) && forall n :: n in names ==> Name(n) !in start.content
    ensures Copied(config, names, start, ret)
  {
    assert Copied(config, names[..0], start, start) by { NothingCopied(config); }
    hide *;
    ret := start;
    for i := 0 to |names|
      invariant Copied(config, names[..i], start, ret)
    {
      assert names[i] in names;
      CopyStep(config, names, i, start, ret);
      ret := CopyField(config, ret, names[i]);
    }
    assert names[..|names|] == names;
  }

  lemma NothingCopied(config: Pairs)
    ensures Restricted(config, []) == map[] && Present(config, []) == []
  {
  }

  lemma NotCopiedYet(config: Pairs, names: seq<string>, i: nat)
    requires Distinct(names) && i < |names|
    ensures Name(names[i]) !in Restricted(config, names[..i])
  {
  }

  function StringKeyed(config: Pairs): map<Key, Value> {
    map k | k in config.content && k.Name? :: config.content[k]
  }

  /** A hash set is walked in no particular order. */
  method InSomeOrder(names: set<string>) returns (order: seq<string>)
    ensures Distinct(order) && forall n :: n in order <==> n in names
  {
    order := [];
    var left := names;
    while left != {}
      invariant Distinct(order) && forall n :: n in names <==> n in order || n in left
      invariant forall n :: n in order ==> n !in left
      decreases |left|
    {
      var n :| n in left;
      order := order + [n];
      left := left - {n};
    }
  }

  method OtherNames(config: Mapping) returns (names: seq<string>)
    ensures Distinct(names)
    ensures forall n :: n in names <==> Name(n) in config.content && n !in HANDLE_FIELDS && n !in DEFAULT_FIELDS
  {
    hide Distinct;
    var others := set k | k in config.content && k.Name? && k.name !in HANDLE_FIELDS
        && k.name !in DEFAULT_FIELDS :: k.name;
    forall n | Name(n) in config.content && n !in HANDLE_FIELDS && n !in DEFAULT_FIELDS
      ensures n in others
    {
      assert Name(n).name == n;
    }
    names := InSomeOrder(others);
  }

  /** Exactly the string-keyed entries, the handled fields first and the long lists last. */
  method UseSort(config: Mapping) returns (ret: Mapping)
    ensures ret.content == StringKeyed(config)
    ensures exists middle :: ret.order == Present(config, HANDLE_FIELDS) + middle + Present(config, DEFAULT_FIELDS)
  {
    hide Restricted, Present, Distinct, StringKeyed;
    FieldsAreDistinct();
    var middle := OtherNames(config);
    AllCopied(config, middle);
    var front := CopyFields(config, HANDLE_FIELDS, EMPTY);
    RestrictedKeys(config, HANDLE_FIELDS);
    var most := CopyFields(config, middle, front);
    RestrictedKeys(config, middle);
    ret := CopyFields(config, DEFAULT_FIELDS, most);
    assert [] + Present(config, HANDLE_FIELDS) == Present(config, HANDLE_FIELDS);
    assert ret.order == Present(config, HANDLE_FIELDS) + Present(config, middle) + Present(config, DEFAULT_FIELDS);
  }

  lemma RestrictedKeys(config: Pairs, names: seq<string>)
    ensures forall k :: k in Restricted(config, names) ==> k.Name? && k.name in names
  {
  }

  lemma AllCopied(config: Pairs, middle: seq<string>)
    requires forall n :: Name(n) in config.content ==> n in HANDLE_FIELDS || n in DEFAULT_FIELDS || n in middle
    ensures map[] + Restricted(config, HANDLE_FIELDS) + Restricted(config, middle) + Restricted(config, DEFAULT_FIELDS)
            == StringKeyed(config)
  {
  }

  // ----- merge.rs

  const TABLE_KEYS: seq<string> := ["rule-providers", "proxy-providers"]
  const LIST_KEYS: seq<string> := ["rules", "proxies", "proxy-groups"]

  const MERGE_FIELDS: seq<string> :=
    ["prepend-" + "rules", "append-" + "rules",
     "prepend-" + "rule-providers", "append-" + "rule-providers",
     "prepend-" + "proxies", "append-" + "proxies",
     "prepend-" + "proxy-providers", "append-" + "proxy-providers",
     "prepend-" + "proxy-groups", "append-" + "proxy-groups"]

  /** The merge's own fields, in lower case, over the configuration's. */
  function Overridden(merge: Mapping, config: Pairs): map<Key, Value> {
    var lowered := Lowered(merge.order, merge.content);
    config.content + map k | k in lowered && k.name !in MERGE_FIELDS :: lowered[k]
  }

  function TableOf(value: Option<Value>): Pairs {
    if value.Some? && value.value.Table? then value.value.table else EMPTY
  }

  function ItemsOf(value: Option<Value>): seq<Value> {
    if value.Some? && value.value.Items? then value.value.items else []
  }

  /** Provider tables: the base extends what is prepended, and what is appended extends that. */
  function MergedTable(base: Option<Value>, pre: Option<Value>, post: Option<Value>): Pairs {
    var front := if pre.Some? && pre.value.Table? then Extend(pre.value.table, TableOf(base)) else TableOf(base);
    if post.Some? && post.value.Table? then Extend(front, post.value.table) else front
  }

  function MergedList(base: Option<Value>, pre: Option<Value>, post: Option<Value>): seq<Value> {
    ItemsOf(pre) + ItemsOf(base) + ItemsOf(post)
  }

  function TableField(fields: Pairs, base: Option<Value>, name: string): Option<Value> {
    var table := MergedTable(base, fields.Get("prepend-" + name), fields.Get("append-" + name));
    if table.content == map[] then base else Some(Table(table))
  }

  function ListField(fields: Pairs, base: Option<Value>, name: string): Option<Value> {
    var list := MergedList(base, fields.Get("prepend-" + name), fields.Get("append-" + name));
    if list == [] then base else Some(Items(list))
  }

  predicate IsTableKey(key: Key) { key.Name? && key.name in TABLE_KEYS }

  predicate IsListKey(key: Key) { key.Name? && key.name in LIST_KEYS }

  /** What one merge makes of one key. */
  function MergedAt(merge: Mapping, config: Pairs, key: Key): Option<Value> {
    var over := Overridden(merge, config);
    var base := if key in over then Some(over[key]) else None;
    if IsTableKey(key) then TableField(merge, base, key.name)
    else if IsListKey(key) then ListField(merge, base, key.name)
    else base
  }

  /** A provider that is appended beats the base's of the same name, which beats a prepended one. */
  lemma AppendedProvidersWin(base: Option<Value>, pre: Option<Value>, post: Option<Value>, key: Key)
    ensures MergedTable(base, pre, post).At(key) ==
            if key in TableOf(post).content then TableOf(post).At(key)
            else if key in TableOf(base).content then TableOf(base).At(key)
            else TableOf(pre).At(key)
  {
  }

  /** The entries of the first `i` keys that are not to be skipped. */
  function Part(entries: Mapping, i: nat, skip: set<Key>): map<Key, Value>
    requires i <= |entries.order|
  {
    map k | k in entries.order[..i] && k !in skip && k in entries.content :: entries.content[k]
  }

  lemma PartStep(entries: Mapping, i: nat, skip: set<Key>)
    requires i < |entries.order|
    ensures var key := entries.order[i];
      && key in entries.content
      && Part(entries, i + 1, skip) ==
         if key in skip then Part(entries, i, skip) else Part(entries, i, skip)[key := entries.content[key]]
  {
    assert entries.order[..i + 1] == entries.order[..i] + [entries.order[i]];
    assert entries.order[i] in entries.order;
  }

  lemma WholePart(entries: Mapping, skip: set<Key>)
    ensures Part(entries, |entries.order|, skip) == entries.content - skip
    ensures Part(entries, 0, skip) == map[]
  {
    assert entries.order[..|entries.order|] == entries.order;
  }

  /** Inserts the entries in order, but for some keys. */
  method InsertAll(entries: Mapping, skip: set<Key>, config: Mapping) returns (r: Mapping)
    ensures r.content == config.content + (entries.content - skip)
  {
    hide *;
    WholePart(entries, skip);
    r := config;
    for i := 0 to |entries.order|
      invariant r.content == config.content + Part(entries, i, skip)
    {
      var key := entries.order[i];
      PartStep(entries, i, skip);
      if key !in skip {
        PutBehind(config.content, Part(entries, i, skip), key, entries.content[key]);
        r := Insert(r, key, entries.content[key]);
      }
    }
  }

  method MergeTables(fields: Mapping, config: Mapping) returns (r: Mapping)
    ensures forall k :: r.At(k) == (if IsTableKey(k) then TableField(fields, config.At(k), k.name) else config.At(k))
  {
    SpecialKeys();
    hide MergedTable;
    r := config;
    for i := 0 to |TABLE_KEYS|
      invariant forall k :: r.At(k) == (if k.Name? && k.name in TABLE_KEYS[..i]
          then TableField(fields, config.At(k), k.name)
                                        else config.At(k))
    {
      var name := TABLE_KEYS[i];
      assert TABLE_KEYS[..i + 1] == TABLE_KEYS[..i] + [name] && name !in TABLE_KEYS[..i];
      var table := MergedTable(r.Get(name), fields.Get("prepend-" + name), fields.Get("append-" + name));
      if table.content != map[] {
        r := Insert(r, Name(name), Table(table));
      }
    }
    assert TABLE_KEYS[..|TABLE_KEYS|] == TABLE_KEYS;
  }

  method MergeLists(fields: Mapping, config: Mapping) returns (r: Mapping)
    ensures forall k :: r.At(k) == (if IsListKey(k) then ListField(fields, config.At(k), k.name) else config.At(k))
  {
    SpecialKeys();
    hide MergedList;
    r := config;
    for i := 0 to |LIST_KEYS|
      invariant forall k :: r.At(k) == (if k.Name? && k.name in LIST_KEYS[..i]
          then ListField(fields, config.At(k), k.name)
                                        else config.At(k))
    {
      var name := LIST_KEYS[i];
      assert LIST_KEYS[..i + 1] == LIST_KEYS[..i] + [name] && name !in LIST_KEYS[..i];
      var list := MergedList(r.Get(name), fields.Get("prepend-" + name), fields.Get("append-" + name));
      if list != [] {
        r := Insert(r, Name(name), Items(list));
      }
    }
    assert LIST_KEYS[..|LIST_KEYS|] == LIST_KEYS;
  }

  lemma OverrideIs(merge: Mapping, config: Pairs, skip: set<Key>)
    requires forall n :: Name(n) in skip <==> n in MERGE_FIELDS
    ensures config.content + (Lowered(merge.order, merge.content) - skip) == Overridden(merge, config)
  {
    hide Lowered;
  }

  method UseMerge(merge: Mapping, config: Mapping) returns (result: Mapping)
    ensures forall key :: result.At(key) == MergedAt(merge, config, key)
  {
    hide *;
    var lowered := UseLowercase(merge);
    var skip := set n | n in MERGE_FIELDS :: Name(n);
    forall n | Name(n) in skip
      ensures n in MERGE_FIELDS
    {
      assert Name(n).name == n;
    }
    var over := InsertAll(lowered, skip, config);
    OverrideIs(merge, config, skip);
    var fields := UseFilter(merge, MERGE_FIELDS);
    FilteredFields(merge, fields);
    var tables := MergeTables(fields, over);
    result := MergeLists(fields, tables);
    forall key
      ensures result.At(key) == MergedAt(merge, config, key)
    {
      MergedByKey(merge, config, over, key);
    }
  }

  lemma MergedByKey(merge: Mapping, config: Pairs, over: Pairs, key: Key)
    requires over.content == Overridden(merge, config)
    ensures MergedAt(merge, config, key) ==
            if IsTableKey(key) then TableField(merge, over.At(key), key.name)
            else if IsListKey(key) then ListField(merge, over.At(key), key.name)
            else over.At(key)
    ensures !(IsTableKey(key) && IsListKey(key))
  {
    SpecialKeys();
  }

  /** Filtering the merge leaves the fields that are looked up. */
  lemma FilteredFields(merge: Mapping, fields: Mapping)
    requires fields.content == Restricted(merge, MERGE_FIELDS)
    ensures forall base, name :: name in TABLE_KEYS ==> TableField(fields, base, name) == TableField(merge, base, name)
    ensures forall base, name :: name in LIST_KEYS ==> ListField(fields, base, name) == ListField(merge, base, name)
    ensures forall key :: IsTableKey(key) <==> key.Name? && key.name in TABLE_KEYS
    ensures forall key :: IsListKey(key) <==> key.Name? && key.name in LIST_KEYS
  {
    SpecialKeys();
    assert forall n :: n in MERGE_FIELDS ==> fields.Get(n) == merge.Get(n);
    hide MergedTable, MergedList, Restricted;
  }

  /** The value is this list, or no list at all and then counts as the empty one. */
  predicate Lists(value: Option<Value>, items: seq<Value>) {
    if value.Some? && value.value.Items? then value.value.items == items else items == []
  }

  predicate Tables(value: Option<Value>, content: map<Key, Value>) {
    if value.Some? && value.value.Table? then value.value.table.content == content else content == map[]
  }

  /** What the merge's own field of that name overrides, before lists and tables are put together. */
  function Base(merge: Mapping, config: Pairs, name: string): Option<Value> {
    var lowered := Lowered(merge.order, merge.content);
    if Name(name) in lowered then Some(lowered[Name(name)]) else config.At(Name(name))
  }

  lemma Prepended()
    ensures "prepend-" + "rules" == "prepend-rules" && "prepend-" + "rule-providers" == "prepend-rule-providers"
    ensures "prepend-" + "proxies" == "prepend-proxies" && "prepend-" + "proxy-groups" == "prepend-proxy-groups"
    ensures "prepend-" + "proxy-providers" == "prepend-proxy-providers"
  {
  }

  lemma Appended()
    ensures "append-" + "rules" == "append-rules" && "append-" + "rule-providers" == "append-rule-providers"
    ensures "append-" + "proxies" == "append-proxies" && "append-" + "proxy-groups" == "append-proxy-groups"
    ensures "append-" + "proxy-providers" == "append-proxy-providers"
  {
  }

  lemma SpelledOut()
    ensures MERGE_FIELDS ==
            ["prepend-rules", "append-rules", "prepend-rule-providers", "append-rule-providers", "prepend-proxies",
             "append-proxies", "prepend-proxy-providers", "append-proxy-providers", "prepend-proxy-groups",
             "append-proxy-groups"]
  {
    Prepended();
    Appended();
  }

  /** The merged fields are none of the special ones. */
  lemma NotSpecial(n: string)
    requires n in ["rules", "proxies", "proxy-groups", "rule-providers", "proxy-providers"]
    ensures n !in MERGE_FIELDS
    ensures IsListKey(Name(n)) <==> n in ["rules", "proxies", "proxy-groups"]
    ensures IsTableKey(Name(n)) <==> n in ["rule-providers", "proxy-providers"]
  {
    SpelledOut();
    assert n[0] != 'a' && n[2] != 'e';
    assert forall m :: m in MERGE_FIELDS ==> m[0] == 'a' || m[2] == 'e';
  }

  lemma BaseIsOver(merge: Mapping, config: Pairs, n: string)
    ensures var over := Overridden(merge, config);
      (if Name(n) in over then Some(over[Name(n)]) else None) ==
        if n in MERGE_FIELDS then config.At(Name(n)) else Base(merge, config, n)
  {
    hide Lowered;
  }

  /** Rules, proxies and groups: prepended, then the base's, then appended. */
  lemma ListsInOrder(merge: Mapping, config: Pairs, n: string, pre: seq<Value>, base: seq<Value>, post: seq<Value>)
    requires n == "rules" || n == "proxies" || n == "proxy-groups"
    requires Lists(merge.Get("prepend-" + n), pre) && Lists(merge.Get("append-" + n), post)
    requires Lists(Base(merge, config, n), base)
    ensures MergedAt(merge, config, Name(n)) ==
              if pre + base + post == [] then Base(merge, config, n) else Some(Items(pre + base + post))
  {
    NotSpecial(n);
    BaseIsOver(merge, config, n);
    hide Lowered, Overridden, Base, IsListKey, IsTableKey;
  }

  lemma ProviderContent(
      base: Option<Value>, pre: Option<Value>, post: Option<Value>,
      b: map<Key, Value>, p: map<Key, Value>, q: map<Key, Value>)
    requires Tables(base, b) && Tables(pre, p) && Tables(post, q)
    ensures MergedTable(base, pre, post).content == p + b + q
  {
  }

  /** Providers: an appended one beats the base's of its name, which beats a prepended one. */
  lemma ProvidersByName(
      merge: Mapping, config: Pairs, n: string, pre: map<Key, Value>, base: map<Key, Value>, post: map<Key, Value>)
    requires n == "rule-providers" || n == "proxy-providers"
    requires Tables(merge.Get("prepend-" + n), pre) && Tables(merge.Get("append-" + n), post)
    requires Tables(Base(merge, config, n), base)
    ensures var merged := MergedAt(merge, config, Name(n));
      if pre + base + post == map[] then merged == Base(merge, config, n)
      else merged.Some? && merged.value.Table? && merged.value.table.content == pre + base + post
  {
    ProviderContent(Base(merge, config, n), merge.Get("prepend-" + n), merge.Get("append-" + n), base, pre, post);
    hide MergedTable, Tables;
    NotSpecial(n);
    BaseIsOver(merge, config, n);
    hide Lowered, Overridden, Base, IsListKey, IsTableKey;
  }

  /** Every other field of the merge overrides the one of its name in lower case, the ten special ones excepted. */
  lemma OtherFieldsOverride(merge: Mapping, config: Pairs, n: string)
    requires n !in ["rules", "proxies", "proxy-groups", "rule-providers", "proxy-providers"]
    ensures MergedAt(merge, config, Name(n)) ==
              if n in ["prepend-rules", "append-rules", "prepend-proxies", "append-proxies", "prepend-proxy-groups",
                       "append-proxy-groups", "prepend-rule-providers", "append-rule-providers",
                       "prepend-proxy-providers", "append-proxy-providers"]
              then config.At(Name(n)) else Base(merge, config, n)
  {
    SpelledOut();
    BaseIsOver(merge, config, n);
    assert !IsListKey(Name(n)) && !IsTableKey(Name(n));
    hide Lowered, Overridden, Base, IsListKey, IsTableKey;
  }

  lemma SpecialKeys()
    ensures Distinct(TABLE_KEYS) && Distinct(LIST_KEYS) && forall n :: n in TABLE_KEYS ==> n !in LIST_KEYS
    ensures forall n :: n in TABLE_KEYS || n in LIST_KEYS ==>
        "prepend-" + n in MERGE_FIELDS && "append-" + n in MERGE_FIELDS
  {
  }

  // ----- tun.rs

  const TUN := Name("tun")
  const DNS := Name("dns")
  const ENABLE := Name("enable")
  const IPV6 := Name("ipv6")

  /** `append!`: only where the key is missing. */
  function Append(m: Pairs, name: string, value: Value): (r: Pairs)
    ensures r.content == if Name(name) in m.content then m.content else m.content[Name(name) := value]
  {
    if Name(name) in m.content then m else Insert(m, Name(name), value)
  }

  /** What a DNS section gets for TUN where it has nothing of its own. */
  function DnsDefaults(): map<Key, Value> {
    map[Name("enhanced-mode") := Text("fake-ip"),
        Name("fake-ip-range") := Text("198.18.0.1/16"),
        Name("nameserver") := Items([Text("114.114.114.114"), Text("223.5.5.5"), Text("8.8.8.8")]),
        Name("fallback") := Items([]),
        Name("fake-ip-filter") :=
          Items([Text("dns.msftncsi.com"), Text("www.msftncsi.com"), Text("www.msftconnecttest.com")])]
  }

  /** The DNS section has DNS switched on, keeps what it had otherwise, and has the defaults where it had nothing. */
  ghost predicate DnsForTun(before: Pairs, later: Pairs) {
    && later.At(ENABLE) == Some(Bool(true))
    && (forall k :: k != ENABLE ==>
          later.At(k) == if k in before.content then before.At(k)
                         else if k in DnsDefaults() then Some(DnsDefaults()[k]) else None)
  }

  /** Appending puts an entry under what is there. */
  lemma AppendedUnder(m: Pairs, under: map<Key, Value>, before: map<Key, Value>, name: string, value: Value)
    returns (under': map<Key, Value>)
    requires m.content == under + before && Name(name) !in under
    ensures under' == under[Name(name) := value] && Append(m, name, value).content == under' + before
  {
    under' := under[Name(name) := value];
  }

  method WithDnsDefaults(before: Pairs) returns (dns: Pairs)
    ensures dns.content == DnsDefaults() + before.content
  {
    hide Append;
    ghost var under: map<Key, Value> := map[];
    var servers := Items([Text("114.114.114.114"), Text("223.5.5.5"), Text("8.8.8.8")]);
    var exempt := Items([Text("dns.msftncsi.com"), Text("www.msftncsi.com"), Text("www.msftconnecttest.com")]);
    dns := before;
    under := AppendedUnder(dns, under, before.content, "enhanced-mode", Text("fake-ip"));
    dns := Append(dns, "enhanced-mode", Text("fake-ip"));
    under := AppendedUnder(dns, under, before.content, "fake-ip-range", Text("198.18.0.1/16"));
    dns := Append(dns, "fake-ip-range", Text("198.18.0.1/16"));
    under := AppendedUnder(dns, under, before.content, "nameserver", servers);
    dns := Append(dns, "nameserver", servers);
    under := AppendedUnder(dns, under, before.content, "fallback", Items([]));
    dns := Append(dns, "fallback", Items([]));
    under := AppendedUnder(dns, under, before.content, "fake-ip-filter", exempt);
    dns := Append(dns, "fake-ip-filter", exempt);
    assert under == DnsDefaults();
  }

  method UseDnsForTun(config: Mapping) returns (r: Mapping)
    ensures exists dns :: DnsForTun(TableOf(config.At(DNS)), dns) && r.content == config.content[DNS := Table(dns)]
  {
    var before := TableOf(config.At(DNS));
    var dns := WithDnsDefaults(Insert(before, ENABLE, Bool(true)));
    r := Insert(config, DNS, Table(dns));
    assert DnsForTun(before, dns) by {
      hide DnsDefaults;
      assert ENABLE !in DnsDefaults() by { EnableIsNoDefault(); }
    }
  }

  lemma EnableIsNoDefault()
    ensures ENABLE !in DnsDefaults()
  {
  }

  /** The tun section is a table with the switch in it. */
  predicate TunIs(config: Pairs, enable: bool) {
    TUN in config.content && config.content[TUN].Table?
    && config.content[TUN].table.At(ENABLE) == Some(Bool(enable))
  }

  method UseTun(config: Mapping, enable: bool, sourceHasTun: bool, defaultTun: Pairs) returns (r: Mapping)
    ensures TUN in r.content <==> enable || TUN in config.content || sourceHasTun
    ensures TUN in r.content ==> TunIs(r, enable)
    ensures TUN in r.content ==>
      var base := if TUN in config.content && config.content[TUN].Table? then config.content[TUN].table else defaultTun;
      r.content[TUN].table.content == base.content[ENABLE := Bool(enable)]
    ensures forall k :: k != TUN && k != DNS ==> r.At(k) == config.At(k)
    ensures enable ==>
              && r.At(DNS).Some? && r.At(DNS).value.Table?
              && DnsForTun(TableOf(config.At(DNS)), r.At(DNS).value.table)
    ensures !enable ==> r.At(DNS) == config.At(DNS)
  {
    hide DnsForTun;
    if !enable && TUN !in config.content && !sourceHasTun {
      return Remove(config, TUN);
    }
    var tun := if TUN in config.content && config.content[TUN].Table? then config.content[TUN].table else defaultTun;
    tun := Insert(tun, ENABLE, Bool(enable));
    r := Insert(config, TUN, Table(tun));
    if enable {
      r := UseDnsForTun(r);
    }
  }

  // ----- mod.rs

  function Ipv6Flag(config: Pairs): bool { config.At(IPV6) == Some(Bool(true)) }

  method ApplyIpv6ToDns(config: Mapping) returns (r: Mapping)
    ensures exists dns: Pairs :: r.content == config.content[DNS := Table(dns)]
              && dns.content == TableOf(config.At(DNS)).content[IPV6 := Bool(Ipv6Flag(config))]
  {
    var dns := Insert(TableOf(config.At(DNS)), IPV6, Bool(Ipv6Flag(config)));
    r := Insert(config, DNS, Table(dns));
  }

  /** A user script is any function on mappings, and may fail. */
  type Script = Mapping -> Option<Mapping>

  datatype ChainItem = Merge(merge: Mapping) | Run(script: Script)

  function Keys(config: Pairs): set<string> { set k | k in config.content && k.Name? :: Lower(k.name) }

  /** What holds of every final configuration, whatever the scripts do. */
  ghost predicate Final(config: Pairs, enableTun: bool) {
    && (forall k :: k in config.content ==> k.Name?)
    && (enableTun ==> TUN in config.content)
    && (TUN in config.content ==> TunIs(config, enableTun))
    && DNS in config.content && config.content[DNS].Table?
    && config.content[DNS].table.At(IPV6) == Some(Bool(Ipv6Flag(config)))
    && (enableTun ==> config.content[DNS].table.At(ENABLE) == Some(Bool(true)))
  }

  /** The tun section: the one there is, or else the default, with the switch. */
  ghost predicate TunKept(before: Pairs, enableTun: bool, sourceHasTun: bool, defaultTun: Pairs, r: Pairs) {
    && (TUN in r.content <==> enableTun || TUN in before.content || sourceHasTun)
    && (TUN in r.content ==>
          var base :=
            if TUN in before.content && before.content[TUN].Table? then before.content[TUN].table else defaultTun;
          && r.content[TUN].Table?
          && forall k :: r.content[TUN].table.At(k) == if k == ENABLE then Some(Bool(enableTun)) else base.At(k))
  }

  /** The DNS section: what it was, with the ipv6 flag, and under TUN switched on and with defaults. */
  ghost predicate DnsKept(before: Pairs, enableTun: bool, r: Pairs) {
    var was := TableOf(before.At(DNS));
    && r.At(DNS).Some? && r.At(DNS).value.Table?
    && forall k :: r.At(DNS).value.table.At(k) ==
         if k == IPV6 then Some(Bool(before.At(IPV6) == Some(Bool(true))))
         else if k == ENABLE && enableTun then Some(Bool(true))
         else if k in was.content then was.At(k)
         else if enableTun && k in DnsDefaults() then Some(DnsDefaults()[k])
         else None
  }

  /** What the last passes make of a configuration, key by key; keys that are no strings are gone. */
  ghost predicate Ended(before: Pairs, enableTun: bool, sourceHasTun: bool, defaultTun: Pairs, r: Pairs) {
    && TunKept(before, enableTun, sourceHasTun, defaultTun, r)
    && DnsKept(before, enableTun, r)
    && forall k :: k != TUN && k != DNS ==> r.At(k) == if k.Name? then before.At(k) else None
  }

  lemma DnsAddsUp(before: Pairs, enableTun: bool, tunned: Pairs, dns: Pairs, named: Pairs, r: Pairs)
    requires tunned.At(IPV6) == before.At(IPV6)
    requires enableTun ==> DnsForTun(TableOf(before.At(DNS)), TableOf(tunned.At(DNS)))
    requires !enableTun ==> tunned.At(DNS) == before.At(DNS)
    requires named.content == tunned.content[DNS := Table(dns)]
    requires dns.content == TableOf(tunned.At(DNS)).content[IPV6 := Bool(Ipv6Flag(tunned))]
    requires r.content == StringKeyed(named)
    ensures DnsKept(before, enableTun, r)
  {
    hide DnsDefaults;
    var was, tun := TableOf(before.At(DNS)), TableOf(tunned.At(DNS));
    assert IPV6 != ENABLE && r.At(DNS) == Some(Table(dns));
    assert enableTun ==> tun.At(ENABLE) == Some(Bool(true));
    assert forall k :: k != IPV6 ==> dns.At(k) == tun.At(k);
  }

  lemma EndedIsFinal(before: Pairs, enableTun: bool, sourceHasTun: bool, defaultTun: Pairs, r: Pairs)
    requires Ended(before, enableTun, sourceHasTun, defaultTun, r)
    ensures Final(r, enableTun)
  {
    forall k | k in r.content
      ensures k.Name?
    {
      if k != TUN && k != DNS {
        assert r.At(k).Some?;
      }
    }
    hide DnsDefaults;
    assert r.At(IPV6) == before.At(IPV6);
  }

  lemma RestEnds(tunned: Pairs, dns: Pairs, named: Pairs, r: Pairs)
    requires named.content == tunned.content[DNS := Table(dns)]
    requires r.content == StringKeyed(named)
    ensures forall k :: k != DNS ==> r.At(k) == if k.Name? then tunned.At(k) else None
  {
  }

  lemma TunEnds(before: Pairs, enableTun: bool, sourceHasTun: bool, defaultTun: Pairs, tunned: Pairs, r: Pairs)
    requires r.At(TUN) == tunned.At(TUN)
    requires TUN in tunned.content <==> enableTun || TUN in before.content || sourceHasTun
    requires TUN in tunned.content ==> TunIs(tunned, enableTun)
    requires TUN in tunned.content ==>
      var base := if TUN in before.content && before.content[TUN].Table? then before.content[TUN].table else defaultTun;
      tunned.content[TUN].table.content == base.content[ENABLE := Bool(enableTun)]
    ensures TunKept(before, enableTun, sourceHasTun, defaultTun, r)
  {
    if TUN in r.content {
      assert r.content[TUN] == tunned.content[TUN];
    }
  }

  /** The last three passes. */
  method Finished(config: Mapping, enableTun: bool, sourceHasTun: bool, defaultTun: Pairs) returns (r: Mapping)
    ensures Ended(config, enableTun, sourceHasTun, defaultTun, r)
    ensures Final(r, enableTun)
  {
    hide Final, Ipv6Flag, DnsForTun, StringKeyed, DnsKept;
    var tunned := UseTun(config, enableTun, sourceHasTun, defaultTun);
    var named := ApplyIpv6ToDns(tunned);
    r := UseSort(named);
    ghost var dns :| named.content == tunned.content[DNS := Table(dns)]
                     && dns.content == TableOf(tunned.At(DNS)).content[IPV6 := Bool(Ipv6Flag(tunned))];
    RestEnds(tunned, dns, named, r);
    TunEnds(config, enableTun, sourceHasTun, defaultTun, tunned, r);
    hide TunKept, TunIs;
    DnsAddsUp(config, enableTun, tunned, dns, named, r);
    EndedIsFinal(config, enableTun, sourceHasTun, defaultTun, r);
  }

  // ----- the pipeline

  /** A script's result counts only if it did not fail. */
  method RunScript(script: Script, config: Mapping, keys: set<string>)
      returns (result: Mapping, existsKeys: set<string>)
    ensures Answered(script, config, result)
    ensures existsKeys == keys + (if script(config).Some? then Keys(result) else {})
  {
    var answer := script(config);
    match answer {
      case Some(changed) => result, existsKeys := changed, keys + Keys(changed);
      case None => result, existsKeys := config, keys;
    }
  }

  /** The script's answer, or what was there before it if it failed. */
  ghost predicate Answered(script: Script, config: Mapping, result: Mapping) {
    match script(config)
    case Some(changed) => result == changed
    case None => result == config
  }

  ghost predicate Follows(item: ChainItem, config: Mapping, result: Mapping) {
    match item
    case Merge(merge) => forall key :: result.At(key) == MergedAt(merge, config, key)
    case Run(script) => Answered(script, config, result)
  }

  /** The global script makes the first stage of the current profile, and each item of the chain one more. */
  ghost predicate Chained(
      current: Mapping, globalScript: Option<Script>, chain: seq<ChainItem>, stages: seq<Mapping>)
  {
    && |stages| == |chain| + 1
    && (if globalScript.Some? then Answered(globalScript.value, current, stages[0]) else stages[0] == current)
    && forall i :: 0 <= i < |chain| ==> Follows(chain[i], stages[i], stages[i + 1])
  }

  /** Clash's own settings win, except for the tun section. */
  ghost predicate Defaulted(clash: Pairs, before: Pairs, r: Pairs) {
    forall k :: r.At(k) == if k in clash.content && k != TUN then clash.At(k) else before.At(k)
  }

  /** The built-in scripts run one after the other. */
  ghost predicate BuiltIn(builtin: seq<Script>, built: seq<Mapping>) {
    && |built| == |builtin| + 1
    && forall i :: 0 <= i < |builtin| ==> Answered(builtin[i], built[i], built[i + 1])
  }

  /** The whole pipeline: global script, chain in order, Clash's settings, built-in scripts, last passes. */
  ghost predicate Enhanced(
      clash: Mapping, enableTun: bool, builtin: seq<Script>, current: Mapping, globalScript: Option<Script>,
      chain: seq<ChainItem>, stages: seq<Mapping>, built: seq<Mapping>, config: Mapping)
  {
    && Chained(current, globalScript, chain, stages)
    && BuiltIn(builtin, built)
    && Defaulted(clash, stages[|chain|], built[0])
    && Ended(built[|builtin|], enableTun, TUN in stages[|chain|].content, TableOf(clash.At(TUN)), config)
  }

  /** A key that nothing but profile, scripts and chain decides. */
  predicate Own(clash: Pairs, key: Key) { key.Name? && key !in clash.content && key != TUN && key != DNS }

  /** Without scripts and chain, the profile's own entries go through as they are. */
  lemma ProfileGoesThrough(
      clash: Mapping, enableTun: bool, current: Mapping, stages: seq<Mapping>, built: seq<Mapping>, config: Mapping)
    requires Enhanced(clash, enableTun, [], current, None, [], stages, built, config)
    ensures forall k :: Own(clash, k) ==> config.At(k) == current.At(k)
    ensures forall k: Key :: k.Name? && k in clash.content && k != TUN && k != DNS ==> config.At(k) == clash.At(k)
  {
    hide TunKept, DnsKept;
  }

  /**
   One more item at the end of the chain has the last word on such entries: a merge by its rules for each key, a
   script by its answer, or as before if it failed. The chain before it is carried out as it would be alone.
   */
  lemma ChainExtends(
      clash: Mapping, enableTun: bool, current: Mapping, globalScript: Option<Script>, chain: seq<ChainItem>,
      item: ChainItem, stages: seq<Mapping>, built: seq<Mapping>, config: Mapping)
    requires Enhanced(clash, enableTun, [], current, globalScript, chain + [item], stages, built, config)
    ensures Chained(current, globalScript, chain, stages[..|chain| + 1])
    ensures var before := stages[|chain|];
      && (item.Merge? ==> forall k :: Own(clash, k) ==> config.At(k) == MergedAt(item.merge, before, k))
      && (item.Run? ==>
            var answer := item.script(before);
            forall k :: Own(clash, k) ==> config.At(k) == (if answer.Some? then answer.value else before).At(k))
  {
    hide TunKept, DnsKept, MergedAt;
    assert forall i :: 0 <= i < |chain| ==> (chain + [item])[i] == chain[i];
    assert (chain + [item])[|chain|] == item;
  }

  /** A built-in script comes after Clash's settings, so what it answers counts for every entry but tun and DNS. */
  lemma BuiltInExtends(
      clash: Mapping, enableTun: bool, builtin: seq<Script>, script: Script, current: Mapping,
      globalScript: Option<Script>, chain: seq<ChainItem>, stages: seq<Mapping>, built: seq<Mapping>, config: Mapping)
    requires Enhanced(clash, enableTun, builtin + [script], current, globalScript, chain, stages, built, config)
    ensures BuiltIn(builtin, built[..|builtin| + 1])
    ensures var before := built[|builtin|];
      forall k: Key :: k.Name? && k != TUN && k != DNS ==>
        config.At(k) == (if script(before).Some? then script(before).value else before).At(k)
  {
    hide TunKept, DnsKept, Chained;
    assert forall i :: 0 <= i < |builtin| ==> (builtin + [script])[i] == builtin[i];
    assert (builtin + [script])[|builtin|] == script;
  }

  /** Without a chain, the global script is all that comes between the profile and Clash's settings. */
  lemma GlobalScriptComesFirst(
      clash: Mapping, enableTun: bool, current: Mapping, script: Script, stages: seq<Mapping>, built: seq<Mapping>,
      config: Mapping)
    requires Enhanced(clash, enableTun, [], current, Some(script), [], stages, built, config)
    ensures forall k :: Own(clash, k) ==>
              config.At(k) == (if script(current).Some? then script(current).value else current).At(k)
  {
    hide TunKept, DnsKept;
  }

  /** Keys seen: those of the profile, of every merge, and of every script's answer. */
  ghost predicate Seen(
      current: Mapping, globalScript: Option<Script>, chain: seq<ChainItem>, stages: seq<Mapping>, n: nat, name: string)
    requires n <= |chain| && n < |stages|
  {
    || name in Keys(current)
    || (globalScript.Some? && globalScript.value(current).Some? && name in Keys(stages[0]))
    || exists i :: 0 <= i < n && SeenIn(chain[i], stages[i], stages[i + 1], name)
  }

  ghost predicate SeenIn(item: ChainItem, before: Mapping, result: Mapping, name: string) {
    match item
    case Merge(merge) => name in Keys(merge)
    case Run(script) => script(before).Some? && name in Keys(result)
  }

  /** One item of the chain. */
  method FollowChain(item: ChainItem, before: Mapping, keys: set<string>)
    returns (config: Mapping, existsKeys: set<string>)
    ensures Follows(item, before, config)
    ensures forall n :: n in existsKeys <==> n in keys || SeenIn(item, before, config, n)
  {
    hide MergedAt, Keys;
    match item {
      case Merge(merge) =>
        existsKeys := keys + Keys(merge);
        config := UseMerge(merge, before);
      case Run(script) =>
        config, existsKeys := RunScript(script, before, keys);
    }
  }

  lemma SeenStep(
      current: Mapping, globalScript: Option<Script>, chain: seq<ChainItem>, stages: seq<Mapping>, next: Mapping,
      i: nat)
    requires i < |chain| && |stages| == i + 1
    ensures forall n :: Seen(current, globalScript, chain, stages + [next], i + 1, n) <==>
              Seen(current, globalScript, chain, stages, i, n) || SeenIn(chain[i], stages[i], next, n)
  {
    hide SeenIn, Keys;
    var longer := stages + [next];
    assert forall j :: 0 <= j <= i ==> longer[j] == stages[j];
    assert longer[i + 1] == next;
    forall n
      ensures Seen(current, globalScript, chain, longer, i + 1, n) <==>
                Seen(current, globalScript, chain, stages, i, n) || SeenIn(chain[i], stages[i], next, n)
    {
      if SeenIn(chain[i], stages[i], next, n) {
        assert SeenIn(chain[i], longer[i], longer[i + 1], n);
      }
      if j :| 0 <= j < i && SeenIn(chain[j], stages[j], stages[j + 1], n) {
        assert SeenIn(chain[j], longer[j], longer[j + 1], n);
      }
    }
  }

  /** The built-in scripts. */
  method RunBuiltIns(builtin: seq<Script>, defaulted: Mapping) returns (config: Mapping, ghost built: seq<Mapping>)
    ensures BuiltIn(builtin, built) && built[0] == defaulted && config == built[|builtin|]
  {
    config, built := defaulted, [defaulted];
    for i := 0 to |builtin|
      invariant |built| == i + 1 && built[0] == defaulted && built[i] == config
      invariant forall j :: 0 <= j < i ==> Answered(builtin[j], built[j], built[j + 1])
    {
      var result, _ := RunScript(builtin[i], config, {});
      config, built := result, built + [result];
    }
  }

  method Enhance(clash: Mapping, enableTun: bool, builtin: seq<Script>, current: Mapping,
                 globalScript: Option<Script>, chain: seq<ChainItem>)
    returns (config: Mapping, existsKeys: set<string>, ghost stages: seq<Mapping>, ghost built: seq<Mapping>)
    ensures Enhanced(clash, enableTun, builtin, current, globalScript, chain, stages, built, config)
    ensures Final(config, enableTun)
    ensures builtin == [] ==>
      forall k :: k in clash.content && k.Name? && k != TUN && k != DNS ==> config.At(k) == Some(clash.content[k])
    ensures builtin == [] && globalScript.None? && chain == [] ==>
      forall k :: Own(clash, k) ==> config.At(k) == current.At(k)
    ensures forall n :: n in existsKeys <==> Seen(current, globalScript, chain, stages, |chain|, n)
  {
    hide Final, Keys, MergedAt, TunKept, DnsKept, Follows, SeenIn, Answered;
    config, existsKeys := current, Keys(current);
    if globalScript.Some? {
      config, existsKeys := RunScript(globalScript.value, config, existsKeys);
    }
    stages := [config];
    for i := 0 to |chain|
      invariant |stages| == i + 1 && stages[i] == config
      invariant if globalScript.Some? then Answered(globalScript.value, current, stages[0]) else stages[0] == current
      invariant forall j :: 0 <= j < i ==> Follows(chain[j], stages[j], stages[j + 1])
      invariant forall n :: n in existsKeys <==> Seen(current, globalScript, chain, stages, i, n)
    {
      var next, keys := FollowChain(chain[i], config, existsKeys);
      SeenStep(current, globalScript, chain, stages, next, i);
      config, existsKeys, stages := next, keys, stages + [next];
    }
    var sourceHasTun := TUN in config.content;
    config := InsertAll(clash, {TUN}, config);   // Clash's own settings win, except for the tun section
    config, built := RunBuiltIns(builtin, config);
    config := Finished(config, enableTun, sourceHasTun, TableOf(clash.At(TUN)));
  }
}
