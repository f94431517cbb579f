/**
 * The client-registry initializer of `configDidLoad` (src/app.ts): normalise the
 * configuration, check the default flags, check and build each entry, and
 * return the dictionary and the default handle that are then published.
 */
module Initializer {
  import opened Wrappers
  import opened Config
  import opened Clients

  /**
   * Reference definition of the outcome for a normalised list: the first failing
   * assertion, in the order the source evaluates them, or the registry.
   */
  function InitializeList(items: seq<Item>): Result<Registry, Error> {
    if FindDefault(items).None? then Err(MissingDefaultClient)
    else if |DefaultIndices(items)| > 1 then Err(MoreThanOneDefault)
    else match FirstInvalid(items, 0)
      case Some(k) => Err(EntryError(items[k], k).value)
      case None =>
        var d := FindDefault(items).value;
        Ok(Registry(ClientMap(Configs(items)), Build(items[d].config, d)))
  }

  /** Reference definition of the outcome of the whole initializer for a raw configuration value. */
  function Initialize(raw: RawConfig): Result<Registry, Error> {
    match raw
    case NotObject => Err(ConfigNotObject)
    case Single(c) => InitializeList([Object(Tagged(c))])
    case List(items) => InitializeList(items)
  }

  /**
   * The two `assert`s on `defaultClient`, then the `for (const opt of opts)` loop
   * that checks each entry, builds its client, remembers the first default client
   * and stores the client under its name.
   */
  method BuildRegistry(opts: seq<Item>) returns (r: Result<Registry, Error>)
    ensures r == InitializeList(opts)
  {
    if FindDefault(opts).None? {
      return Err(MissingDefaultClient);
    }
    if |DefaultIndices(opts)| > 1 {
      return Err(MoreThanOneDefault);
    }
    ghost var d := FindDefault(opts).value;
    var elasticsearchs: map<string, Client> := map[];
    var elasticsearchDefault: Option<Client> := None;
    for i := 0 to |opts|
      invariant forall k :: 0 <= k < i ==> EntryError(opts[k], k).None?
      invariant FirstInvalid(opts, 0) == FirstInvalid(opts, i)
      invariant elasticsearchs == ClientMap(Configs(opts[..i]))
      invariant elasticsearchDefault == if i <= d then None else Some(Build(opts[d].config, d))
    {
      match opts[i]
      case Primitive(text) =>
        return Err(EntryNotObject(i, text));
      case Object(opt) =>
        if opt.elasticsearchName == "" {
          return Err(MissingName(i));
        }
        if !HasNodes(opt) {
          return Err(MissingNodes(i));
        }
        var client := Build(opt, i);
        if elasticsearchDefault.None? && opt.defaultClient {
          elasticsearchDefault := Some(client);
        }
        assert Configs(opts[..i + 1])[..i] == Configs(opts[..i]);
        elasticsearchs := elasticsearchs[opt.elasticsearchName := client];
    }
    assert opts[..|opts|] == opts;
    return Ok(Registry(elasticsearchs, elasticsearchDefault.value));
  }

  /** The list-wide checks: the missing-default error is thrown exactly when no entry is a default. */
  lemma MissingDefaultIff(items: seq<Item>)
    ensures InitializeList(items) == Err(MissingDefaultClient) <==>
      forall k :: 0 <= k < |items| ==> !IsDefault(items[k])
  {
  }

  /**
   * The more-than-one-default error is thrown exactly when two entries are defaults,
   * whatever the entries are otherwise: no entry is checked before it.
   */
  lemma MoreThanOneDefaultIff(items: seq<Item>)
    ensures InitializeList(items) == Err(MoreThanOneDefault) <==>
      exists j, k :: 0 <= j < k < |items| && IsDefault(items[j]) && IsDefault(items[k])
  {
    TwoDefaults(items);
    FindIsFirstOfFilter(items);
  }

  /** Entry `d` is the only one whose `defaultClient` is truthy. */
  predicate OnlyDefault(items: seq<Item>, d: nat) {
    && d < |items|
    && IsDefault(items[d])
    && forall k :: 0 <= k < |items| && IsDefault(items[k]) ==> k == d
  }

  /** With a single default, the error is that of the first entry failing a per-entry check. */
  lemma FirstEntryErrorWins(items: seq<Item>, d: nat, k: nat)
    requires OnlyDefault(items, d)
    requires k < |items| && EntryError(items[k], k).Some?
    requires forall m :: 0 <= m < k ==> EntryError(items[m], m).None?
    ensures InitializeList(items) == Err(EntryError(items[k], k).value)
  {
    CountOfOnlyDefault(items, d);
  }

  /** With a single default, initialization succeeds exactly when every entry is a well-formed object. */
  lemma SucceedsIff(items: seq<Item>, d: nat)
    requires OnlyDefault(items, d)
    ensures InitializeList(items).Ok? <==>
      forall k :: 0 <= k < |items| ==> items[k].Object? && WellFormed(items[k].config)
  {
    CountOfOnlyDefault(items, d);
  }

  /** A single default means `find` locates it and `filter` keeps it alone. */
  lemma CountOfOnlyDefault(items: seq<Item>, d: nat)
    requires OnlyDefault(items, d)
    ensures FindDefault(items) == Some(d) && |DefaultIndices(items)| == 1
  {
    TwoDefaults(items);
    assert d in DefaultIndices(items);
  }

  /** On success every entry is a well-formed object and exactly one of them is the default. */
  lemma SuccessShape(items: seq<Item>)
    requires InitializeList(items).Ok?
    ensures forall k :: 0 <= k < |items| ==> items[k].Object? && WellFormed(items[k].config)
    ensures FindDefault(items).Some? && OnlyDefault(items, FindDefault(items).value)
  {
  }

  /** On success the dictionary's keys are exactly the entries' names. */
  lemma RegistryKeys(items: seq<Item>)
    requires InitializeList(items).Ok?
    ensures InitializeList(items).value.elasticsearchs.Keys ==
      set j | 0 <= j < |items| && items[j].Object? :: items[j].config.elasticsearchName
  {
    SuccessShape(items);
    var cs := Configs(items);
    ClientMapKeys(cs);
    assert Names(cs) == set j | 0 <= j < |items| && items[j].Object? :: items[j].config.elasticsearchName;
  }

  /** On success a name maps to the client of the last entry carrying it; duplicates are not rejected. */
  lemma RegistryLastWins(items: seq<Item>, j: nat)
    requires InitializeList(items).Ok?
    requires j < |items| && items[j].Object?
    requires forall k :: j < k < |items| && items[k].Object? ==>
      items[k].config.elasticsearchName != items[j].config.elasticsearchName
    ensures items[j].config.elasticsearchName in InitializeList(items).value.elasticsearchs
    ensures InitializeList(items).value.elasticsearchs[items[j].config.elasticsearchName] == Build(items[j].config, j)
  {
    SuccessShape(items);
    ClientMapLastWins(Configs(items), j);
  }

  /**
   * On success each client in the dictionary was built from an entry of the list,
   * the last with its key, and is tagged with that entry's name and default flag.
   */
  lemma RegistryValues(items: seq<Item>)
    requires InitializeList(items).Ok?
    ensures forall x :: x in InitializeList(items).value.elasticsearchs ==>
      var c := InitializeList(items).value.elasticsearchs[x];
      && c.index < |items|
      && items[c.index] == Object(c.options)
      && c == Build(c.options, c.index)
      && c.elasticsearchName == x == c.options.elasticsearchName
      && c.defaultClient == c.options.defaultClient
      && forall k :: c.index < k < |items| ==> items[k].config.elasticsearchName != x
  {
    SuccessShape(items);
    ClientMapValues(Configs(items));
  }

  /**
   * On success the default handle is the client built from the one default entry,
   * tagged as default; it is also the dictionary's value for its name when no
   * later entry reuses that name.
   */
  lemma DefaultHandle(items: seq<Item>, d: nat)
    requires InitializeList(items).Ok?
    requires d < |items| && IsDefault(items[d])
    ensures OnlyDefault(items, d)
    ensures InitializeList(items).value.elasticsearch == Build(items[d].config, d)
    ensures InitializeList(items).value.elasticsearch.defaultClient
    ensures InitializeList(items).value.elasticsearch.elasticsearchName == items[d].config.elasticsearchName
    ensures items[d].config.elasticsearchName in InitializeList(items).value.elasticsearchs
    ensures (forall k :: d < k < |items| ==> items[k].config.elasticsearchName != items[d].config.elasticsearchName) ==>
      InitializeList(items).value.elasticsearchs[items[d].config.elasticsearchName] == InitializeList(items).value.elasticsearch
  {
    SuccessShape(items);
    RegistryKeys(items);
    if forall k :: d < k < |items| ==> items[k].config.elasticsearchName != items[d].config.elasticsearchName {
      RegistryLastWins(items, d);
    }
  }

  /**
   * When a later entry reuses the default entry's name, the default handle is
   * published but is no longer one of the dictionary's values.
   */
  lemma DefaultShadowed(items: seq<Item>, d: nat, k: nat)
    requires InitializeList(items).Ok?
    requires d < k < |items| && IsDefault(items[d])
    requires items[k].Object? && items[k].config.elasticsearchName == items[d].config.elasticsearchName
    ensures InitializeList(items).value.elasticsearch !in InitializeList(items).value.elasticsearchs.Values
  {
    DefaultHandle(items, d);
    RegistryValues(items);
  }

  /** On success with distinct names, the dictionary holds one client per entry. */
  lemma OneClientPerEntry(items: seq<Item>)
    requires InitializeList(items).Ok?
    requires forall j, k :: 0 <= j < k < |items| && items[j].Object? && items[k].Object? ==>
      items[j].config.elasticsearchName != items[k].config.elasticsearchName
    ensures |InitializeList(items).value.elasticsearchs| == |items|
  {
    SuccessShape(items);
    ClientMapSize(Configs(items));
  }

  /**
   * A single configuration object is tagged `default`, overwriting the user's name
   * and flag, and yields a one-client dictionary whose only value is the default
   * handle; it fails only for want of `node || nodes`.
   */
  lemma SingleObject(c: ClientConfig)
    ensures Initialize(Single(c)).Ok? <==> HasNodes(c)
    ensures !HasNodes(c) ==> Initialize(Single(c)) == Err(MissingNodes(0))
    ensures HasNodes(c) ==>
      var reg := Initialize(Single(c)).value;
      && reg.elasticsearchs == map["default" := reg.elasticsearch]
      && reg.elasticsearch.index == 0
      && reg.elasticsearch.elasticsearchName == "default"
      && reg.elasticsearch.defaultClient
      && reg.elasticsearch.options == c.(elasticsearchName := "default", defaultClient := true)
  {
    var items := [Object(Tagged(c))];
    assert OnlyDefault(items, 0);
    CountOfOnlyDefault(items, 0);
    if HasNodes(c) {
      var cs := Configs(items);
      assert cs == [Tagged(c)] && cs[..0] == [];
      assert ClientMap(cs) == map["default" := Build(Tagged(c), 0)];
    }
  }
}
