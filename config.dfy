/**
 * The `elasticsearch` configuration value read by `configDidLoad` in src/app.ts,
 * the JavaScript truthiness tests the plugin applies to it, and the two
 * list-wide checks on `defaultClient` (`find` and `filter`).
 */
module Config {
  import opened Wrappers

  /** Every assertion message of the plugin starts with this tag. */
  const Tag := "[egg-elasticsearch-plugin] "

  /**
   * One client entry (the `Elasticsearch` options interface of index.d.ts).
   * `elasticsearchName == ""` stands for a name that is absent or empty,
   * `defaultClient == false` for a flag that is absent or false, and
   * `options` for every other option, handed verbatim to the client constructor.
   */
  datatype ClientConfig = ClientConfig(
    elasticsearchName: string,
    defaultClient: bool,
    node: Option<string>,
    nodes: Option<seq<string>>,
    options: map<string, string>)

  /** An element of a configuration array: an object, or a primitive value shown as `text`. */
  datatype Item = Object(config: ClientConfig) | Primitive(text: string)

  /** The raw configuration value: a single object, an array, or something that is not an object. */
  datatype RawConfig = Single(config: ClientConfig) | List(items: seq<Item>) | NotObject

  /** The assertions `configDidLoad` can fail, and the TypeError of redefining a sealed property. */
  datatype Error =
    | ConfigNotObject
    | MissingDefaultClient
    | MoreThanOneDefault
    | EntryNotObject(index: nat, text: string)
    | MissingName(index: nat)
    | MissingNodes(index: nat)
    | CannotRedefine

  /** The message each error is thrown with. */
  function Message(e: Error): (m: string)
    ensures e != CannotRedefine ==> Tag <= m
  {
    match e
    case ConfigNotObject => Tag + "Config must is Object!"
    case MissingDefaultClient => Tag + "Missing defaultClient option"
    case MoreThanOneDefault => Tag + "More than one default client"
    case EntryNotObject(_, text) => Tag + "Config \U{2018}" + text + "\U{2019} must be an object!"
    case MissingName(_) => Tag + "Property \U{2018}elasticsearchName\U{2019} is required!"
    case MissingNodes(_) => Tag + "Missing node(s) option"
    case CannotRedefine => "Cannot redefine property: elasticsearch"
  }

  /** JavaScript truthiness of `node || nodes`: a non-empty string, or any array (even an empty one). */
  predicate HasNodes(c: ClientConfig) {
    (c.node.Some? && c.node.value != "") || c.nodes.Some?
  }

  /** What every entry must satisfy to become a client: a truthy name and `node || nodes`. */
  predicate WellFormed(c: ClientConfig) {
    c.elasticsearchName != "" && HasNodes(c)
  }

  /** Truthiness of `({ defaultClient }) => defaultClient`; a primitive has no such property. */
  predicate IsDefault(item: Item) {
    item.Object? && item.config.defaultClient
  }

  /** `Object.assign(opts, { elasticsearchName: 'default', defaultClient: true })`. */
  function Tagged(c: ClientConfig): ClientConfig {
    c.(elasticsearchName := "default", defaultClient := true)
  }

  /** The configuration value as `configDidLoad` leaves it: a single object is tagged in place. */
  function TaggedConfig(raw: RawConfig): RawConfig {
    match raw
    case Single(c) => Single(Tagged(c))
    case _ => raw
  }

  /** `opts.find(({ defaultClient }) => defaultClient)`, as the position of the element found. */
  function FindDefault(items: seq<Item>): (r: Option<nat>)
    ensures r.Some? ==> r.value < |items| && IsDefault(items[r.value])
    ensures r.Some? ==> forall k :: 0 <= k < r.value ==> !IsDefault(items[k])
    ensures r.None? ==> forall k :: 0 <= k < |items| ==> !IsDefault(items[k])
  {
    if items == [] then None
    else if IsDefault(items[0]) then Some(0)
    else match FindDefault(items[1..])
      case None => None
      case Some(k) => Some(k + 1)
  }

  /** `opts.filter(({ defaultClient }) => defaultClient)`, as the positions of the elements kept. */
  function DefaultIndices(items: seq<Item>): (r: seq<nat>)
    ensures forall j :: j in r <==> 0 <= j < |items| && IsDefault(items[j])
    ensures forall a, b :: 0 <= a < b < |r| ==> r[a] < r[b]
    ensures forall a :: 0 <= a < |r| ==> r[a] < |items|
  {
    if items == [] then []
    else
      var n := |items| - 1;
      DefaultIndices(items[..n]) + (if IsDefault(items[n]) then [n] else [])
  }

  /** The first failing assertion inside the loop for the entry at `index`, if any. */
  function EntryError(item: Item, index: nat): (r: Option<Error>)
    ensures r.None? <==> item.Object? && WellFormed(item.config)
    ensures item.Primitive? ==> r == Some(EntryNotObject(index, item.text))
    ensures item.Object? && item.config.elasticsearchName == "" ==> r == Some(MissingName(index))
    ensures item.Object? && item.config.elasticsearchName != "" && !HasNodes(item.config) ==> r == Some(MissingNodes(index))
  {
    match item
    case Primitive(text) => Some(EntryNotObject(index, text))
    case Object(c) =>
      if c.elasticsearchName == "" then Some(MissingName(index))
      else if !HasNodes(c) then Some(MissingNodes(index))
      else None
  }

  /** The position of the first entry, from `from` on, that fails a per-entry assertion. */
  function FirstInvalid(items: seq<Item>, from: nat): (r: Option<nat>)
    requires from <= |items|
    ensures r.Some? ==> from <= r.value < |items| && EntryError(items[r.value], r.value).Some?
    ensures r.Some? ==> forall k :: from <= k < r.value ==> EntryError(items[k], k).None?
    ensures r.None? ==> forall k :: from <= k < |items| ==> EntryError(items[k], k).None?
    decreases |items| - from
  {
    if from == |items| then None
    else if EntryError(items[from], from).Some? then Some(from)
    else FirstInvalid(items, from + 1)
  }

  /** The configurations of a list whose entries are all objects. */
  function Configs(items: seq<Item>): (cs: seq<ClientConfig>)
    requires forall k :: 0 <= k < |items| ==> items[k].Object?
    ensures |cs| == |items| && forall k :: 0 <= k < |items| ==> cs[k] == items[k].config
  {
    seq(|items|, k requires 0 <= k < |items| => items[k].config)
  }

  /** With at most one position kept by the filter, the element found is the only default entry. */
  lemma {:induction false} DefaultIsUnique(items: seq<Item>)
    requires FindDefault(items).Some? && |DefaultIndices(items)| <= 1
    ensures forall k :: 0 <= k < |items| && IsDefault(items[k]) ==> k == FindDefault(items).value
  {
  }

  /** `find` returns the first element `filter` keeps; it fails exactly when `filter` keeps none. */
  lemma {:induction false} FindIsFirstOfFilter(items: seq<Item>)
    ensures FindDefault(items).None? <==> |DefaultIndices(items)| == 0
    ensures FindDefault(items).Some? ==> FindDefault(items).value == DefaultIndices(items)[0]
  {
    var r := DefaultIndices(items);
    var f := FindDefault(items);
    if f.Some? {
      assert f.value in r;
    }
    if |r| > 0 {
      assert r[0] in r;
    }
    if f.Some? && |r| > 0 {
      var a :| 0 <= a < |r| && r[a] == f.value;
      assert r[0] <= r[a];
    }
  }

  /** The filter keeps two or more positions exactly when two different entries are defaults. */
  lemma {:induction false} TwoDefaults(items: seq<Item>)
    ensures |DefaultIndices(items)| >= 2 <==>
      exists j, k :: 0 <= j < k < |items| && IsDefault(items[j]) && IsDefault(items[k])
  {
    var r := DefaultIndices(items);
    if |r| >= 2 {
      assert r[0] in r && r[1] in r;
      assert 0 <= r[0] < r[1] < |items| && IsDefault(items[r[0]]) && IsDefault(items[r[1]]);
    } else {
      forall j, k | 0 <= j < k < |items| && IsDefault(items[j])
        ensures !IsDefault(items[k])
      {
        assert j in r;
        assert |r| == 1 && r[0] == j;
        assert k !in r;
      }
    }
  }
}
