/**
 * Client handles and the `elasticsearchs` dictionary that the loop of
 * `configDidLoad` (src/app.ts) fills in list order.
 */
module Clients {
  import opened Config

  /**
   * The handle `new elasticsearch.Client({ ...opt })` returns once
   * `Object.assign(client, { elasticsearchName, defaultClient })` has tagged it.
   * The library is opaque: a handle is known by the options it was built from
   * and by the position of its entry, which tells two constructions apart.
   */
  datatype Client = Client(
    options: ClientConfig,
    index: nat,
    elasticsearchName: string,
    defaultClient: bool)

  /** What a successful `configDidLoad` publishes: the dictionary and the default handle. */
  datatype Registry = Registry(elasticsearchs: map<string, Client>, elasticsearch: Client)

  /** Construct and tag the client for the entry `c` at position `index`. */
  function Build(c: ClientConfig, index: nat): Client {
    Client(c, index, c.elasticsearchName, c.defaultClient)
  }

  /** `elasticsearchs[elasticsearchName] = client` for every entry, in list order. */
  function ClientMap(cs: seq<ClientConfig>): map<string, Client>
    decreases |cs|
  {
    if cs == [] then map[]
    else
      var n := |cs| - 1;
      ClientMap(cs[..n])[cs[n].elasticsearchName := Build(cs[n], n)]
  }

  /** The names of the entries. */
  function Names(cs: seq<ClientConfig>): set<string> {
    set j | 0 <= j < |cs| :: cs[j].elasticsearchName
  }

  /** Entry `j` is the last one carrying its name. */
  predicate LastWithName(cs: seq<ClientConfig>, j: nat) {
    j < |cs| && forall k :: j < k < |cs| ==> cs[k].elasticsearchName != cs[j].elasticsearchName
  }

  /** No two entries share a name. */
  predicate UniqueNames(cs: seq<ClientConfig>) {
    forall j, k :: 0 <= j < k < |cs| ==> cs[j].elasticsearchName != cs[k].elasticsearchName
  }

  /** The dictionary has a key for every entry's name and no other key. */
  lemma {:induction false} ClientMapKeys(cs: seq<ClientConfig>)
    ensures ClientMap(cs).Keys == Names(cs)
  {
    if cs != [] {
      var n := |cs| - 1;
      ClientMapKeys(cs[..n]);
      assert Names(cs) == Names(cs[..n]) + {cs[n].elasticsearchName} by {
        forall x | x in Names(cs) ensures x in Names(cs[..n]) + {cs[n].elasticsearchName} {
          var j :| 0 <= j < |cs| && cs[j].elasticsearchName == x;
          if j < n { assert cs[..n][j] == cs[j]; }
        }
        forall x | x in Names(cs[..n]) ensures x in Names(cs) {
          var j :| 0 <= j < n && cs[..n][j].elasticsearchName == x;
          assert cs[j].elasticsearchName == x;
        }
      }
    }
  }

  /** A repeated name does not fail: the key maps to the client of the last entry with that name. */
  lemma {:induction false} ClientMapLastWins(cs: seq<ClientConfig>, j: nat)
    requires LastWithName(cs, j)
    ensures cs[j].elasticsearchName in ClientMap(cs)
    ensures ClientMap(cs)[cs[j].elasticsearchName] == Build(cs[j], j)
  {
    var n := |cs| - 1;
    if j < n {
      assert LastWithName(cs[..n], j) by {
        forall k | j < k < n ensures cs[..n][k].elasticsearchName != cs[..n][j].elasticsearchName {
          assert cs[..n][k] == cs[k];
        }
      }
      ClientMapLastWins(cs[..n], j);
    }
  }

  /**
   * Every value of the dictionary is the client built from the last entry
   * with its key, tagged with that entry's `elasticsearchName` and `defaultClient`.
   */
  lemma {:induction false} ClientMapValues(cs: seq<ClientConfig>)
    ensures forall x :: x in ClientMap(cs) ==>
      && LastWithName(cs, ClientMap(cs)[x].index)
      && ClientMap(cs)[x] == Build(cs[ClientMap(cs)[x].index], ClientMap(cs)[x].index)
      && ClientMap(cs)[x].elasticsearchName == x
      && ClientMap(cs)[x].defaultClient == cs[ClientMap(cs)[x].index].defaultClient
  {
    if cs != [] {
      var n := |cs| - 1;
      ClientMapValues(cs[..n]);
      forall x | x in ClientMap(cs)
        ensures LastWithName(cs, ClientMap(cs)[x].index)
        ensures ClientMap(cs)[x] == Build(cs[ClientMap(cs)[x].index], ClientMap(cs)[x].index)
      {
        if x != cs[n].elasticsearchName {
          var i := ClientMap(cs[..n])[x].index;
          assert cs[..n][i] == cs[i];
          assert ClientMap(cs)[x] == ClientMap(cs[..n])[x];
        }
      }
    }
  }

  /** With distinct names the dictionary holds exactly one client per entry. */
  lemma {:induction false} ClientMapSize(cs: seq<ClientConfig>)
    requires UniqueNames(cs)
    ensures |ClientMap(cs)| == |cs|
  {
    if cs != [] {
      var n := |cs| - 1;
      assert UniqueNames(cs[..n]) by {
        forall j, k | 0 <= j < k < n ensures cs[..n][j].elasticsearchName != cs[..n][k].elasticsearchName {
          assert cs[..n][j] == cs[j] && cs[..n][k] == cs[k];
        }
      }
      ClientMapSize(cs[..n]);
      ClientMapKeys(cs[..n]);
      assert cs[n].elasticsearchName !in Names(cs[..n]);
    }
  }
}
