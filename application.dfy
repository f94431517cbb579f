/**
 * The host application and the boot hook of src/app.ts: `configDidLoad`
 * tags a single configuration object in place, runs the initializer and
 * publishes its result as two read-only properties of the application.
 */
module Application {
  import opened Wrappers
  import opened Config
  import opened Clients
  import opened Initializer

  /**
   * The part of the egg `Application` the plugin touches: its `elasticsearch`
   * configuration and the two properties `elasticsearch` and `elasticsearchs`
   * (`None` while undefined). `sealed` records that `Object.defineProperties`
   * has made both non-writable and non-configurable.
   */
  class App {
    var config: RawConfig
    var elasticsearch: Option<Client>
    var elasticsearchs: Option<map<string, Client>>
    var sealed: bool

    /** An application whose configuration has loaded and whose two properties are undefined. */
    constructor (config: RawConfig)
      ensures this.config == config
      ensures elasticsearch == None && elasticsearchs == None && !sealed
    {
      this.config := config;
      elasticsearch := None;
      elasticsearchs := None;
      sealed := false;
    }

    /**
     * `Object.defineProperties(app, { elasticsearch: …, elasticsearchs: … })` with
     * `writable: false, configurable: false`. On a sealed application a redefinition
     * is refused with a TypeError unless it gives the same values, and either way
     * the values stay as they were.
     */
    method DefineProperties(client: Client, clients: map<string, Client>) returns (ok: bool)
      modifies this
      ensures ok <==> !old(sealed) || (old(elasticsearch) == Some(client) && old(elasticsearchs) == Some(clients))
      ensures sealed && config == old(config)
      ensures elasticsearch == if old(sealed) then old(elasticsearch) else Some(client)
      ensures elasticsearchs == if old(sealed) then old(elasticsearchs) else Some(clients)
    {
      ok := !sealed || (elasticsearch == Some(client) && elasticsearchs == Some(clients));
      if !sealed {
        elasticsearch := Some(client);
        elasticsearchs := Some(clients);
        sealed := true;
      }
    }

    /**
     * `app.elasticsearch = client`. Once the property is sealed the assignment is
     * refused (a TypeError in strict mode) and the published handle stays.
     */
    method AssignElasticsearch(client: Client) returns (ok: bool)
      modifies this
      ensures ok <==> !old(sealed)
      ensures elasticsearch == if ok then Some(client) else old(elasticsearch)
      ensures elasticsearchs == old(elasticsearchs) && sealed == old(sealed) && config == old(config)
    {
      ok := !sealed;
      if ok {
        elasticsearch := Some(client);
      }
    }

    /**
     * `app.elasticsearchs = clients`. Once the property is sealed the assignment is
     * refused and the published dictionary stays.
     */
    method AssignElasticsearchs(clients: map<string, Client>) returns (ok: bool)
      modifies this
      ensures ok <==> !old(sealed)
      ensures elasticsearchs == if ok then Some(clients) else old(elasticsearchs)
      ensures elasticsearch == old(elasticsearch) && sealed == old(sealed) && config == old(config)
    {
      ok := !sealed;
      if ok {
        elasticsearchs := Some(clients);
      }
    }
  }

  /** The plugin's boot object (`ElasticsearchBoot` in src/app.ts). */
  class ElasticsearchBoot {
    const app: App

    constructor (app: App)
      ensures this.app == app
    {
      this.app := app;
    }

    /**
     * `configDidLoad`: the configuration is tagged in place when it is a single
     * object; a failed check throws before anything is published; on success the
     * registry of `Initialize` is published as the two sealed properties, and on
     * an application sealed by an earlier boot the redefinition always throws.
     */
    method ConfigDidLoad() returns (r: Result<Registry, Error>)
      modifies app
      ensures app.config == TaggedConfig(old(app.config))
      ensures Initialize(old(app.config)).Err? ==>
        && r == Initialize(old(app.config))
        && app.elasticsearch == old(app.elasticsearch)
        && app.elasticsearchs == old(app.elasticsearchs)
        && app.sealed == old(app.sealed)
      ensures Initialize(old(app.config)).Ok? ==>
        var reg := Initialize(old(app.config)).value;
        && app.sealed
        && (if old(app.sealed)
            then r == Err(CannotRedefine) && app.elasticsearch == old(app.elasticsearch) && app.elasticsearchs == old(app.elasticsearchs)
            else r == Ok(reg) && app.elasticsearch == Some(reg.elasticsearch) && app.elasticsearchs == Some(reg.elasticsearchs))
    {
      var opts := app.config;
      if opts.NotObject? {
        return Err(ConfigNotObject);
      }
      var items: seq<Item>;
      if opts.Single? {
        app.config := Single(Tagged(opts.config));
        items := [Object(Tagged(opts.config))];
      } else {
        items := opts.items;
      }
      r := BuildRegistry(items);
      if r.Ok? {
        if app.sealed {
          // This boot built a fresh dictionary and fresh clients, which are never
          // the same objects as the sealed values, so `defineProperties` throws.
          r := Err(CannotRedefine);
        } else {
          var ok := app.DefineProperties(r.value.elasticsearch, r.value.elasticsearchs);
        }
      }
    }
  }

  /**
   * Boot a fresh application, then try to overwrite both properties with
   * `other` and `others`. A failed initialization publishes nothing; after a
   * successful one both assignments are refused and the published values stay.
   */
  method BootThenReassign(config: RawConfig, other: Client, others: map<string, Client>)
    returns (r: Result<Registry, Error>, app: App, refused: bool)
    ensures r == Initialize(config)
    ensures r.Err? ==> app.elasticsearch == None && app.elasticsearchs == None && !app.sealed
    ensures r.Ok? ==> refused
    ensures r.Ok? ==> app.elasticsearch == Some(r.value.elasticsearch) && app.elasticsearchs == Some(r.value.elasticsearchs)
  {
    app := new App(config);
    var boot := new ElasticsearchBoot(app);
    r := boot.ConfigDidLoad();
    refused := false;
    if r.Ok? {
      var first := app.AssignElasticsearch(other);
      var second := app.AssignElasticsearchs(others);
      refused := !first && !second;
    }
  }
}
