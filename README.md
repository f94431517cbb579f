# egg-elasticsearch-plugin: the client registry initializer

This project models the one piece of the egg plugin `egg-elasticsearch-plugin` that
makes decisions: the `configDidLoad` boot hook of `ElasticsearchBoot`. The hook reads
the application's `elasticsearch` configuration and works in four stages:

1. It checks that the value is an object.
2. It normalises it. A single object is tagged in place with
   `elasticsearchName: 'default'` and `defaultClient: true`, then wrapped in a list.
3. It checks the list. First `find` must see a default entry, then `filter` must keep
   at most one. After that each entry, in order, must be an object, must have a name,
   and must have `node || nodes`.
4. It builds a client per entry into a name-to-client dictionary and remembers the
   first default client. Both are then published on the application as
   non-writable, non-configurable properties.

Files and modules:

- `wrappers.dfy` (`Wrappers`): `Option` and `Result`.
- `config.dfy` (`Config`): the configuration entry (`ClientConfig`), the raw value
  (`Single | List | NotObject`) and the error kinds with their messages. It also holds
  JavaScript truthiness of the name, the flag and `node || nodes`, and the `find` and
  `filter` behind the default checks (`FindDefault` and `DefaultIndices`, both
  returning positions), plus the per-entry checks.
- `clients.dfy` (`Clients`): the opaque client handle and the dictionary that the loop
  fills (`ClientMap`). The handle is the entry's options, the entry's position and its
  two tags.
- `initializer.dfy` (`Initializer`): `Initialize`, a reference definition of the
  outcome of the whole hook. `BuildRegistry` is the hook's checks and loop written as
  a loop, and is proved equal to that definition. The lemmas state what the outcome is.
- `application.dfy` (`Application`): the application object (`App`) with its
  configuration and its two set-once properties, and `ElasticsearchBoot.ConfigDidLoad`,
  which changes both.

How the modelled JavaScript behaves:

- A name counts only if it is non-empty. `""` stands for an absent or empty
  `elasticsearchName`.
- `defaultClient` counts only if it is `true`.
- `node || nodes` holds for a non-empty `node` string, or for any `nodes` array,
  even an empty one. The code tests truthiness, not presence, so a `node` of `""`
  alone fails.
- A list element that is not an object is a `Primitive` carrying its string form,
  which is what the error message interpolates. It has no `defaultClient`, so it
  never counts as a default.
- Error order is what the source evaluates. First the object check, then the missing
  default, then more than one default, then the entries in list order. Within one
  entry the order is not-an-object, then the name, then `node || nodes`. The errors
  carry the failing entry's position, so "the first failing entry" can be stated.
- Duplicate names are not rejected: the later client overwrites the earlier one.
  So when a later entry reuses the default entry's name, the published default
  handle is not one of the dictionary's values (`Initializer.DefaultShadowed`). The
  default handle lives in the dictionary only when its name is not reused.
- Publication comes after the whole loop, so a failed check publishes nothing.
  Once published, an assignment to either property is refused and the values stay.
  `defineProperties` on sealed properties succeeds only if it gives the same values
  (JavaScript's rule for non-configurable properties) and otherwise throws a
  TypeError, modelled as `CannotRedefine`; either way the values do not change.
  A repeated boot always throws: it builds a fresh dictionary and fresh clients,
  which are never the same objects as the sealed ones.

## Model

| member | source | states |
|---|---|---|
| `Config.Message` | src/app.ts:33-66 | every assertion the hook can fail is thrown with a message carrying the plugin's tag |
| `Config.FindDefault` | src/app.ts:42-45 | `find` returns the first entry whose `defaultClient` is truthy, or nothing when no entry has one |
| `Config.DefaultIndices` | src/app.ts:46-49 | `filter` keeps exactly the default entries, in list order |
| `Config.EntryError` | src/app.ts:63-66 | an entry passes the loop's assertions exactly when it is an object with a non-empty name and a truthy `node` or `nodes`; otherwise it fails the first of not-an-object, missing name, missing node(s) |
| `Config.FirstInvalid` | src/app.ts:62-66 | the loop's assertions fail first at the earliest entry that fails one, and never fail when every entry passes |
| `Config.DefaultIsUnique` | src/app.ts:42-49 | when both default checks pass, the entry `find` returns is the only default entry |
| `Config.FindIsFirstOfFilter` | src/app.ts:42-49 | `find` fails exactly when `filter` keeps nothing, and otherwise returns the first entry `filter` keeps |
| `Config.TwoDefaults` | src/app.ts:46-49 | `filter` keeps two or more entries exactly when two different entries are defaults |
| `Clients.ClientMapKeys` | src/app.ts:62-75 | the dictionary's keys are exactly the entries' names |
| `Clients.ClientMapLastWins` | src/app.ts:74 | a name maps to the client of the last entry with that name; earlier duplicates are overwritten, not rejected |
| `Clients.ClientMapValues` | src/app.ts:68-74 | every value is the client built from the last entry with its key, tagged with exactly that entry's `elasticsearchName` and `defaultClient` |
| `Clients.ClientMapSize` | src/app.ts:62-75 | with distinct names there is one client per entry |
| `Initializer.BuildRegistry` | src/app.ts:40-75 | the default checks and the loop yield the error or registry of the reference definition: first failing check, else the name-to-client dictionary and the first default client |
| `Initializer.MissingDefaultIff` | src/app.ts:42-45 | the missing-default error is thrown exactly when no entry is a default |
| `Initializer.MoreThanOneDefaultIff` | src/app.ts:42-49 | the more-than-one-default error is thrown exactly when two entries are defaults, whatever the entries are otherwise |
| `Initializer.FirstEntryErrorWins` | src/app.ts:42-66 | with a single default, the error thrown is that of the first entry failing a per-entry check |
| `Initializer.SucceedsIff` | src/app.ts:42-75 | with a single default, the hook succeeds exactly when every entry is an object with a name and a truthy `node` or `nodes` |
| `Initializer.CountOfOnlyDefault` | src/app.ts:42-49 | a single default entry passes both default checks: `find` locates it and `filter` keeps it alone |
| `Initializer.SuccessShape` | src/app.ts:42-66 | on success every entry is well formed and exactly one entry is the default |
| `Initializer.RegistryKeys` | src/app.ts:62-75 | on success the dictionary's keys are exactly the entries' names |
| `Initializer.RegistryLastWins` | src/app.ts:74 | on success a name maps to the client built from the last entry with that name |
| `Initializer.RegistryValues` | src/app.ts:62-75 | on success every client in the dictionary comes from an entry of the list, the last with its key, and carries that entry's name and default flag |
| `Initializer.DefaultHandle` | src/app.ts:41-74 | on success the default handle is the client built from the one default entry, tagged as default, and it is the dictionary's value for its name when no later entry reuses the name |
| `Initializer.DefaultShadowed` | src/app.ts:70-74 | when a later entry reuses the default entry's name, the default handle is not among the dictionary's values |
| `Initializer.OneClientPerEntry` | src/app.ts:62-75 | on success with distinct names the dictionary has one client per entry |
| `Initializer.SingleObject` | src/app.ts:35-38 | a single object is renamed `default` and made the default, overwriting the user's values; it yields a one-client dictionary whose value is the default handle, and fails only without a truthy `node` or `nodes` |
| `Application.App.constructor` | index.d.ts:10-16 | a loaded application starts with both properties undefined and unsealed |
| `Application.App.DefineProperties` | src/app.ts:77-88 | the first definition publishes both values and seals them; a later one changes nothing and succeeds only with the same values |
| `Application.App.AssignElasticsearch` | src/app.ts:77-82 | assigning the default handle after sealing is refused and the published value stays |
| `Application.App.AssignElasticsearchs` | src/app.ts:83-87 | assigning the dictionary after sealing is refused and the published value stays |
| `Application.ElasticsearchBoot.constructor` | src/app.ts:19-21 | the boot object keeps the application it is given |
| `Application.ElasticsearchBoot.ConfigDidLoad` | src/app.ts:29-88 | the configuration is tagged in place when it is a single object; a failed check leaves the properties untouched; success publishes the registry of the reference definition; on an application sealed by an earlier boot it always throws the redefinition TypeError and changes neither property |
| `Application.BootThenReassign` | src/app.ts:77-88 | on a fresh application a failure publishes nothing, and after a success later reassignments are refused and the published values remain |

## Left out

- The `beforeStart` health probe (src/app.ts:90-102) is not modelled. It does asynchronous network I/O (a `ping` per client with a 30-second timeout, stopping at the first rejection) and logs to the console and the core logger. It never affects the published values.
- The client library is not modelled: `new elasticsearch.Client({ ...opt })` (src/app.ts:68) becomes `Clients.Build`, a deterministic handle holding the entry's options and position. Any exception the library's constructor might throw for bad options is not modelled.
- The empty lifecycle hooks (`configWillLoad`, `didLoad`, `willReady`, `didReady`, `serverDidReady`, `beforeClose`) have no logic and are not modelled. The same goes for the commented-out transport subclass and imports.
- The context getters of src/app/extend/context.ts only return `app.elasticsearch` and `app.elasticsearchs`, so they have no model of their own.
- A `null` configuration passes the `typeof` check and then throws a TypeError in `Object.assign` (src/app.ts:36); a `null` or `undefined` list element throws a TypeError while destructuring in the `find` and `filter` callbacks (src/app.ts:43, 47). The model has no such values.
- `elasticsearchName` and `defaultClient` of other JavaScript types (a number as the flag, say) are not modelled: the name is a string and the flag a boolean, as index.d.ts:4-8 declares them.
- `node` in the form of an array or of node options, and `nodes` in other forms, are not modelled: `node` is an optional string and `nodes` an optional list of strings.
- A name such as `__proto__`, which a plain JavaScript object treats specially as a key, is modelled as an ordinary key.
- Sloppy-mode assignment to a read-only property fails silently rather than throwing. The model records only that the assignment is refused.
- Config.Message: the `CannotRedefine` text imitates the V8 engine's TypeError message; the model proves only that the plugin's own messages carry its tag.
