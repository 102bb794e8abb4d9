# batectify translation engine, modelled in Dafny

batectify converts a docker-compose document into a batect configuration. This
project models the translation engine of `src/js/batectify-dc.js` together with the
unsupported-key diagnostic `warnOnUnsupportedKeys` of `src/js/batectify.js`. The
engine works on the document after the YAML loader has parsed it. It has four layers:

- the document mapper `dockerComposeToBatect`;
- the per-service field dispatcher `dcServiceToBatect`, with `mapDcKeyToBatect`;
- the value normalisers for build, command, environment, health check, volume and port;
- the list builders `dcVolumeArrayToBatect` and `dcPortArrayToBatect`.

Parsed values are the datatype `JsValues.Json`. It covers undefined, null, booleans,
integers, NaN, strings, arrays, and objects whose properties keep their insertion
order. The module also defines the runtime operations the engine relies on:

- JavaScript truthiness (`Truthy`; every array and object is truthy, even an empty one);
- `Object.keys` (`JsKeys`), property reads (`Get`) and property assignment (`Set`);
- `Object.assign` (`Assign`).

The engine's only side effect is `displayCard`, which appends a card to the page's
error box. Here that box is a log of `Diagnostics.Card` values. Every method takes the
log and returns it extended.

Each step that fills an object or a list in the source is a `method` with a loop or a
sequence of assignments. Each such method is proved equal to a specification function:

| method | specification function |
|---|---|
| `DockerComposeToBatect` | `TranslateDocument` |
| `ServiceToBatect` | `TranslateService` |
| `EnvironmentToBatect` | `TranslateEnvironment` |
| `HealthcheckToBatect` | `TranslateHealthcheck` |
| `BuildToBatect` | `TranslateBuild` |
| `VolumeArrayToBatect` | `TranslateVolumes` |
| `PortArrayToBatect` | `TranslatePorts` |
| `WarnOnUnsupportedKeys` | `UnsupportedKeyWarnings` |

The lemmas then state what the source promises about those functions. The
straight-line normalisers are functions (`MapKeyToBatect`, `CommandToBatect`,
`VolumeToBatect`, `PortToBatect`).

Modules, one per file: `Wrappers`, `Strings`, `JsValues`, `Diagnostics`,
`Normalisers`, `ListBuilders`, `ServiceMapper`, `DocumentMapper`.

## Model

| member | source | states |
|---|---|---|
| Diagnostics.UnsupportedKeys | src/js/batectify.js:14-16 | a key is unsupported exactly when it is provided and not in the supported list; there are never more of them than provided keys |
| Diagnostics.UnsupportedKeysAppend | src/js/batectify.js:14-16 | the filter keeps the provided order: filtering a concatenation is the concatenation of the filtered parts |
| Diagnostics.UnsupportedKeyCard | src/js/batectify.js:18-20 | the card is a warning headed "Unsupported <parent> key", and its message names both the quoted key and the quoted parent |
| Diagnostics.WarnOnUnsupportedKeys | src/js/batectify.js:13-22 | the only effect is to append one card per unsupported key, in provided order; the earlier log is kept and the key lists are untouched |
| Diagnostics.NoWarningWhenAllSupported | src/js/batectify.js:13-22 | no key is unsupported and no card is appended when every provided key is supported |
| Normalisers.MapKeyToBatect | src/js/batectify-dc.js:76-81 | the result is an object with the single key mapping[key], holding dcs[key] unchanged |
| Normalisers.CommandWordsRoundTrip | src/js/batectify-dc.js:120-126 | a non-empty array command becomes one string which, split at spaces, gives back the words, when no word contains a space (the pass-through of a non-array command is the second `ensures` of `CommandToBatect`) |
| Normalisers.EnvironmentEntryImplicit | src/js/batectify-dc.js:132-136 | an entry without '=' maps KEY to the literal "$KEY" |
| Normalisers.EnvironmentEntryExplicit | src/js/batectify-dc.js:132-140 | "KEY=VALUE..." maps KEY to the text between the first and the second '='; whatever follows a second '=' is lost |
| Normalisers.EnvironmentKeys | src/js/batectify-dc.js:130-141 | the built object's variables are exactly the variables the entries name, each named once |
| Normalisers.EnvironmentLastWins | src/js/batectify-dc.js:131-141 | a variable takes the value of the last entry that names it; later duplicates overwrite earlier ones |
| Normalisers.EnvironmentToBatect | src/js/batectify-dc.js:128-146 | the loop builds `TranslateEnvironment`; a value that is not an array is returned unchanged, and an array gives an object without repeated keys |
| Normalisers.TranslateHealthcheck | src/js/batectify-dc.js:150-152 | the result is an object; the cards are exactly the unsupported-key warnings scoped "service <name> healthcheck", each a service warning |
| Normalisers.HealthcheckKeys | src/js/batectify-dc.js:153-161 | the copied keys are the truthy ones among interval, retries and start_period, in that order |
| Normalisers.HealthcheckFields | src/js/batectify-dc.js:148-163 | a key is in the health check exactly when it is interval, retries or start_period and truthy (so `retries: 0` is dropped); each is copied verbatim and appears once; test and all other keys are left out |
| Normalisers.HealthcheckToBatect | src/js/batectify-dc.js:148-163 | the step-by-step copies build `TranslateHealthcheck`, and the log gains its cards |
| Normalisers.TranslateBuild | src/js/batectify-dc.js:101-118 | a string logs nothing; an object logs exactly the unsupported-key warnings scoped "service <name> build" |
| Normalisers.BuildFields | src/js/batectify-dc.js:101-118 | a string gives exactly {build_directory: string}; an object gives build_directory from context, then dockerfile and build_args (from args) only when truthy; no other key (cache_from included) is emitted |
| Normalisers.BuildToBatect | src/js/batectify-dc.js:101-118 | the conditional assignments build `TranslateBuild`, and the log gains its cards |
| Normalisers.VolumeToBatect | src/js/batectify-dc.js:83-99 | every card logged is a warning about service `serviceName` other than the build/image conflict (`NormaliserWarning`); the exact cards are stated by `VolumeShape` |
| Normalisers.VolumeShape | src/js/batectify-dc.js:83-99 | a string is kept unchanged with no card. An object is kept exactly when its type is absent or "volume"; it then becomes {local: source, container: target} and read_only is dropped. Any other type, "bind" included, gives nothing and exactly one volume-type card after the unsupported-key warnings |
| Normalisers.PortToBatect | src/js/batectify-dc.js:176-200 | every card logged is a warning about service `serviceName` other than the build/image conflict (`NormaliserWarning`); the exact cards are stated by `PortShape` |
| Normalisers.PortShape | src/js/batectify-dc.js:176-200 | a string is dropped with exactly one UDP card when it contains "/udp", and is kept unchanged otherwise (a bare "4000" included). An object with a truthy protocol other than "tcp" is dropped with one protocol card after the unsupported-key warnings. Otherwise it becomes {local: published, container: target}, each present only when truthy |
| ListBuilders.Collect | src/js/batectify-dc.js:167-172 | pushing the truthy normalised entries never yields more values than entries |
| ListBuilders.CollectAppend | src/js/batectify-dc.js:167-172 | collecting two runs of entries is collecting each run in turn, values and cards alike |
| ListBuilders.CollectKeepsAll | src/js/batectify-dc.js:167-172 | entries that each normalise to a truthy value with no card collect to exactly those values |
| ListBuilders.PushNormalised | src/js/batectify-dc.js:205-210 | the forEach/push loop appends exactly the collected values and cards to the list and the log |
| ListBuilders.TranslateVolumes | src/js/batectify-dc.js:165-174 | the volume list is never longer than the input |
| ListBuilders.TranslateVolumesAppend | src/js/batectify-dc.js:165-174 | input order is kept: the volumes of a concatenation are the volumes of each part, one after the other |
| ListBuilders.VolumeStringsPassThrough | src/js/batectify-dc.js:165-174 | a list of non-empty volume strings is returned unchanged, with no card |
| ListBuilders.TranslateVolumesWarnings | src/js/batectify-dc.js:165-174 | every card of a volume list is a warning about service `serviceName` (as for `VolumeToBatect`), and none is the build/image conflict |
| ListBuilders.VolumeArrayToBatect | src/js/batectify-dc.js:165-174 | the loop builds the array `TranslateVolumes`, and the log gains its cards |
| ListBuilders.TranslatePortList | src/js/batectify-dc.js:205-210 | the port list of one field is never longer than its entries |
| ListBuilders.TranslatePortListAppend | src/js/batectify-dc.js:205-218 | input order is kept: the ports of a concatenation are the ports of each part, one after the other |
| ListBuilders.PortStringsPassThrough | src/js/batectify-dc.js:205-218 | a list of non-empty port strings without "/udp" is returned unchanged, with no card |
| ListBuilders.TranslatePortsOf | src/js/batectify-dc.js:204-211 | a falsy field contributes no port and no card; a truthy one no more ports than entries |
| ListBuilders.TranslatePortsWarnings | src/js/batectify-dc.js:202-221 | every card of the merged port list is a warning about service `serviceName` (as for `PortToBatect`), and none is the build/image conflict |
| ListBuilders.PortsMerged | src/js/batectify-dc.js:202-221 | when both fields are arrays, the merged list is the normalised expose entries followed by the normalised ports entries |
| ListBuilders.PortArrayToBatect | src/js/batectify-dc.js:202-221 | the two loops build the array `TranslatePorts`, and the log gains its cards |
| ServiceMapper.MapSupportedKey | src/js/batectify-dc.js:34-71 | one callback step merges exactly that key's writes into the container (nothing for a falsy value), and logs exactly its cards |
| ServiceMapper.MapNormalisedKey | src/js/batectify-dc.js:52-70 | the command, environment, health-check, volume and port branches, and the default branch, merge and log exactly that key's writes and cards |
| ServiceMapper.ServiceToBatect | src/js/batectify-dc.js:18-74 | the unknown-key warnings and then the loop over the supported keys build `TranslateService`, and the log gains its cards |
| ServiceMapper.ImageOutput | src/js/batectify-dc.js:45-51 | `image` is in the container exactly when it is truthy and `build` is not; it is then copied verbatim |
| ServiceMapper.RenamedOutput | src/js/batectify-dc.js:38-39 | each renamed key (cap_add, cap_drop, depends_on, privileged, init, working_dir) is present under its new name exactly when truthy, with its value unchanged |
| ServiceMapper.CommandOutput | src/js/batectify-dc.js:52-54 | `command` is present exactly when truthy, holding the normalised command |
| ServiceMapper.EnvironmentOutput | src/js/batectify-dc.js:55-57 | `environment` is present exactly when truthy, holding the normalised environment |
| ServiceMapper.HealthcheckOutput | src/js/batectify-dc.js:58-60 | `health_check` is present exactly when `healthcheck` is truthy, holding the normalised health check |
| ServiceMapper.VolumesOutput | src/js/batectify-dc.js:61-63 | `volumes` is present exactly when truthy (an empty array included), holding the normalised volume list |
| ServiceMapper.PortsOutput | src/js/batectify-dc.js:64-67 | `ports` is present exactly when `expose` or `ports` is truthy, holding the merged list of both fields |
| ServiceMapper.BuildOutput | src/js/batectify-dc.js:42-44 | build_directory, dockerfile and build_args are in the container exactly when `build` is truthy and its translation has them, with the same values |
| ServiceMapper.ServiceKeys | src/js/batectify-dc.js:31-73 | the container holds only properties a supported key writes (build_directory, dockerfile, build_args, the six renamed keys, image, command, environment, health_check, volumes, ports), each once; `networks` and every other unsupported key never reach it |
| ServiceMapper.KeyCards | src/js/batectify-dc.js:34-72 | every card one key logs is a warning about service `name` (its heading or, for a volume type, its message names the service, or it is the conflict heading of `name`); the conflict card is logged exactly for a truthy `image` with a truthy `build` |
| ServiceMapper.ServiceWarnings | src/js/batectify-dc.js:18-74 | every card is a warning (`ServiceCard` includes the level) about service `name`, named in its heading or, for a volume type, its message; so the "no mapping logic" error is never logged; the conflict card is logged exactly once when `build` and `image` are both truthy, and never otherwise |
| ServiceMapper.PortWarningsTwice | src/js/batectify-dc.js:64-67 | with both `expose` and `ports` truthy, the port merge runs twice, so each of its warnings is logged at least twice |
| DocumentMapper.ConvertService | src/js/batectify-dc.js:10-13 | one forEach step sets containers[name] to the translated service, leaves `tasks` alone, and logs the service's cards |
| DocumentMapper.DockerComposeToBatect | src/js/batectify-dc.js:1-16 | the root-key warnings and the loop over the services build `TranslateDocument`, and the log gains its cards |
| DocumentMapper.DocumentShape | src/js/batectify-dc.js:5-8 | the result has exactly the keys containers and tasks, in that order, and tasks is the empty object |
| DocumentMapper.ContainersKeySet | src/js/batectify-dc.js:9-14 | the container names are exactly the service names, each once |
| DocumentMapper.ContainersOrder | src/js/batectify-dc.js:9-14 | with distinct service names, the containers appear in service order |
| DocumentMapper.ContainersLookup | src/js/batectify-dc.js:9-14 | the container of each service is that service's translation |
| DocumentMapper.DocumentContainers | src/js/batectify-dc.js:9-14 | a name is a container exactly when it is a service; its container is the translated service; with distinct names the container keys equal the service keys in order |
| DocumentMapper.RootWarnings | src/js/batectify-dc.js:2-4 | exactly one "Unsupported root key" card per root key other than version and services, and none when there is no such key |

## Left out

- The page around the engine is not part of this model. That covers `convert`, the DOM
  construction in `displayCard`, and the element lookups and event listeners of
  `src/js/batectify.js`. The cards are appended to a log instead.
- YAML loading and dumping belong to a foreign library (js-yaml). The model starts from
  the parsed value and returns the configuration value.
- Validation of the output against the batect schema runs in an external validator
  (Ajv). No claim is made that the output satisfies the schema. A bare port "4000"
  passes through the converter unchanged, for instance.
- `Object.keys` lists integer-like keys first, in numeric order. The model keeps every
  object's properties in insertion order.
- Strings are sequences of Unicode characters, while JavaScript strings are UTF-16 code
  units, and `Object.keys` of a string counts code units. `services`, a service or a
  `healthcheck` may be a string holding a character above U+FFFF. Such a string gets
  fewer index keys, and so fewer "Unsupported ... key" cards, in the model than in the
  source. These are the only places where the engine calls `Object.keys` on a value
  that may be a string.
- Numbers are integers or NaN. Fractions, infinities and the exact text JavaScript
  writes for large numbers are not modelled.
- Inherited members are not modelled. That covers prototype methods read through
  `dcs[key]` and the special `__proto__` key. The engine never asks for one with a
  supported key.
- Inputs on which the source throws a TypeError are excluded by preconditions
  (`DocumentInDomain`, `ServiceInDomain`, `PortInDomain` and the list predicates)
  instead of being modelled as an error path. Examples: a missing `services`, a
  `command` object without `join`, or a non-string environment entry.
- The source has no Error result, so none is modelled.
- Some features of docker-compose to batect conversion are not in this code, so they
  are not modelled:
  - short-syntax volume splitting;
  - generated cache-volume names;
  - `read_only` becoming "ro";
  - bind mounts;
  - rejection of bare container ports;
  - a separate policy for `expose`;
  - a parse error for malformed volume strings.
- DocumentMapper.DocumentContainers: container order equals service order only for
  distinct service names. A parsed YAML mapping always has distinct names, but the
  `Json` datatype can express duplicates.
