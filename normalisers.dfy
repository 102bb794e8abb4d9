/**
 * The value normalisers of batectify-dc.js: each turns the value of one
 * docker-compose service field into its batect form, appending warnings for
 * what it cannot carry over.
 */
module Normalisers {
  import opened Wrappers
  import opened Strings
  import opened JsValues
  import opened Diagnostics

  // ---------------------------------------------------------------- renames

  /** The fields copied verbatim under a new name. */
  const SimpleKeyMapping: map<string, string> := map[
    "cap_add" := "capabilities_to_add",
    "cap_drop" := "capabilities_to_drop",
    "depends_on" := "dependencies",
    "privileged" := "privileged",
    "init" := "enable_init_process",
    "working_dir" := "working_directory"
  ]

  /** `mapDcKeyToBatect`: a one-property object, renamed, with the value unchanged. */
  function MapKeyToBatect(mapping: map<string, string>, key: string, dcs: Json): (r: Json)
    requires key in mapping && Defined(dcs)
    ensures r.Obj? && KeysOf(r.fields) == [mapping[key]]
    ensures Get(r, mapping[key]) == Get(dcs, key)
  {
    Obj([Field(mapping[key], Get(dcs, key))])
  }

  // ---------------------------------------------------------------- command

  /** `dcCommandToBatect`: an array is joined with single spaces, anything else is kept. */
  function CommandToBatect(command: Json): (r: Json)
    requires !command.Obj? && !command.Null?
    ensures command.Arr? ==> r == Str(ArrayJoin(command.items, " "))
    ensures !command.Arr? ==> r == command
  {
    if command.Arr? then Str(ArrayJoin(command.items, " ")) else command
  }

  /**
   * The joined command keeps the argument boundaries exactly when no argument
   * contains a space: splitting it on spaces gives the arguments back.
   */
  lemma CommandWordsRoundTrip(words: seq<string>)
    requires |words| >= 1
    requires forall i :: 0 <= i < |words| ==> ' ' !in words[i]
    ensures CommandToBatect(Arr(seq(|words|, i requires 0 <= i < |words| => Str(words[i])))).Str?
    ensures Split(CommandToBatect(Arr(seq(|words|, i requires 0 <= i < |words| => Str(words[i])))).s, ' ') == words
  {
    var items := seq(|words|, i requires 0 <= i < |words| => Str(words[i]));
    var strs := seq(|items|, i requires 0 <= i < |items| =>
                  if items[i].Undefined? || items[i].Null? then "" else ToJsString(items[i]));
    assert strs == words;
    SplitJoin(words, ' ');
  }

  // ------------------------------------------------------------ environment

  /** The variable and value one entry defines: "KEY" stands for "$KEY", "KEY=VALUE" for VALUE. */
  function EnvironmentEntry(entry: string): (string, string) {
    var parts := Split(entry, '=');
    if |parts| == 1 then (parts[0], "$" + parts[0]) else (parts[0], parts[1])
  }

  /** An entry without '=' passes the host variable through as "$KEY". */
  lemma EnvironmentEntryImplicit(name: string)
    requires '=' !in name
    ensures EnvironmentEntry(name) == (name, "$" + name)
  {
    SplitWithoutSeparator(name, '=');
  }

  /** The value is the text between the first and second '='; anything after a second '=' is lost. */
  lemma EnvironmentEntryExplicit(name: string, value: string, rest: string)
    requires '=' !in name && '=' !in value
    requires rest == "" || rest[0] == '='
    ensures EnvironmentEntry(name + "=" + value + rest) == (name, value)
  {
    assert name + "=" + value + rest == name + ['='] + (value + rest);
    SplitAtFirst(name, '=', value + rest);
    if rest == "" {
      assert value + rest == value;
      SplitWithoutSeparator(value, '=');
    } else {
      assert value + rest == value + ['='] + rest[1..];
      SplitAtFirst(value, '=', rest[1..]);
    }
  }

  predicate EnvironmentInDomain(env: Json) {
    env.Arr? ==> forall e :: e in env.items ==> e.Str?
  }

  function EntryKey(e: Json): string
    requires e.Str?
  {
    EnvironmentEntry(e.s).0
  }

  /** The object built from the entries, assigned one after the other. */
  function EnvironmentFields(entries: seq<Json>): (fields: seq<Field>)
    requires forall e :: e in entries ==> e.Str?
  {
    if |entries| == 0 then []
    else
      var entry := EnvironmentEntry(entries[|entries| - 1].s);
      SetField(EnvironmentFields(entries[..|entries| - 1]), entry.0, Str(entry.1))
  }

  /** The specification of `dcEnvironmentToBatect`. */
  function TranslateEnvironment(env: Json): Json
    requires EnvironmentInDomain(env)
  {
    if env.Arr? then Obj(EnvironmentFields(env.items)) else env
  }

  /** No variable is named twice in the built object. */
  lemma {:induction false} EnvironmentKeysNoDup(entries: seq<Json>)
    requires forall e :: e in entries ==> e.Str?
    ensures NoDup(KeysOf(EnvironmentFields(entries)))
    decreases |entries|
  {
    if |entries| > 0 {
      var n := |entries| - 1;
      assert forall e :: e in entries[..n] ==> e in entries;
      EnvironmentKeysNoDup(entries[..n]);
      var entry := EnvironmentEntry(entries[n].s);
      SetFieldNoDup(EnvironmentFields(entries[..n]), entry.0, Str(entry.1));
    }
  }

  /** A variable of the built object is named by some entry. */
  lemma {:induction false} EnvironmentKeyNamed(entries: seq<Json>, k: string) returns (i: nat)
    requires forall e :: e in entries ==> e.Str?
    requires k in KeysOf(EnvironmentFields(entries))
    ensures i < |entries| && EntryKey(entries[i]) == k
    decreases |entries|
  {
    var n := |entries| - 1;
    var prefix := entries[..n];
    assert forall e :: e in prefix ==> e in entries;
    var entry := EnvironmentEntry(entries[n].s);
    SetFieldKeys(EnvironmentFields(prefix), entry.0, Str(entry.1));
    if k == entry.0 {
      i := n;
    } else {
      i := EnvironmentKeyNamed(prefix, k);
      assert prefix[i] == entries[i];
    }
  }

  /** Every entry's variable is a key of the built object. */
  lemma {:induction false} EnvironmentEntryKept(entries: seq<Json>, i: nat)
    requires forall e :: e in entries ==> e.Str?
    requires i < |entries|
    ensures EntryKey(entries[i]) in KeysOf(EnvironmentFields(entries))
    decreases |entries|
  {
    var n := |entries| - 1;
    var prefix := entries[..n];
    assert forall e :: e in prefix ==> e in entries;
    var entry := EnvironmentEntry(entries[n].s);
    SetFieldKeys(EnvironmentFields(prefix), entry.0, Str(entry.1));
    if i < n {
      assert prefix[i] == entries[i];
      EnvironmentEntryKept(prefix, i);
    }
  }

  /** The keys of the built object are exactly the entries' variables, each named once. */
  lemma EnvironmentKeys(entries: seq<Json>)
    requires forall e :: e in entries ==> e.Str?
    ensures NoDup(KeysOf(EnvironmentFields(entries)))
    ensures forall k :: k in KeysOf(EnvironmentFields(entries)) <==>
              exists i :: 0 <= i < |entries| && EntryKey(entries[i]) == k
  {
    EnvironmentKeysNoDup(entries);
    forall k
      ensures k in KeysOf(EnvironmentFields(entries)) <==> exists i :: 0 <= i < |entries| && EntryKey(entries[i]) == k
    {
      if k in KeysOf(EnvironmentFields(entries)) {
        var i := EnvironmentKeyNamed(entries, k);
      }
      if exists i :: 0 <= i < |entries| && EntryKey(entries[i]) == k {
        var i :| 0 <= i < |entries| && EntryKey(entries[i]) == k;
        EnvironmentEntryKept(entries, i);
      }
    }
  }

  /** A variable takes the value of the last entry that names it: later duplicates overwrite earlier ones. */
  lemma {:induction false} EnvironmentLastWins(entries: seq<Json>, i: nat)
    requires forall e :: e in entries ==> e.Str?
    requires i < |entries|
    requires forall j :: i < j < |entries| ==> EntryKey(entries[j]) != EntryKey(entries[i])
    ensures Lookup(EnvironmentFields(entries), EntryKey(entries[i])) == Some(Str(EnvironmentEntry(entries[i].s).1))
    decreases |entries|
  {
    var n := |entries| - 1;
    var prefix := entries[..n];
    var entry := EnvironmentEntry(entries[n].s);
    assert forall e :: e in prefix ==> e in entries;
    SetFieldLookup(EnvironmentFields(prefix), entry.0, Str(entry.1), EntryKey(entries[i]));
    if i < n {
      assert prefix[i] == entries[i];
      assert forall j :: i < j < |prefix| ==> prefix[j] == entries[j];
      EnvironmentLastWins(prefix, i);
    }
  }

  /** `dcEnvironmentToBatect`: an array of entries becomes an object, anything else is kept. */
  method EnvironmentToBatect(env: Json) returns (environment: Json)
    requires EnvironmentInDomain(env)
    ensures environment == TranslateEnvironment(env)
    ensures !env.Arr? ==> environment == env
    ensures env.Arr? ==> environment.Obj? && NoDup(KeysOf(environment.fields))
  {
    if env.Arr? {
      environment := Obj([]);
      var i := 0;
      while i < |env.items|
        invariant 0 <= i <= |env.items|
        invariant environment == Obj(EnvironmentFields(env.items[..i]))
      {
        assert env.items[..i + 1][..i] == env.items[..i];
        var parts := Split(env.items[i].s, '=');
        var envKey := parts[0];
        if |parts| == 1 {
          environment := Set(environment, envKey, Str("$" + envKey));
        } else {
          var envValue := parts[1];
          environment := Set(environment, envKey, Str(envValue));
        }
        i := i + 1;
      }
      assert env.items[..|env.items|] == env.items;
      EnvironmentKeysNoDup(env.items);
    } else {
      environment := env;
    }
  }

  // ------------------------------------------------------------ healthcheck

  const HealthcheckSupportedKeys: seq<string> := ["interval", "retries", "start_period"]

  /** `if (source[sourceKey]) target[targetKey] = source[sourceKey]`. */
  function CopyIfTruthy(target: Json, targetKey: string, source: Json, sourceKey: string): Json
    requires target.Obj? && Defined(source)
  {
    if Truthy(Get(source, sourceKey)) then Set(target, targetKey, Get(source, sourceKey)) else target
  }

  lemma CopyIfTruthyFacts(target: Json, targetKey: string, source: Json, sourceKey: string, k: string)
    requires target.Obj? && Defined(source) && targetKey !in KeysOf(target.fields)
    ensures CopyIfTruthy(target, targetKey, source, sourceKey).Obj?
    ensures KeysOf(CopyIfTruthy(target, targetKey, source, sourceKey).fields) ==
              KeysOf(target.fields) + (if Truthy(Get(source, sourceKey)) then [targetKey] else [])
    ensures Get(CopyIfTruthy(target, targetKey, source, sourceKey), k) ==
              if k == targetKey && Truthy(Get(source, sourceKey)) then Get(source, sourceKey) else Get(target, k)
  {
    SetFieldKeys(target.fields, targetKey, Get(source, sourceKey));
    GetSet(target, targetKey, Get(source, sourceKey), k);
  }

  /** The specification of `dcHealthcheckToBatect`. */
  function TranslateHealthcheck(healthcheck: Json, serviceName: string): (r: Logged<Json>)
    requires Defined(healthcheck)
    ensures r.value.Obj?
    ensures r.cards == UnsupportedKeyWarnings("service " + serviceName + " healthcheck", HealthcheckSupportedKeys, JsKeys(healthcheck))
    ensures forall c :: c in r.cards ==> NormaliserWarning(c, serviceName)
  {
    ServiceScopedKeyWarnings(serviceName, " healthcheck", HealthcheckSupportedKeys, JsKeys(healthcheck));
    Logged(CopiedHealthcheck(healthcheck),
           UnsupportedKeyWarnings("service " + serviceName + " healthcheck", HealthcheckSupportedKeys, JsKeys(healthcheck)))
  }

  /** The three copies `dcHealthcheckToBatect` makes, in order. */
  function CopiedHealthcheck(healthcheck: Json): Json
    requires Defined(healthcheck)
  {
    var h1 := CopyIfTruthy(Obj([]), "interval", healthcheck, "interval");
    var h2 := CopyIfTruthy(h1, "retries", healthcheck, "retries");
    CopyIfTruthy(h2, "start_period", healthcheck, "start_period")
  }

  /** The keys of `keys` whose values in `source` are truthy, in order. */
  function TruthyKeys(source: Json, keys: seq<string>): seq<string>
    requires Defined(source)
  {
    if |keys| == 0 then []
    else if Truthy(Get(source, keys[0])) then [keys[0]] + TruthyKeys(source, keys[1..])
    else TruthyKeys(source, keys[1..])
  }

  /** `TruthyKeys` keeps exactly the truthy keys, and distinct keys stay distinct. */
  lemma {:induction false} TruthyKeysMembers(source: Json, keys: seq<string>)
    requires Defined(source)
    ensures forall k :: k in TruthyKeys(source, keys) <==> k in keys && Truthy(Get(source, k))
    ensures NoDup(keys) ==> NoDup(TruthyKeys(source, keys))
    decreases |keys|
  {
    if |keys| > 0 {
      TruthyKeysMembers(source, keys[1..]);
      assert keys == [keys[0]] + keys[1..];
      if NoDup(keys) {
        assert NoDup(keys[1..]) by {
          forall i, j | 0 <= i < j < |keys[1..]| ensures keys[1..][i] != keys[1..][j] {
            assert keys[1..][i] == keys[i + 1] && keys[1..][j] == keys[j + 1];
          }
        }
        assert keys[0] !in keys[1..] by {
          forall i | 0 <= i < |keys[1..]| ensures keys[1..][i] != keys[0] {
            assert keys[1..][i] == keys[i + 1];
          }
        }
      }
    }
  }

  lemma {:induction false} TruthyKeysAppend(source: Json, a: seq<string>, b: seq<string>)
    requires Defined(source)
    ensures TruthyKeys(source, a + b) == TruthyKeys(source, a) + TruthyKeys(source, b)
    decreases |a|
  {
    if |a| > 0 {
      assert (a + b)[1..] == a[1..] + b;
      TruthyKeysAppend(source, a[1..], b);
    } else {
      assert a + b == b;
    }
  }

  /** Copying one key when truthy adds that key, last, exactly when it is truthy. */
  lemma CopyIfTruthyKeys(target: Json, key: string, source: Json)
    requires target.Obj? && Defined(source) && key !in KeysOf(target.fields)
    ensures CopyIfTruthy(target, key, source, key).Obj?
    ensures KeysOf(CopyIfTruthy(target, key, source, key).fields) == KeysOf(target.fields) + TruthyKeys(source, [key])
  {
    CopyIfTruthyFacts(target, key, source, key, key);
    assert [key][1..] == [];
  }

  /** The health check's keys are the truthy supported keys, in the order the converter copies them. */
  lemma HealthcheckKeys(healthcheck: Json)
    requires Defined(healthcheck)
    ensures CopiedHealthcheck(healthcheck).Obj?
    ensures KeysOf(CopiedHealthcheck(healthcheck).fields) == TruthyKeys(healthcheck, HealthcheckSupportedKeys)
  {
    var h1 := CopyIfTruthy(Obj([]), "interval", healthcheck, "interval");
    var h2 := CopyIfTruthy(h1, "retries", healthcheck, "retries");
    CopyIfTruthyKeys(Obj([]), "interval", healthcheck);
    CopyIfTruthyKeys(h1, "retries", healthcheck);
    CopyIfTruthyKeys(h2, "start_period", healthcheck);
    assert HealthcheckSupportedKeys == ["interval"] + ["retries"] + ["start_period"];
    TruthyKeysAppend(healthcheck, ["interval"], ["retries"]);
    TruthyKeysAppend(healthcheck, ["interval"] + ["retries"], ["start_period"]);
  }

  /**
   * The health check keeps exactly the supported keys whose values are truthy
   * (so `retries: 0` is dropped), each with its value unchanged; `test` and
   * every other key are left out.
   */
  lemma HealthcheckFields(healthcheck: Json, serviceName: string)
    requires Defined(healthcheck)
    ensures NoDup(KeysOf(TranslateHealthcheck(healthcheck, serviceName).value.fields))
    ensures forall k :: k in KeysOf(TranslateHealthcheck(healthcheck, serviceName).value.fields) <==>
              k in HealthcheckSupportedKeys && Truthy(Get(healthcheck, k))
    ensures forall k :: k in KeysOf(TranslateHealthcheck(healthcheck, serviceName).value.fields) ==>
              Get(TranslateHealthcheck(healthcheck, serviceName).value, k) == Get(healthcheck, k)
  {
    var h1 := CopyIfTruthy(Obj([]), "interval", healthcheck, "interval");
    var h2 := CopyIfTruthy(h1, "retries", healthcheck, "retries");
    var h3 := CopyIfTruthy(h2, "start_period", healthcheck, "start_period");
    HealthcheckKeys(healthcheck);
    TruthyKeysMembers(healthcheck, HealthcheckSupportedKeys);
    assert TranslateHealthcheck(healthcheck, serviceName).value == h3;
    forall k | k in HealthcheckSupportedKeys && Truthy(Get(healthcheck, k))
      ensures Get(h3, k) == Get(healthcheck, k)
    {
      CopyIfTruthyFacts(Obj([]), "interval", healthcheck, "interval", k);
      CopyIfTruthyFacts(h1, "retries", healthcheck, "retries", k);
      CopyIfTruthyFacts(h2, "start_period", healthcheck, "start_period", k);
    }
  }

  /** `dcHealthcheckToBatect`: keeps interval, retries and start_period when truthy; warns about the rest. */
  method HealthcheckToBatect(log: seq<Card>, healthcheck: Json, serviceName: string) returns (batectHealthcheck: Json, log': seq<Card>)
    requires Defined(healthcheck)
    ensures batectHealthcheck == TranslateHealthcheck(healthcheck, serviceName).value
    ensures log' == log + TranslateHealthcheck(healthcheck, serviceName).cards
  {
    log' := WarnOnUnsupportedKeys(log, "service " + serviceName + " healthcheck", HealthcheckSupportedKeys, JsKeys(healthcheck));
    batectHealthcheck := Obj([]);
    if Truthy(Get(healthcheck, "interval")) {
      batectHealthcheck := Set(batectHealthcheck, "interval", Get(healthcheck, "interval"));
    }
    if Truthy(Get(healthcheck, "retries")) {
      batectHealthcheck := Set(batectHealthcheck, "retries", Get(healthcheck, "retries"));
    }
    if Truthy(Get(healthcheck, "start_period")) {
      batectHealthcheck := Set(batectHealthcheck, "start_period", Get(healthcheck, "start_period"));
    }
  }

  // ------------------------------------------------------------------ build

  const BuildSupportedKeys: seq<string> := ["context", "dockerfile", "args"]

  /** The specification of `dcBuildToBatect`. */
  function TranslateBuild(build: Json, serviceName: string): (r: Logged<Json>)
    requires Defined(build)
    ensures r.value.Obj?
    ensures build.Str? ==> r.cards == []
    ensures !build.Str? ==> r.cards == UnsupportedKeyWarnings("service " + serviceName + " build", BuildSupportedKeys, JsKeys(build))
    ensures forall c :: c in r.cards ==> NormaliserWarning(c, serviceName)
  {
    if build.Str? then
      Logged(Set(Obj([]), "build_directory", build), [])
    else
      ServiceScopedKeyWarnings(serviceName, " build", BuildSupportedKeys, JsKeys(build));
      var b1 := Set(Obj([]), "build_directory", Get(build, "context"));
      var b2 := CopyIfTruthy(b1, "dockerfile", build, "dockerfile");
      var b3 := CopyIfTruthy(b2, "build_args", build, "args");
      Logged(b3, UnsupportedKeyWarnings("service " + serviceName + " build", BuildSupportedKeys, JsKeys(build)))
  }

  /**
   * A string gives exactly {build_directory: string}. An object gives
   * build_directory from context, then dockerfile and build_args (from args)
   * only when truthy; cache_from and any other key is never emitted.
   */
  lemma BuildFields(build: Json, serviceName: string)
    requires Defined(build)
    ensures NoDup(KeysOf(TranslateBuild(build, serviceName).value.fields))
    ensures build.Str? ==> TranslateBuild(build, serviceName).value == Obj([Field("build_directory", build)])
    ensures !build.Str? ==>
              && KeysOf(TranslateBuild(build, serviceName).value.fields) ==
                   ["build_directory"] + (if Truthy(Get(build, "dockerfile")) then ["dockerfile"] else [])
                   + (if Truthy(Get(build, "args")) then ["build_args"] else [])
              && Get(TranslateBuild(build, serviceName).value, "build_directory") == Get(build, "context")
              && Get(TranslateBuild(build, serviceName).value, "dockerfile") == (if Truthy(Get(build, "dockerfile")) then Get(build, "dockerfile") else Undefined)
              && Get(TranslateBuild(build, serviceName).value, "build_args") == (if Truthy(Get(build, "args")) then Get(build, "args") else Undefined)
  {
    if !build.Str? {
      var b1 := Set(Obj([]), "build_directory", Get(build, "context"));
      var b2 := CopyIfTruthy(b1, "dockerfile", build, "dockerfile");
      GetSet(Obj([]), "build_directory", Get(build, "context"), "build_directory");
      GetSet(Obj([]), "build_directory", Get(build, "context"), "dockerfile");
      GetSet(Obj([]), "build_directory", Get(build, "context"), "build_args");
      assert KeysOf(b1.fields) == ["build_directory"];
      CopyIfTruthyFacts(b1, "dockerfile", build, "dockerfile", "build_directory");
      CopyIfTruthyFacts(b1, "dockerfile", build, "dockerfile", "dockerfile");
      CopyIfTruthyFacts(b1, "dockerfile", build, "dockerfile", "build_args");
      CopyIfTruthyFacts(b2, "build_args", build, "args", "build_directory");
      CopyIfTruthyFacts(b2, "build_args", build, "args", "dockerfile");
      CopyIfTruthyFacts(b2, "build_args", build, "args", "build_args");
    }
  }

  /** `dcBuildToBatect`: a path string, or an object whose context, dockerfile and args are carried over. */
  method BuildToBatect(log: seq<Card>, build: Json, serviceName: string) returns (container: Json, log': seq<Card>)
    requires Defined(build)
    ensures container == TranslateBuild(build, serviceName).value
    ensures log' == log + TranslateBuild(build, serviceName).cards
  {
    container := Obj([]);
    log' := log;
    if build.Str? {
      container := Set(container, "build_directory", build);
    } else {
      log' := WarnOnUnsupportedKeys(log, "service " + serviceName + " build", BuildSupportedKeys, JsKeys(build));
      container := Set(container, "build_directory", Get(build, "context"));
      if Truthy(Get(build, "dockerfile")) {
        container := Set(container, "dockerfile", Get(build, "dockerfile"));
      }
      if Truthy(Get(build, "args")) {
        container := Set(container, "build_args", Get(build, "args"));
      }
    }
  }

  // ----------------------------------------------------------------- volume

  const VolumeSupportedKeys: seq<string> := ["type", "source", "target"]

  function VolumeTypeCard(volumeType: Json, serviceName: string): Card {
    Card(Warning, "Unsupported volume type " + ToJsString(volumeType),
         "This volume type specified for service " + serviceName + " is not supported.")
  }

  /** `dcVolumeToBatect`. */
  function VolumeToBatect(vol: Json, serviceName: string): (r: Logged<Option<Json>>)
    requires Defined(vol)
    ensures forall c :: c in r.cards ==> NormaliserWarning(c, serviceName)
  {
    if vol.Str? then Logged(Some(vol), []) else VolumeObjectToBatect(vol, serviceName)
  }

  /** The long-syntax branch of `dcVolumeToBatect`. */
  function VolumeObjectToBatect(vol: Json, serviceName: string): (r: Logged<Option<Json>>)
    requires Defined(vol)
    ensures forall c :: c in r.cards ==> NormaliserWarning(c, serviceName)
  {
    ServiceScopedKeyWarnings(serviceName, " volume", VolumeSupportedKeys, JsKeys(vol));
    var warnings := UnsupportedKeyWarnings("service " + serviceName + " volume", VolumeSupportedKeys, JsKeys(vol));
    var volumeType := Get(vol, "type");
    if Truthy(volumeType) && volumeType != Str("volume") then
      var card := VolumeTypeCard(volumeType, serviceName);
      assert card.heading[..|"Unsupported volume type "|] == "Unsupported volume type ";
      DifferentFirst(card.heading, ConflictHeading(serviceName));
      Logged(None, warnings + [card])
    else
      Logged(Some(Obj([Field("local", Get(vol, "source")), Field("container", Get(vol, "target"))])), warnings)
  }

  /**
   * A string is kept as it is, with no warning. An object of no type or of type
   * "volume" becomes {local: source, container: target} (read_only and any other
   * key are dropped); any other type, "bind" included, gives nothing and exactly
   * one warning beyond the unsupported-key warnings.
   */
  lemma VolumeShape(vol: Json, serviceName: string)
    requires Defined(vol)
    ensures vol.Str? ==> VolumeToBatect(vol, serviceName) == Logged(Some(vol), [])
    ensures !vol.Str? ==>
              (VolumeToBatect(vol, serviceName).value.Some? <==> !Truthy(Get(vol, "type")) || Get(vol, "type") == Str("volume"))
    ensures !vol.Str? && VolumeToBatect(vol, serviceName).value.Some? ==>
              && VolumeToBatect(vol, serviceName).value.value.Obj?
              && KeysOf(VolumeToBatect(vol, serviceName).value.value.fields) == ["local", "container"]
              && Get(VolumeToBatect(vol, serviceName).value.value, "local") == Get(vol, "source")
              && Get(VolumeToBatect(vol, serviceName).value.value, "container") == Get(vol, "target")
              && VolumeToBatect(vol, serviceName).cards ==
                   UnsupportedKeyWarnings("service " + serviceName + " volume", VolumeSupportedKeys, JsKeys(vol))
    ensures !vol.Str? && VolumeToBatect(vol, serviceName).value.None? ==>
              VolumeToBatect(vol, serviceName).cards ==
                UnsupportedKeyWarnings("service " + serviceName + " volume", VolumeSupportedKeys, JsKeys(vol))
                + [VolumeTypeCard(Get(vol, "type"), serviceName)]
  {
    if !vol.Str? {
      GetPair("local", Get(vol, "source"), "container", Get(vol, "target"));
    }
  }

  // ------------------------------------------------------------------- port

  const PortSupportedKeys: seq<string> := ["target", "published", "protocol"]

  /** Shapes `dcPortToBatect` accepts: other values have no `match` method and throw. */
  predicate PortInDomain(port: Json) {
    port.Str? || port.Arr? || port.Obj?
  }

  function ProtocolCard(protocol: Json, serviceName: string): Card {
    Card(Warning, "service " + serviceName + " - " + ToJsString(protocol) + " ports unsupported", "batect only supports TCP ports")
  }

  function UdpCard(serviceName: string): Card {
    Card(Warning, "service " + serviceName + " - UDP ports unsupported", "batect only supports TCP ports")
  }

  /** `dcPortToBatect`. */
  function PortToBatect(port: Json, serviceName: string): (r: Logged<Option<Json>>)
    requires PortInDomain(port)
    ensures forall c :: c in r.cards ==> NormaliserWarning(c, serviceName)
  {
    if port.Str? then PortStringToBatect(port.s, serviceName) else PortObjectToBatect(port, serviceName)
  }

  /** The short-syntax branch of `dcPortToBatect`. */
  function PortStringToBatect(port: string, serviceName: string): (r: Logged<Option<Json>>)
    ensures forall c :: c in r.cards ==> NormaliserWarning(c, serviceName)
  {
    if Contains(port, "/udp") then
      var card := UdpCard(serviceName);
      var prefix := "service " + serviceName + " - ";
      assert card.heading == prefix + "UDP ports unsupported";
      assert card.heading[..|prefix|] == prefix;
      DifferentFirst(card.heading, ConflictHeading(serviceName));
      Logged(None, [card])
    else
      Logged(Some(Str(port)), [])
  }

  /** The long-syntax branch of `dcPortToBatect`. */
  function PortObjectToBatect(port: Json, serviceName: string): (r: Logged<Option<Json>>)
    requires Defined(port)
    ensures forall c :: c in r.cards ==> NormaliserWarning(c, serviceName)
  {
    ServiceScopedKeyWarnings(serviceName, "", PortSupportedKeys, JsKeys(port));
    assert "service " + serviceName + "" == "service " + serviceName;
    var warnings := UnsupportedKeyWarnings("service " + serviceName, PortSupportedKeys, JsKeys(port));
    var protocol := Get(port, "protocol");
    if Truthy(protocol) && protocol != Str("tcp") then
      var card := ProtocolCard(protocol, serviceName);
      var prefix := "service " + serviceName + " - ";
      assert card.heading == prefix + (ToJsString(protocol) + " ports unsupported");
      assert card.heading[..|prefix|] == prefix;
      DifferentFirst(card.heading, ConflictHeading(serviceName));
      Logged(None, warnings + [card])
    else
      var p1 := CopyIfTruthy(Obj([]), "local", port, "published");
      Logged(Some(CopyIfTruthy(p1, "container", port, "target")), warnings)
  }

  /**
   * A string is dropped with one warning exactly when it contains "/udp", and is
   * kept unchanged otherwise (a bare "4000" included). An object with a truthy
   * protocol other than "tcp" is dropped with one warning beyond the
   * unsupported-key warnings; otherwise it becomes {local: published,
   * container: target}, each property present only when truthy.
   */
  lemma PortShape(port: Json, serviceName: string)
    requires PortInDomain(port)
    ensures port.Str? ==> (PortToBatect(port, serviceName).value.None? <==> Contains(port.s, "/udp"))
    ensures port.Str? && !Contains(port.s, "/udp") ==> PortToBatect(port, serviceName) == Logged(Some(port), [])
    ensures port.Str? && Contains(port.s, "/udp") ==> PortToBatect(port, serviceName).cards == [UdpCard(serviceName)]
    ensures !port.Str? ==>
              (PortToBatect(port, serviceName).value.None? <==> Truthy(Get(port, "protocol")) && Get(port, "protocol") != Str("tcp"))
    ensures !port.Str? && PortToBatect(port, serviceName).value.Some? ==>
              && PortToBatect(port, serviceName).value.value.Obj?
              && KeysOf(PortToBatect(port, serviceName).value.value.fields) ==
                   (if Truthy(Get(port, "published")) then ["local"] else []) + (if Truthy(Get(port, "target")) then ["container"] else [])
              && Get(PortToBatect(port, serviceName).value.value, "local") == (if Truthy(Get(port, "published")) then Get(port, "published") else Undefined)
              && Get(PortToBatect(port, serviceName).value.value, "container") == (if Truthy(Get(port, "target")) then Get(port, "target") else Undefined)
              && PortToBatect(port, serviceName).cards == UnsupportedKeyWarnings("service " + serviceName, PortSupportedKeys, JsKeys(port))
    ensures !port.Str? && PortToBatect(port, serviceName).value.None? ==>
              PortToBatect(port, serviceName).cards ==
                UnsupportedKeyWarnings("service " + serviceName, PortSupportedKeys, JsKeys(port)) + [ProtocolCard(Get(port, "protocol"), serviceName)]
  {
    if !port.Str? {
      var p1 := CopyIfTruthy(Obj([]), "local", port, "published");
      CopyIfTruthyFacts(Obj([]), "local", port, "published", "local");
      CopyIfTruthyFacts(Obj([]), "local", port, "published", "container");
      CopyIfTruthyFacts(p1, "container", port, "target", "local");
      CopyIfTruthyFacts(p1, "container", port, "target", "container");
    }
  }
}
