/**
 * The per-service field dispatcher of batectify-dc.js: `dcServiceToBatect`
 * warns about unknown service keys, then walks the supported keys in a fixed
 * order and, for each truthy one, merges what its normaliser produces into the
 * container being built.
 */
module ServiceMapper {
  import opened Wrappers
  import opened Strings
  import opened JsValues
  import opened Diagnostics
  import opened Normalisers
  import opened ListBuilders

  /** The service keys the converter understands, in the order it visits them. */
  const SupportedKeys: seq<string> := [
    "build", "cap_add", "cap_drop", "command", "depends_on", "environment",
    "expose", "healthcheck", "image", "ports", "privileged", "init", "volumes", "working_dir"
  ]

  function ConflictCard(name: string): Card {
    Card(Warning, "Conflicting values for service " + name, "Both 'build' and 'image' are specified. 'image' will be dropped.")
  }

  function MissingMappingCard(key: string): Card {
    Card(Error, "Supported key " + key + " has no mapping logic", "This is a bug")
  }

  /**
   * The service values the converter can read without a TypeError: an object
   * (or any non-null value), whose truthy `command` is not a plain object, whose
   * array `environment` holds strings, whose truthy `volumes` is an array of
   * non-null entries, and whose truthy `expose` and `ports` are arrays of
   * strings, arrays or objects.
   */
  predicate ServiceInDomain(dcs: Json) {
    && Defined(dcs)
    && (Truthy(Get(dcs, "command")) ==> !Get(dcs, "command").Obj?)
    && EnvironmentInDomain(Get(dcs, "environment"))
    && (Truthy(Get(dcs, "volumes")) ==> VolumesInDomain(Get(dcs, "volumes")))
    && PortListInDomain(Get(dcs, "expose"))
    && PortListInDomain(Get(dcs, "ports"))
  }

  /**
   * What visiting one key contributes: the properties merged into the container,
   * in assignment order, and the cards logged. A falsy value contributes nothing.
   */
  function KeyWrites(name: string, dcs: Json, key: string): Logged<seq<Field>>
    requires ServiceInDomain(dcs)
  {
    var value := Get(dcs, key);
    if !Truthy(value) then Logged([], [])
    else if key in SimpleKeyMapping then Logged(MapKeyToBatect(SimpleKeyMapping, key, dcs).fields, [])
    else if key == "build" then
      var build := TranslateBuild(value, name);
      Logged(build.value.fields, build.cards)
    else if key == "image" then
      if Truthy(Get(dcs, "build")) then Logged([], [ConflictCard(name)]) else Logged([Field("image", value)], [])
    else if key == "command" then Logged([Field("command", CommandToBatect(value))], [])
    else if key == "environment" then Logged([Field("environment", TranslateEnvironment(value))], [])
    else if key == "healthcheck" then
      var healthcheck := TranslateHealthcheck(value, name);
      Logged([Field("health_check", healthcheck.value)], healthcheck.cards)
    else if key == "volumes" then
      var volumes := TranslateVolumes(value.items, name);
      Logged([Field("volumes", Arr(volumes.value))], volumes.cards)
    else if key == "expose" || key == "ports" then
      var ports := TranslatePorts(dcs, name);
      Logged([Field("ports", Arr(ports.value))], ports.cards)
    else Logged([], [MissingMappingCard(key)])
  }

  /** The contributions of the first `n` supported keys, one after the other. */
  function ServiceSteps(name: string, dcs: Json, n: nat): Logged<seq<Field>>
    requires ServiceInDomain(dcs) && n <= |SupportedKeys|
  {
    if n == 0 then Logged([], [])
    else
      var prev := ServiceSteps(name, dcs, n - 1);
      var step := KeyWrites(name, dcs, SupportedKeys[n - 1]);
      Logged(prev.value + step.value, prev.cards + step.cards)
  }

  /** The specification of `dcServiceToBatect`. */
  function TranslateService(name: string, dcs: Json): Logged<Json>
    requires ServiceInDomain(dcs)
  {
    var steps := ServiceSteps(name, dcs, |SupportedKeys|);
    Logged(Obj(AssignFields([], steps.value)),
           UnsupportedKeyWarnings("service " + name, SupportedKeys, JsKeys(dcs)) + steps.cards)
  }

  /** The body of the `forEach` callback in `dcServiceToBatect`, for one supported key. */
  method MapSupportedKey(container: Json, log: seq<Card>, name: string, dcs: Json, key: string)
    returns (container': Json, log': seq<Card>)
    requires container.Obj? && ServiceInDomain(dcs)
    ensures container' == Assign(container, Obj(KeyWrites(name, dcs, key).value))
    ensures log' == log + KeyWrites(name, dcs, key).cards
  {
    container', log' := container, log;
    if !Truthy(Get(dcs, key)) {
      assert AssignFields(container.fields, []) == container.fields;
      return;
    }
    if key in SimpleKeyMapping {
      container' := Assign(container, MapKeyToBatect(SimpleKeyMapping, key, dcs));
    } else if key == "build" {
      var build;
      build, log' := BuildToBatect(log, Get(dcs, key), name);
      container' := Assign(container, build);
    } else if key == "image" {
      if Truthy(Get(dcs, "build")) {
        log' := log + [ConflictCard(name)];
      } else {
        container' := Set(container, "image", Get(dcs, key));
        AssignOne(container, "image", Get(dcs, key));
      }
    } else {
      container', log' := MapNormalisedKey(container, log, name, dcs, key);
    }
  }

  /** The branches of the callback that assign one normalised property, and its default branch. */
  method MapNormalisedKey(container: Json, log: seq<Card>, name: string, dcs: Json, key: string)
    returns (container': Json, log': seq<Card>)
    requires container.Obj? && ServiceInDomain(dcs) && Truthy(Get(dcs, key))
    requires key !in SimpleKeyMapping && key != "build" && key != "image"
    ensures container' == Assign(container, Obj(KeyWrites(name, dcs, key).value))
    ensures log' == log + KeyWrites(name, dcs, key).cards
  {
    container', log' := container, log;
    if key == "command" {
      container' := Set(container, "command", CommandToBatect(Get(dcs, key)));
      AssignOne(container, "command", CommandToBatect(Get(dcs, key)));
    } else if key == "environment" {
      var environment := EnvironmentToBatect(Get(dcs, key));
      container' := Set(container, "environment", environment);
      AssignOne(container, "environment", environment);
    } else if key == "healthcheck" {
      var healthcheck;
      healthcheck, log' := HealthcheckToBatect(log, Get(dcs, key), name);
      container' := Set(container, "health_check", healthcheck);
      AssignOne(container, "health_check", healthcheck);
    } else if key == "volumes" {
      var volumes;
      volumes, log' := VolumeArrayToBatect(log, Get(dcs, key), name);
      container' := Set(container, "volumes", volumes);
      AssignOne(container, "volumes", volumes);
    } else if key == "expose" || key == "ports" {
      var ports;
      ports, log' := PortArrayToBatect(log, dcs, name);
      container' := Set(container, "ports", ports);
      AssignOne(container, "ports", ports);
    } else {
      log' := log + [MissingMappingCard(key)];
      assert AssignFields(container.fields, []) == container.fields;
    }
  }

  /** `dcServiceToBatect`: warns about unknown keys, then visits every supported key in order. */
  method ServiceToBatect(log: seq<Card>, name: string, dcs: Json) returns (container: Json, log': seq<Card>)
    requires ServiceInDomain(dcs)
    ensures container == TranslateService(name, dcs).value
    ensures log' == log + TranslateService(name, dcs).cards
  {
    log' := WarnOnUnsupportedKeys(log, "service " + name, SupportedKeys, JsKeys(dcs));
    ghost var afterWarnings := log';
    container := Obj([]);
    for i := 0 to |SupportedKeys|
      invariant container == Obj(AssignFields([], ServiceSteps(name, dcs, i).value))
      invariant log' == afterWarnings + ServiceSteps(name, dcs, i).cards
    {
      ghost var prev := ServiceSteps(name, dcs, i);
      ghost var step := KeyWrites(name, dcs, SupportedKeys[i]);
      container, log' := MapSupportedKey(container, log', name, dcs, SupportedKeys[i]);
      AssignFieldsAppend([], prev.value, step.value);
      AppendAssoc(afterWarnings, prev.cards, step.cards);
    }
    AppendAssoc(log, UnsupportedKeyWarnings("service " + name, SupportedKeys, JsKeys(dcs)),
                ServiceSteps(name, dcs, |SupportedKeys|).cards);
  }

  // ------------------------------------------------------------- properties

  /** The container properties each supported key may write. */
  function WrittenKeys(key: string): set<string> {
    if key in SimpleKeyMapping then {SimpleKeyMapping[key]}
    else if key == "build" then {"build_directory", "dockerfile", "build_args"}
    else if key == "image" then {"image"}
    else if key == "command" then {"command"}
    else if key == "environment" then {"environment"}
    else if key == "healthcheck" then {"health_check"}
    else if key == "volumes" then {"volumes"}
    else if key == "expose" || key == "ports" then {"ports"}
    else {}
  }

  /** The supported keys that may write the container property `o`. */
  function WritersOf(o: string): set<string> {
    if o == "capabilities_to_add" then {"cap_add"}
    else if o == "capabilities_to_drop" then {"cap_drop"}
    else if o == "dependencies" then {"depends_on"}
    else if o == "privileged" then {"privileged"}
    else if o == "enable_init_process" then {"init"}
    else if o == "working_directory" then {"working_dir"}
    else if o in {"build_directory", "dockerfile", "build_args"} then {"build"}
    else if o == "image" then {"image"}
    else if o == "command" then {"command"}
    else if o == "environment" then {"environment"}
    else if o == "health_check" then {"healthcheck"}
    else if o == "volumes" then {"volumes"}
    else if o == "ports" then {"expose", "ports"}
    else {}
  }

  /** `WritersOf` inverts `WrittenKeys` over the supported keys. */
  lemma WritersOfInverse(i: nat, o: string)
    requires i < |SupportedKeys| && o in WrittenKeys(SupportedKeys[i])
    ensures SupportedKeys[i] in WritersOf(o)
  {
  }

  /** Each key writes only its own container properties, and none of them twice. */
  lemma KeyWritesKeys(name: string, dcs: Json, key: string)
    requires ServiceInDomain(dcs)
    ensures forall f :: f in KeyWrites(name, dcs, key).value ==> f.key in WrittenKeys(key)
    ensures NoDup(KeysOf(KeyWrites(name, dcs, key).value))
  {
    var fields := KeyWrites(name, dcs, key).value;
    if Truthy(Get(dcs, key)) && key !in SimpleKeyMapping && key == "build" {
      BuildFields(Get(dcs, key), name);
      forall f | f in fields
        ensures f.key in WrittenKeys(key)
      {
        KeyOfMember(fields, f);
      }
    }
  }

  /** A property of the steps comes from one of the keys visited. */
  lemma {:induction false} ServiceStepsOrigin(name: string, dcs: Json, n: nat, f: Field)
    requires ServiceInDomain(dcs) && n <= |SupportedKeys|
    ensures f in ServiceSteps(name, dcs, n).value <==>
              exists i :: 0 <= i < n && f in KeyWrites(name, dcs, SupportedKeys[i]).value
    decreases n
  {
    if n > 0 {
      ServiceStepsOrigin(name, dcs, n - 1, f);
    }
  }

  /** A property of the steps named `o` was written by a key that may write `o`. */
  lemma StepFieldOrigin(name: string, dcs: Json, o: string, f: Field) returns (i: nat)
    requires ServiceInDomain(dcs)
    requires f in ServiceSteps(name, dcs, |SupportedKeys|).value && f.key == o
    ensures i < |SupportedKeys| && o in WrittenKeys(SupportedKeys[i])
    ensures f in KeyWrites(name, dcs, SupportedKeys[i]).value
    ensures o in KeysOf(KeyWrites(name, dcs, SupportedKeys[i]).value)
  {
    ServiceStepsOrigin(name, dcs, |SupportedKeys|, f);
    i :| 0 <= i < |SupportedKeys| && f in KeyWrites(name, dcs, SupportedKeys[i]).value;
    KeyWritesKeys(name, dcs, SupportedKeys[i]);
    KeyOfMember(KeyWrites(name, dcs, SupportedKeys[i]).value, f);
  }

  /** A property some supported key writes is among the steps. */
  lemma WrittenInSteps(name: string, dcs: Json, k: string, o: string)
    requires ServiceInDomain(dcs) && k in SupportedKeys
    requires o in KeysOf(KeyWrites(name, dcs, k).value)
    ensures o in KeysOf(ServiceSteps(name, dcs, |SupportedKeys|).value)
  {
    var f := FieldWithKey(KeyWrites(name, dcs, k).value, o);
    var i :| 0 <= i < |SupportedKeys| && SupportedKeys[i] == k;
    ServiceStepsOrigin(name, dcs, |SupportedKeys|, f);
    KeyOfMember(ServiceSteps(name, dcs, |SupportedKeys|).value, f);
  }

  /** Every property of the steps named `o` carries `v` and was written by `k1` or `k2`. */
  lemma StepsValue(name: string, dcs: Json, o: string, k1: string, k2: string, v: Json)
    requires ServiceInDomain(dcs)
    requires WritersOf(o) <= {k1, k2}
    requires forall f :: f in KeyWrites(name, dcs, k1).value && f.key == o ==> f.value == v
    requires forall f :: f in KeyWrites(name, dcs, k2).value && f.key == o ==> f.value == v
    ensures forall f :: f in ServiceSteps(name, dcs, |SupportedKeys|).value && f.key == o ==>
              f.value == v && (o in KeysOf(KeyWrites(name, dcs, k1).value) || o in KeysOf(KeyWrites(name, dcs, k2).value))
  {
    forall f | f in ServiceSteps(name, dcs, |SupportedKeys|).value && f.key == o
      ensures f.value == v && (o in KeysOf(KeyWrites(name, dcs, k1).value) || o in KeysOf(KeyWrites(name, dcs, k2).value))
    {
      var i := StepFieldOrigin(name, dcs, o, f);
      WritersOfInverse(i, o);
    }
  }

  /** The merged steps hold `o` exactly when `k1` or `k2` wrote it, and then with value `v`. */
  lemma StepsOutput(name: string, dcs: Json, o: string, k1: string, k2: string, v: Json)
    requires ServiceInDomain(dcs) && k1 in SupportedKeys && k2 in SupportedKeys
    requires WritersOf(o) <= {k1, k2}
    requires forall f :: f in KeyWrites(name, dcs, k1).value && f.key == o ==> f.value == v
    requires forall f :: f in KeyWrites(name, dcs, k2).value && f.key == o ==> f.value == v
    ensures o in KeysOf(ServiceSteps(name, dcs, |SupportedKeys|).value) <==>
              o in KeysOf(KeyWrites(name, dcs, k1).value) || o in KeysOf(KeyWrites(name, dcs, k2).value)
    ensures forall f :: f in ServiceSteps(name, dcs, |SupportedKeys|).value && f.key == o ==> f.value == v
  {
    StepsValue(name, dcs, o, k1, k2, v);
    if o in KeysOf(KeyWrites(name, dcs, k1).value) {
      WrittenInSteps(name, dcs, k1, o);
    } else if o in KeysOf(KeyWrites(name, dcs, k2).value) {
      WrittenInSteps(name, dcs, k2, o);
    } else if o in KeysOf(ServiceSteps(name, dcs, |SupportedKeys|).value) {
      var f := FieldWithKey(ServiceSteps(name, dcs, |SupportedKeys|).value, o);
      assert false;
    }
  }

  /**
   * A container property that only the keys `k1` and `k2` write, both with the
   * value `v`, is present exactly when one of them wrote it, and then holds `v`.
   */
  lemma ServiceOutput(name: string, dcs: Json, o: string, k1: string, k2: string, v: Json)
    requires ServiceInDomain(dcs) && k1 in SupportedKeys && k2 in SupportedKeys
    requires WritersOf(o) <= {k1, k2}
    requires forall f :: f in KeyWrites(name, dcs, k1).value && f.key == o ==> f.value == v
    requires forall f :: f in KeyWrites(name, dcs, k2).value && f.key == o ==> f.value == v
    ensures TranslateService(name, dcs).value.Obj?
    ensures o in KeysOf(TranslateService(name, dcs).value.fields) <==>
              o in KeysOf(KeyWrites(name, dcs, k1).value) || o in KeysOf(KeyWrites(name, dcs, k2).value)
    ensures Get(TranslateService(name, dcs).value, o) ==
              if o in KeysOf(KeyWrites(name, dcs, k1).value) || o in KeysOf(KeyWrites(name, dcs, k2).value) then v else Undefined
  {
    var steps := ServiceSteps(name, dcs, |SupportedKeys|).value;
    assert TranslateService(name, dcs).value == Obj(AssignFields([], steps));
    StepsOutput(name, dcs, o, k1, k2, v);
    AssignToEmpty(steps, o, v);
  }

  /** A key that writes at most the one property `o`, with value `v`. */
  lemma SingleWrite(name: string, dcs: Json, key: string, present: bool, o: string, v: Json)
    requires ServiceInDomain(dcs)
    requires KeyWrites(name, dcs, key).value == if present then [Field(o, v)] else []
    ensures o in KeysOf(KeyWrites(name, dcs, key).value) <==> present
    ensures forall f :: f in KeyWrites(name, dcs, key).value && f.key == o ==> f.value == v
  {
    if present {
      assert KeysOf([Field(o, v)]) == [o];
    }
  }

  /** `image` is copied verbatim when it is truthy, unless `build` is truthy too. */
  lemma ImageOutput(name: string, dcs: Json)
    requires ServiceInDomain(dcs)
    ensures TranslateService(name, dcs).value.Obj?
    ensures "image" in KeysOf(TranslateService(name, dcs).value.fields) <==>
              Truthy(Get(dcs, "image")) && !Truthy(Get(dcs, "build"))
    ensures Get(TranslateService(name, dcs).value, "image") ==
              if Truthy(Get(dcs, "image")) && !Truthy(Get(dcs, "build")) then Get(dcs, "image") else Undefined
  {
    var image := Get(dcs, "image");
    SingleWrite(name, dcs, "image", Truthy(image) && !Truthy(Get(dcs, "build")), "image", image);
    ServiceOutput(name, dcs, "image", "image", "image", image);
  }

  /** A renamed key is copied verbatim under its batect name exactly when it is truthy. */
  lemma RenamedOutput(name: string, dcs: Json, key: string)
    requires ServiceInDomain(dcs) && key in SimpleKeyMapping
    ensures TranslateService(name, dcs).value.Obj?
    ensures SimpleKeyMapping[key] in KeysOf(TranslateService(name, dcs).value.fields) <==> Truthy(Get(dcs, key))
    ensures Get(TranslateService(name, dcs).value, SimpleKeyMapping[key]) ==
              if Truthy(Get(dcs, key)) then Get(dcs, key) else Undefined
  {
    SingleWrite(name, dcs, key, Truthy(Get(dcs, key)), SimpleKeyMapping[key], Get(dcs, key));
    ServiceOutput(name, dcs, SimpleKeyMapping[key], key, key, Get(dcs, key));
  }

  /** A truthy `command` becomes the batect `command`, joined into one string when it is an array. */
  lemma CommandOutput(name: string, dcs: Json)
    requires ServiceInDomain(dcs)
    ensures TranslateService(name, dcs).value.Obj?
    ensures "command" in KeysOf(TranslateService(name, dcs).value.fields) <==> Truthy(Get(dcs, "command"))
    ensures Get(TranslateService(name, dcs).value, "command") ==
              if Truthy(Get(dcs, "command")) then CommandToBatect(Get(dcs, "command")) else Undefined
  {
    var command := Get(dcs, "command");
    var v := if Truthy(command) then CommandToBatect(command) else Undefined;
    SingleWrite(name, dcs, "command", Truthy(command), "command", v);
    ServiceOutput(name, dcs, "command", "command", "command", v);
  }

  /** A truthy `environment` becomes the batect `environment` object. */
  lemma EnvironmentOutput(name: string, dcs: Json)
    requires ServiceInDomain(dcs)
    ensures TranslateService(name, dcs).value.Obj?
    ensures "environment" in KeysOf(TranslateService(name, dcs).value.fields) <==> Truthy(Get(dcs, "environment"))
    ensures Get(TranslateService(name, dcs).value, "environment") ==
              if Truthy(Get(dcs, "environment")) then TranslateEnvironment(Get(dcs, "environment")) else Undefined
  {
    var env := Get(dcs, "environment");
    var v := if Truthy(env) then TranslateEnvironment(env) else Undefined;
    SingleWrite(name, dcs, "environment", Truthy(env), "environment", v);
    ServiceOutput(name, dcs, "environment", "environment", "environment", v);
  }

  /** A truthy `healthcheck` becomes the batect `health_check` object. */
  lemma HealthcheckOutput(name: string, dcs: Json)
    requires ServiceInDomain(dcs)
    ensures TranslateService(name, dcs).value.Obj?
    ensures "health_check" in KeysOf(TranslateService(name, dcs).value.fields) <==> Truthy(Get(dcs, "healthcheck"))
    ensures Truthy(Get(dcs, "healthcheck")) ==>
              Get(TranslateService(name, dcs).value, "health_check") == TranslateHealthcheck(Get(dcs, "healthcheck"), name).value
  {
    var hc := Get(dcs, "healthcheck");
    var v := if Truthy(hc) then TranslateHealthcheck(hc, name).value else Undefined;
    SingleWrite(name, dcs, "healthcheck", Truthy(hc), "health_check", v);
    ServiceOutput(name, dcs, "health_check", "healthcheck", "healthcheck", v);
  }

  /** Truthy `volumes` become the batect `volumes` list: the entries that survive normalisation, in order. */
  lemma VolumesOutput(name: string, dcs: Json)
    requires ServiceInDomain(dcs)
    ensures TranslateService(name, dcs).value.Obj?
    ensures "volumes" in KeysOf(TranslateService(name, dcs).value.fields) <==> Truthy(Get(dcs, "volumes"))
    ensures Truthy(Get(dcs, "volumes")) ==>
              Get(TranslateService(name, dcs).value, "volumes") == Arr(TranslateVolumes(Get(dcs, "volumes").items, name).value)
  {
    var vols := Get(dcs, "volumes");
    var v := if Truthy(vols) then Arr(TranslateVolumes(vols.items, name).value) else Undefined;
    SingleWrite(name, dcs, "volumes", Truthy(vols), "volumes", v);
    ServiceOutput(name, dcs, "volumes", "volumes", "volumes", v);
  }

  /** `expose` and `ports` each write the whole merged port list, when truthy. */
  lemma PortKeyWrites(name: string, dcs: Json, key: string)
    requires ServiceInDomain(dcs) && (key == "expose" || key == "ports")
    ensures "ports" in KeysOf(KeyWrites(name, dcs, key).value) <==> Truthy(Get(dcs, key))
    ensures forall f :: f in KeyWrites(name, dcs, key).value && f.key == "ports" ==> f.value == Arr(TranslatePorts(dcs, name).value)
    ensures Truthy(Get(dcs, key)) ==> KeyWrites(name, dcs, key).cards == TranslatePorts(dcs, name).cards
  {
    SingleWrite(name, dcs, key, Truthy(Get(dcs, key)), "ports", Arr(TranslatePorts(dcs, name).value));
  }

  /**
   * `expose` and `ports` both feed the single batect `ports` list: it is present
   * when either is truthy and holds the exposed ports followed by the published ones.
   */
  lemma PortsOutput(name: string, dcs: Json)
    requires ServiceInDomain(dcs)
    ensures TranslateService(name, dcs).value.Obj?
    ensures "ports" in KeysOf(TranslateService(name, dcs).value.fields) <==>
              Truthy(Get(dcs, "expose")) || Truthy(Get(dcs, "ports"))
    ensures Get(TranslateService(name, dcs).value, "ports") ==
              if Truthy(Get(dcs, "expose")) || Truthy(Get(dcs, "ports")) then Arr(TranslatePorts(dcs, name).value) else Undefined
  {
    var v := Arr(TranslatePorts(dcs, name).value);
    PortKeyWrites(name, dcs, "expose");
    PortKeyWrites(name, dcs, "ports");
    ServiceOutput(name, dcs, "ports", "expose", "ports", v);
  }

  /** What the `build` key writes under the property `o`. */
  lemma BuildWrites(name: string, dcs: Json, o: string, v: Json)
    requires ServiceInDomain(dcs)
    requires v == if Truthy(Get(dcs, "build")) then Get(TranslateBuild(Get(dcs, "build"), name).value, o) else Undefined
    ensures o in KeysOf(KeyWrites(name, dcs, "build").value) <==>
              Truthy(Get(dcs, "build")) && o in KeysOf(TranslateBuild(Get(dcs, "build"), name).value.fields)
    ensures forall f :: f in KeyWrites(name, dcs, "build").value && f.key == o ==> f.value == v
  {
    var build := Get(dcs, "build");
    if Truthy(build) {
      var fields := TranslateBuild(build, name).value.fields;
      assert KeyWrites(name, dcs, "build").value == fields;
      BuildFields(build, name);
      forall f | f in fields && f.key == o
        ensures f.value == v
      {
        LookupUnique(fields, f);
      }
    }
  }

  /** A truthy `build` contributes exactly the properties its normaliser produces. */
  lemma BuildOutput(name: string, dcs: Json, o: string)
    requires ServiceInDomain(dcs) && o in {"build_directory", "dockerfile", "build_args"}
    ensures TranslateService(name, dcs).value.Obj?
    ensures o in KeysOf(TranslateService(name, dcs).value.fields) <==>
              Truthy(Get(dcs, "build")) && o in KeysOf(TranslateBuild(Get(dcs, "build"), name).value.fields)
    ensures Get(TranslateService(name, dcs).value, o) ==
              if Truthy(Get(dcs, "build")) then Get(TranslateBuild(Get(dcs, "build"), name).value, o) else Undefined
  {
    var build := Get(dcs, "build");
    var v := if Truthy(build) then Get(TranslateBuild(build, name).value, o) else Undefined;
    BuildWrites(name, dcs, o, v);
    ServiceOutput(name, dcs, o, "build", "build", v);
    if Truthy(build) && o !in KeysOf(TranslateBuild(build, name).value.fields) {
      LookupPresent(TranslateBuild(build, name).value.fields, o);
    }
  }

  // ------------------------------------------------------------------ cards

  /** Every property a container may have; a service key outside the supported list never reaches it. */
  const ContainerKeys: set<string> := {
    "build_directory", "dockerfile", "build_args", "capabilities_to_add", "capabilities_to_drop",
    "dependencies", "privileged", "enable_init_process", "working_directory", "image", "command",
    "environment", "health_check", "volumes", "ports"
  }

  /**
   * The container has only properties written by a supported key, each once:
   * `networks` or any other unsupported key is warned about and dropped.
   */
  lemma ServiceKeys(name: string, dcs: Json)
    requires ServiceInDomain(dcs)
    ensures TranslateService(name, dcs).value.Obj?
    ensures forall o :: o in KeysOf(TranslateService(name, dcs).value.fields) ==> o in ContainerKeys
    ensures NoDup(KeysOf(TranslateService(name, dcs).value.fields))
  {
    var steps := ServiceSteps(name, dcs, |SupportedKeys|).value;
    AssignFieldsKeys([], steps);
    forall o | o in KeysOf(steps)
      ensures o in ContainerKeys
    {
      StepKeyWritten(name, dcs, o);
    }
  }

  /** A property of the steps is one a supported key writes. */
  lemma StepKeyWritten(name: string, dcs: Json, o: string)
    requires ServiceInDomain(dcs) && o in KeysOf(ServiceSteps(name, dcs, |SupportedKeys|).value)
    ensures o in ContainerKeys
  {
    var f := FieldWithKey(ServiceSteps(name, dcs, |SupportedKeys|).value, o);
    var i := StepFieldOrigin(name, dcs, o, f);
    WritersOfInverse(i, o);
  }

  /** Apart from the build/image conflict, a key logs only what its normaliser logs. */
  lemma KeyNormaliserCards(name: string, dcs: Json, key: string)
    requires ServiceInDomain(dcs) && key in SupportedKeys
    requires key != "image" || !Truthy(Get(dcs, "build"))
    ensures forall c :: c in KeyWrites(name, dcs, key).cards ==> NormaliserWarning(c, name)
  {
    var value := Get(dcs, key);
    if Truthy(value) && key !in SimpleKeyMapping {
      if key == "volumes" {
        TranslateVolumesWarnings(value.items, name);
      } else if key == "expose" || key == "ports" {
        TranslatePortsWarnings(dcs, name);
      }
    }
  }

  /** The conflict card concerns the service and is counted once under its heading. */
  lemma ConflictCardFacts(name: string)
    ensures ServiceCard(ConflictCard(name), name)
    ensures CountHeading([ConflictCard(name)], ConflictHeading(name)) == 1
  {
    assert [ConflictCard(name)][..0] == [];
  }

  /** With `build` truthy, `image` logs only the conflict, and only when it is truthy itself. */
  lemma ImageCards(name: string, dcs: Json)
    requires ServiceInDomain(dcs) && Truthy(Get(dcs, "build"))
    ensures KeyWrites(name, dcs, "image").cards == if Truthy(Get(dcs, "image")) then [ConflictCard(name)] else []
  {
  }

  /**
   * Every card a supported key logs concerns the service, and only `image`
   * logs the conflict, exactly when `build` and `image` are both truthy.
   */
  lemma KeyCards(name: string, dcs: Json, key: string)
    requires ServiceInDomain(dcs) && key in SupportedKeys
    ensures forall c :: c in KeyWrites(name, dcs, key).cards ==> ServiceCard(c, name)
    ensures CountHeading(KeyWrites(name, dcs, key).cards, ConflictHeading(name)) ==
              if key == "image" && Truthy(Get(dcs, "build")) && Truthy(Get(dcs, "image")) then 1 else 0
  {
    if key == "image" && Truthy(Get(dcs, "build")) {
      ImageCards(name, dcs);
      ConflictCardFacts(name);
    } else {
      NoConflictCards(name, dcs, key);
    }
  }

  /** Apart from the skipped image, a key logs only normaliser warnings, none of them the conflict. */
  lemma NoConflictCards(name: string, dcs: Json, key: string)
    requires ServiceInDomain(dcs) && key in SupportedKeys
    requires !(key == "image" && Truthy(Get(dcs, "build")))
    ensures forall c :: c in KeyWrites(name, dcs, key).cards ==> ServiceCard(c, name)
    ensures CountHeading(KeyWrites(name, dcs, key).cards, ConflictHeading(name)) == 0
  {
    var cards := KeyWrites(name, dcs, key).cards;
    KeyNormaliserCards(name, dcs, key);
    CountHeadingNone(cards, ConflictHeading(name));
  }

  /** `image` is the ninth supported key. */
  lemma ImageIndex(i: nat)
    requires i < |SupportedKeys|
    ensures SupportedKeys[i] == "image" <==> i == 8
  {
  }

  /** The cards of the first `n` steps concern the service; the conflict is logged at most once. */
  lemma {:induction false} StepsCards(name: string, dcs: Json, n: nat)
    requires ServiceInDomain(dcs) && n <= |SupportedKeys|
    ensures forall c :: c in ServiceSteps(name, dcs, n).cards ==> ServiceCard(c, name)
    ensures CountHeading(ServiceSteps(name, dcs, n).cards, ConflictHeading(name)) ==
              if n > 8 && Truthy(Get(dcs, "build")) && Truthy(Get(dcs, "image")) then 1 else 0
    decreases n
  {
    if n > 0 {
      var prev := ServiceSteps(name, dcs, n - 1);
      var step := KeyWrites(name, dcs, SupportedKeys[n - 1]);
      StepsCards(name, dcs, n - 1);
      KeyCards(name, dcs, SupportedKeys[n - 1]);
      ImageIndex(n - 1);
      CountHeadingAppend(prev.cards, step.cards, ConflictHeading(name));
    }
  }

  /**
   * Every card `dcServiceToBatect` logs is a warning about this service (the
   * "no mapping logic" error is unreachable), and the build/image conflict is
   * reported once exactly when both keys are truthy.
   */
  lemma ServiceWarnings(name: string, dcs: Json)
    requires ServiceInDomain(dcs)
    ensures forall c :: c in TranslateService(name, dcs).cards ==> ServiceCard(c, name)
    ensures CountHeading(TranslateService(name, dcs).cards, ConflictHeading(name)) ==
              if Truthy(Get(dcs, "build")) && Truthy(Get(dcs, "image")) then 1 else 0
  {
    var warnings := UnsupportedKeyWarnings("service " + name, SupportedKeys, JsKeys(dcs));
    var steps := ServiceSteps(name, dcs, |SupportedKeys|);
    assert "service " + name + "" == "service " + name;
    ServiceScopedKeyWarnings(name, "", SupportedKeys, JsKeys(dcs));
    CountHeadingNone(warnings, ConflictHeading(name));
    StepsCards(name, dcs, |SupportedKeys|);
    CountHeadingAppend(warnings, steps.cards, ConflictHeading(name));
  }

  /** Cards with heading `h` that `expose` and `ports` log, counted over the first `n` steps. */
  lemma {:induction false} StepsPortCards(name: string, dcs: Json, n: nat, h: string)
    requires ServiceInDomain(dcs) && n <= |SupportedKeys|
    ensures CountHeading(ServiceSteps(name, dcs, n).cards, h) >=
              (if n > 6 then CountHeading(KeyWrites(name, dcs, "expose").cards, h) else 0) +
              (if n > 9 then CountHeading(KeyWrites(name, dcs, "ports").cards, h) else 0)
    decreases n
  {
    if n > 0 {
      var prev := ServiceSteps(name, dcs, n - 1);
      var step := KeyWrites(name, dcs, SupportedKeys[n - 1]);
      StepsPortCards(name, dcs, n - 1, h);
      CountHeadingAppend(prev.cards, step.cards, h);
    }
  }

  /**
   * `expose` and `ports` both run the whole port conversion, so when both are
   * truthy every port warning is logged (at least) twice.
   */
  lemma PortWarningsTwice(name: string, dcs: Json, h: string)
    requires ServiceInDomain(dcs) && Truthy(Get(dcs, "expose")) && Truthy(Get(dcs, "ports"))
    ensures CountHeading(TranslateService(name, dcs).cards, h) >= 2 * CountHeading(TranslatePorts(dcs, name).cards, h)
  {
    var warnings := UnsupportedKeyWarnings("service " + name, SupportedKeys, JsKeys(dcs));
    var steps := ServiceSteps(name, dcs, |SupportedKeys|);
    PortKeyWrites(name, dcs, "expose");
    PortKeyWrites(name, dcs, "ports");
    StepsPortCards(name, dcs, |SupportedKeys|, h);
    CountHeadingAppend(warnings, steps.cards, h);
  }
}
