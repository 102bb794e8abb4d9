/**
 * The entry point of batectify-dc.js: `dockerComposeToBatect` warns about
 * unknown root keys, then converts every service into a batect container of
 * the same name, under a configuration that also has an (empty) task list.
 */
module DocumentMapper {
  import opened Wrappers
  import opened Strings
  import opened JsValues
  import opened Diagnostics
  import opened ServiceMapper
  import opened ListBuilders

  const SupportedRootKeys: seq<string> := ["version", "services"]

  /** The documents the converter can read without a TypeError: `services` exists and every service is readable. */
  predicate DocumentInDomain(dc: Json) {
    && Defined(dc)
    && Defined(Get(dc, "services"))
    && forall name :: name in JsKeys(Get(dc, "services")) ==> ServiceInDomain(Get(Get(dc, "services"), name))
  }

  predicate ServicesInDomain(services: Json, names: seq<string>) {
    Defined(services) && forall name :: name in names ==> ServiceInDomain(Get(services, name))
  }

  /** The containers produced for the services `names`, visited in order, and the cards logged. */
  function Containers(services: Json, names: seq<string>): Logged<seq<Field>>
    requires ServicesInDomain(services, names)
  {
    if |names| == 0 then Logged([], [])
    else
      var prev := Containers(services, names[..|names| - 1]);
      var name := names[|names| - 1];
      var service := TranslateService(name, Get(services, name));
      Logged(if Truthy(service.value) then SetField(prev.value, name, service.value) else prev.value,
             prev.cards + service.cards)
  }

  function Config(containers: seq<Field>): Json {
    Obj([Field("containers", Obj(containers)), Field("tasks", Obj([]))])
  }

  /** `batectConfig["containers"][name] = container` assigns inside the containers object. */
  lemma ConfigAssign(containers: seq<Field>, name: string, container: Json)
    ensures Get(Config(containers), "containers") == Obj(containers)
    ensures Set(Config(containers), "containers", Set(Get(Config(containers), "containers"), name, container)) ==
              Config(SetField(containers, name, container))
  {
    GetPair("containers", Obj(containers), "tasks", Obj([]));
  }

  /** The specification of `dockerComposeToBatect`. */
  function TranslateDocument(dc: Json): Logged<Json>
    requires DocumentInDomain(dc)
  {
    var services := Get(dc, "services");
    var containers := Containers(services, JsKeys(services));
    Logged(Config(containers.value),
           UnsupportedKeyWarnings("root", SupportedRootKeys, JsKeys(dc)) + containers.cards)
  }

  /** One more service: its container is assigned under its name and its cards follow. */
  lemma ContainersSnoc(services: Json, names: seq<string>)
    requires |names| > 0 && ServicesInDomain(services, names)
    ensures ServicesInDomain(services, names[..|names| - 1])
    ensures ServiceInDomain(Get(services, names[|names| - 1]))
    ensures Truthy(TranslateService(names[|names| - 1], Get(services, names[|names| - 1])).value)
    ensures Containers(services, names).value ==
              SetField(Containers(services, names[..|names| - 1]).value, names[|names| - 1],
                       TranslateService(names[|names| - 1], Get(services, names[|names| - 1])).value)
    ensures Containers(services, names).cards ==
              Containers(services, names[..|names| - 1]).cards + TranslateService(names[|names| - 1], Get(services, names[|names| - 1])).cards
  {
    var name := names[|names| - 1];
    var service := TranslateService(name, Get(services, name));
    assert service.value == Obj(AssignFields([], ServiceSteps(name, Get(services, name), |SupportedKeys|).value));
    assert Truthy(service.value);
  }

  /** The loop of `dockerComposeToBatect` after visiting the first `i + 1` service names. */
  lemma DocumentStep(dc: Json, i: nat)
    requires DocumentInDomain(dc) && i < |JsKeys(Get(dc, "services"))|
    ensures ServicesInDomain(Get(dc, "services"), JsKeys(Get(dc, "services"))[..i])
    ensures ServiceInDomain(Get(Get(dc, "services"), JsKeys(Get(dc, "services"))[i]))
    ensures Containers(Get(dc, "services"), JsKeys(Get(dc, "services"))[..i + 1]) ==
              var services, name := Get(dc, "services"), JsKeys(Get(dc, "services"))[i];
              var prev := Containers(services, JsKeys(services)[..i]);
              var service := TranslateService(name, Get(services, name));
              Logged(SetField(prev.value, name, service.value), prev.cards + service.cards)
  {
    var services := Get(dc, "services");
    var names := JsKeys(services);
    assert names[..i + 1][..i] == names[..i];
    assert names[..i + 1][i] == names[i];
    ContainersSnoc(services, names[..i + 1]);
  }

  /**
   * Unfolds `TranslateDocument` once. Dafny proves it unaided; calling it from
   * the loop keeps the unfolding out of the method's own proof, which is cheaper.
   */
  lemma DocumentSpec(dc: Json)
    requires DocumentInDomain(dc)
    ensures ServicesInDomain(Get(dc, "services"), JsKeys(Get(dc, "services")))
    ensures TranslateDocument(dc).value == Config(Containers(Get(dc, "services"), JsKeys(Get(dc, "services"))).value)
    ensures TranslateDocument(dc).cards ==
              UnsupportedKeyWarnings("root", SupportedRootKeys, JsKeys(dc)) + Containers(Get(dc, "services"), JsKeys(Get(dc, "services"))).cards
  {
  }

  /**
   * The body of the `forEach` callback in `dockerComposeToBatect`: the service's
   * container is always truthy, so it is always stored under the service's name.
   */
  method ConvertService(batectConfig: Json, log: seq<Card>, services: Json, name: string)
    returns (batectConfig': Json, log': seq<Card>)
    requires batectConfig.Obj? && Get(batectConfig, "containers").Obj?
    requires Defined(services) && ServiceInDomain(Get(services, name))
    ensures batectConfig' ==
              Set(batectConfig, "containers", Set(Get(batectConfig, "containers"), name, TranslateService(name, Get(services, name)).value))
    ensures log' == log + TranslateService(name, Get(services, name)).cards
  {
    batectConfig' := batectConfig;
    var container;
    container, log' := ServiceToBatect(log, name, Get(services, name));
    assert container == Obj(AssignFields([], ServiceSteps(name, Get(services, name), |SupportedKeys|).value));
    if Truthy(container) {
      batectConfig' := Set(batectConfig, "containers", Set(Get(batectConfig, "containers"), name, container));
    }
  }

  /** `dockerComposeToBatect`: warns about unknown root keys, then adds one container per service. */
  method DockerComposeToBatect(log: seq<Card>, dc: Json) returns (batectConfig: Json, log': seq<Card>)
    requires DocumentInDomain(dc)
    ensures batectConfig == TranslateDocument(dc).value
    ensures log' == log + TranslateDocument(dc).cards
  {
    log' := WarnOnUnsupportedKeys(log, "root", SupportedRootKeys, JsKeys(dc));
    ghost var afterWarnings := log';
    batectConfig := Config([]);
    var services := Get(dc, "services");
    var names := JsKeys(services);
    for i := 0 to |names|
      invariant ServicesInDomain(services, names[..i])
      invariant batectConfig == Config(Containers(services, names[..i]).value)
      invariant log' == afterWarnings + Containers(services, names[..i]).cards
    {
      DocumentStep(dc, i);
      ghost var prev := Containers(services, names[..i]);
      ConfigAssign(prev.value, names[i], TranslateService(names[i], Get(services, names[i])).value);
      batectConfig, log' := ConvertService(batectConfig, log', services, names[i]);
      AppendAssoc(afterWarnings, prev.cards, TranslateService(names[i], Get(services, names[i])).cards);
    }
    assert names[..|names|] == names;
    DocumentSpec(dc);
    AppendAssoc(log, UnsupportedKeyWarnings("root", SupportedRootKeys, JsKeys(dc)), Containers(services, names).cards);
  }

  // ------------------------------------------------------------- properties

  /** The configuration has exactly the keys `containers` and `tasks`, and no task. */
  lemma DocumentShape(dc: Json)
    requires DocumentInDomain(dc)
    ensures TranslateDocument(dc).value.Obj?
    ensures KeysOf(TranslateDocument(dc).value.fields) == ["containers", "tasks"]
    ensures Get(TranslateDocument(dc).value, "containers").Obj?
    ensures Get(TranslateDocument(dc).value, "tasks") == Obj([])
  {
    var services := Get(dc, "services");
    DocumentSpec(dc);
    ConfigAssign(Containers(services, JsKeys(services)).value, "", Undefined);
    GetPair("containers", Obj(Containers(services, JsKeys(services)).value), "tasks", Obj([]));
  }

  /** Every visited service name becomes a container name, nothing else does, and none twice. */
  lemma {:induction false} ContainersKeySet(services: Json, names: seq<string>)
    requires ServicesInDomain(services, names)
    ensures forall k :: k in KeysOf(Containers(services, names).value) <==> k in names
    ensures NoDup(KeysOf(Containers(services, names).value))
    decreases |names|
  {
    if |names| > 0 {
      var init, name := names[..|names| - 1], names[|names| - 1];
      assert names == init + [name];
      ContainersSnoc(services, names);
      ContainersKeySet(services, init);
      var prev := Containers(services, init).value;
      var container := TranslateService(name, Get(services, name)).value;
      SetFieldKeys(prev, name, container);
      SetFieldNoDup(prev, name, container);
    }
  }

  /** With distinct service names, the containers keep the order of the services. */
  lemma {:induction false} ContainersOrder(services: Json, names: seq<string>)
    requires ServicesInDomain(services, names) && NoDup(names)
    ensures KeysOf(Containers(services, names).value) == names
    decreases |names|
  {
    if |names| > 0 {
      var init, name := names[..|names| - 1], names[|names| - 1];
      assert names == init + [name];
      assert NoDup(init) by {
        forall i, j | 0 <= i < j < |init| ensures init[i] != init[j] {
          assert init[i] == names[i] && init[j] == names[j];
        }
      }
      assert name !in init by {
        forall i | 0 <= i < |init| ensures init[i] != name {
          assert init[i] == names[i];
        }
      }
      ContainersSnoc(services, names);
      ContainersOrder(services, init);
      SetFieldKeys(Containers(services, init).value, name, TranslateService(name, Get(services, name)).value);
    }
  }

  /** Each container holds the translation of the service of its name. */
  lemma {:induction false} ContainersLookup(services: Json, names: seq<string>, k: string)
    requires ServicesInDomain(services, names) && k in names
    ensures ServiceInDomain(Get(services, k))
    ensures Lookup(Containers(services, names).value, k) == Some(TranslateService(k, Get(services, k)).value)
    decreases |names|
  {
    var init, name := names[..|names| - 1], names[|names| - 1];
    assert names == init + [name];
    ContainersSnoc(services, names);
    SetFieldLookup(Containers(services, init).value, name, TranslateService(name, Get(services, name)).value, k);
    if k != name {
      ContainersLookup(services, init, k);
    }
  }

  lemma DocumentContainersObject(dc: Json)
    requires DocumentInDomain(dc)
    ensures ServicesInDomain(Get(dc, "services"), JsKeys(Get(dc, "services")))
    ensures Get(TranslateDocument(dc).value, "containers") == Obj(Containers(Get(dc, "services"), JsKeys(Get(dc, "services"))).value)
  {
    DocumentSpec(dc);
    ConfigAssign(Containers(Get(dc, "services"), JsKeys(Get(dc, "services"))).value, "", Undefined);
  }

  /**
   * `containers` has one entry per service name, holding that service's
   * container; with distinct service names (as YAML mappings have), in the
   * order of the services.
   */
  lemma DocumentContainers(dc: Json, name: string)
    requires DocumentInDomain(dc)
    ensures Get(TranslateDocument(dc).value, "containers").Obj?
    ensures name in KeysOf(Get(TranslateDocument(dc).value, "containers").fields) <==> name in JsKeys(Get(dc, "services"))
    ensures name in JsKeys(Get(dc, "services")) ==>
              Get(Get(TranslateDocument(dc).value, "containers"), name) ==
                TranslateService(name, Get(Get(dc, "services"), name)).value
    ensures NoDup(JsKeys(Get(dc, "services"))) ==>
              KeysOf(Get(TranslateDocument(dc).value, "containers").fields) == JsKeys(Get(dc, "services"))
  {
    var services := Get(dc, "services");
    DocumentContainersObject(dc);
    ContainersKeySet(services, JsKeys(services));
    if NoDup(JsKeys(services)) {
      ContainersOrder(services, JsKeys(services));
    }
    if name in JsKeys(services) {
      ContainersLookup(services, JsKeys(services), name);
    }
  }

  /** Every card logged while converting the services is a warning, and none is about a root key. */
  lemma {:induction false} ContainersCards(services: Json, names: seq<string>)
    requires ServicesInDomain(services, names)
    ensures forall c :: c in Containers(services, names).cards ==> c.level == Warning && c.heading != "Unsupported root key"
    decreases |names|
  {
    if |names| > 0 {
      var init, name := names[..|names| - 1], names[|names| - 1];
      ContainersSnoc(services, names);
      ContainersCards(services, init);
      ServiceWarnings(name, Get(services, name));
      forall c | c in TranslateService(name, Get(services, name)).cards
        ensures c.level == Warning && c.heading != "Unsupported root key"
      {
        ServiceCardIsNotRoot(c, name);
      }
    }
  }

  /** Converting the services never logs the heading of an unsupported root key. */
  lemma ContainersNoRootCards(services: Json, names: seq<string>)
    requires ServicesInDomain(services, names)
    ensures CountHeading(Containers(services, names).cards, "Unsupported root key") == 0
  {
    var cards := Containers(services, names).cards;
    ContainersCards(services, names);
    CountHeadingNone(cards, "Unsupported root key");
  }

  /** One "Unsupported root key" card per unsupported root key. */
  lemma RootKeyCards(dc: Json)
    requires Defined(dc)
    ensures CountHeading(UnsupportedKeyWarnings("root", SupportedRootKeys, JsKeys(dc)), "Unsupported root key") ==
              |UnsupportedKeys(SupportedRootKeys, JsKeys(dc))|
  {
    var warnings := UnsupportedKeyWarnings("root", SupportedRootKeys, JsKeys(dc));
    assert forall c :: c in warnings ==> c.heading == "Unsupported root key";
    CountHeadingAll(warnings, "Unsupported root key");
  }

  /**
   * Exactly one "Unsupported root key" card is logged per root key other than
   * `version` and `services`; none when there is no such key.
   */
  lemma RootWarnings(dc: Json)
    requires DocumentInDomain(dc)
    ensures CountHeading(TranslateDocument(dc).cards, "Unsupported root key") ==
              |UnsupportedKeys(SupportedRootKeys, JsKeys(dc))|
    ensures (forall k :: k in JsKeys(dc) ==> k in SupportedRootKeys) ==>
              CountHeading(TranslateDocument(dc).cards, "Unsupported root key") == 0
  {
    var services := Get(dc, "services");
    DocumentSpec(dc);
    RootKeyCards(dc);
    ContainersNoRootCards(services, JsKeys(services));
    CountHeadingAppend(UnsupportedKeyWarnings("root", SupportedRootKeys, JsKeys(dc)),
                       Containers(services, JsKeys(services)).cards, "Unsupported root key");
    if forall k :: k in JsKeys(dc) ==> k in SupportedRootKeys {
      NoWarningWhenAllSupported("root", SupportedRootKeys, JsKeys(dc));
    }
  }
}
