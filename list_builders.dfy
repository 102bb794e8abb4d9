/**
 * The list builders of batectify-dc.js: `dcVolumeArrayToBatect` and
 * `dcPortArrayToBatect` normalise every entry in order and push the truthy
 * results.
 */
module ListBuilders {
  import opened Wrappers
  import opened Strings
  import opened JsValues
  import opened Diagnostics
  import opened Normalisers

  /** `if (x) list.push(x)` for a normaliser's result. */
  function Kept(x: Option<Json>): seq<Json> {
    if x.Some? && Truthy(x.value) then [x.value] else []
  }

  /**
   * The list and the log a `for` loop of pushes leaves behind: each result in
   * turn has its cards logged and its value pushed when truthy.
   */
  function Collect(results: seq<Logged<Option<Json>>>): (r: Logged<seq<Json>>)
    ensures |r.value| <= |results|
  {
    if |results| == 0 then Logged([], [])
    else
      var prev := Collect(results[..|results| - 1]);
      var last := results[|results| - 1];
      Logged(prev.value + Kept(last.value), prev.cards + last.cards)
  }

  /** Collecting two runs of results one after the other collects each run in turn. */
  lemma {:induction false} CollectAppend(a: seq<Logged<Option<Json>>>, b: seq<Logged<Option<Json>>>)
    ensures Collect(a + b).value == Collect(a).value + Collect(b).value
    ensures Collect(a + b).cards == Collect(a).cards + Collect(b).cards
    decreases |b|
  {
    if |b| == 0 {
      assert a + b == a;
    } else {
      var b' := b[..|b| - 1];
      assert (a + b)[..|a + b| - 1] == a + b';
      assert (a + b)[|a + b| - 1] == b[|b| - 1];
      CollectAppend(a, b');
      var last := b[|b| - 1];
      assert Collect(a + b).value == (Collect(a).value + Collect(b').value) + Kept(last.value);
      assert Collect(a + b).cards == (Collect(a).cards + Collect(b').cards) + last.cards;
    }
  }

  /** Results that each keep a truthy value and log nothing collect to exactly those values. */
  lemma {:induction false} CollectKeepsAll(results: seq<Logged<Option<Json>>>, values: seq<Json>)
    requires |results| == |values|
    requires forall i :: 0 <= i < |results| ==> results[i] == Logged(Some(values[i]), []) && Truthy(values[i])
    ensures Collect(results) == Logged(values, [])
    decreases |results|
  {
    if |results| > 0 {
      var n := |results| - 1;
      assert results[..n] + [results[n]] == results;
      assert values[..n] + [values[n]] == values;
      CollectKeepsAll(results[..n], values[..n]);
      CollectSnoc(results[..n], results[n]);
    }
  }

  /** Every card collected was logged by one of the results. */
  lemma {:induction false} CollectCardsFrom(results: seq<Logged<Option<Json>>>, c: Card)
    requires c in Collect(results).cards
    ensures exists i :: 0 <= i < |results| && c in results[i].cards
    decreases |results|
  {
    var n := |results| - 1;
    if c !in results[n].cards {
      CollectCardsFrom(results[..n], c);
      var i :| 0 <= i < n && c in results[..n][i].cards;
      assert results[..n][i] == results[i];
    }
  }

  /** A normaliser applied to every entry, in order. */
  function Normalised(normalise: Json --> Logged<Option<Json>>, entries: seq<Json>): (r: seq<Logged<Option<Json>>>)
    requires forall i :: 0 <= i < |entries| ==> normalise.requires(entries[i])
    ensures |r| == |entries|
  {
    seq(|entries|, i requires 0 <= i < |entries| => normalise(entries[i]))
  }

  /** `Collect` of one more result. */
  lemma CollectSnoc(results: seq<Logged<Option<Json>>>, r: Logged<Option<Json>>)
    ensures Collect(results + [r]) == Logged(Collect(results).value + Kept(r.value), Collect(results).cards + r.cards)
  {
    assert (results + [r])[..|results|] == results;
  }

  /**
   * Associativity of concatenation. Dafny proves it unaided; stating it once for
   * the loops keeps their invariants cheap to check.
   */
  lemma AppendAssoc<T>(a: seq<T>, b: seq<T>, c: seq<T>)
    ensures a + (b + c) == (a + b) + c
  {
  }

  /**
   * The `for` loop of `dcVolumeArrayToBatect` and of each half of
   * `dcPortArrayToBatect`: every entry is normalised in turn, its cards are
   * logged and its result is pushed when truthy.
   */
  method PushNormalised(list: seq<Json>, log: seq<Card>, normalise: Json --> Logged<Option<Json>>, entries: seq<Json>)
    returns (list': seq<Json>, log': seq<Card>)
    requires forall i :: 0 <= i < |entries| ==> normalise.requires(entries[i])
    ensures list' == list + Collect(Normalised(normalise, entries)).value
    ensures log' == log + Collect(Normalised(normalise, entries)).cards
  {
    ghost var results := Normalised(normalise, entries);
    list' := list;
    log' := log;
    var i := 0;
    while i < |entries|
      invariant 0 <= i <= |entries|
      invariant list' == list + Collect(results[..i]).value
      invariant log' == log + Collect(results[..i]).cards
    {
      var normalised := normalise(entries[i]);
      assert results[..i + 1] == results[..i] + [normalised];
      CollectSnoc(results[..i], normalised);
      AppendAssoc(list, Collect(results[..i]).value, Kept(normalised.value));
      AppendAssoc(log, Collect(results[..i]).cards, normalised.cards);
      log' := log' + normalised.cards;
      if normalised.value.Some? && Truthy(normalised.value.value) {
        list' := list' + [normalised.value.value];
      }
      i := i + 1;
    }
    assert results[..i] == results;
  }

  // ---------------------------------------------------------------- volumes

  /** Every entry can be read: `dcVolumeToBatect` throws on null and undefined. */
  predicate AllDefined(vols: seq<Json>) {
    forall i :: 0 <= i < |vols| ==> Defined(vols[i])
  }

  predicate VolumesInDomain(volumes: Json) {
    volumes.Arr? && AllDefined(volumes.items)
  }

  /** `dcVolumeToBatect` for the volumes of one service. */
  function VolumeNormaliser(serviceName: string): Json --> Logged<Option<Json>> {
    vol requires Defined(vol) => VolumeToBatect(vol, serviceName)
  }

  /** `dcVolumeToBatect` applied to every entry. */
  function NormalisedVolumes(vols: seq<Json>, serviceName: string): (r: seq<Logged<Option<Json>>>)
    requires AllDefined(vols)
    ensures |r| == |vols| && forall i :: 0 <= i < |vols| ==> r[i] == VolumeToBatect(vols[i], serviceName)
  {
    Normalised(VolumeNormaliser(serviceName), vols)
  }

  /** The specification of `dcVolumeArrayToBatect` over the entries. */
  function TranslateVolumes(vols: seq<Json>, serviceName: string): (r: Logged<seq<Json>>)
    requires AllDefined(vols)
    ensures |r.value| <= |vols|
  {
    Collect(NormalisedVolumes(vols, serviceName))
  }

  /** Order is kept: the volumes of a concatenation are the volumes of each part, one after the other. */
  lemma TranslateVolumesAppend(a: seq<Json>, b: seq<Json>, serviceName: string)
    requires AllDefined(a) && AllDefined(b)
    ensures AllDefined(a + b)
    ensures TranslateVolumes(a + b, serviceName).value == TranslateVolumes(a, serviceName).value + TranslateVolumes(b, serviceName).value
    ensures TranslateVolumes(a + b, serviceName).cards == TranslateVolumes(a, serviceName).cards + TranslateVolumes(b, serviceName).cards
  {
    assert AllDefined(a + b);
    assert NormalisedVolumes(a + b, serviceName) == NormalisedVolumes(a, serviceName) + NormalisedVolumes(b, serviceName);
    CollectAppend(NormalisedVolumes(a, serviceName), NormalisedVolumes(b, serviceName));
  }

  /** Short-syntax volumes are carried over unchanged and without warnings. */
  lemma VolumeStringsPassThrough(vols: seq<Json>, serviceName: string)
    requires forall i :: 0 <= i < |vols| ==> vols[i].Str? && vols[i].s != ""
    ensures TranslateVolumes(vols, serviceName) == Logged(vols, [])
  {
    CollectKeepsAll(NormalisedVolumes(vols, serviceName), vols);
  }

  /** The cards of a volume list are the normalisers' per-service warnings. */
  lemma TranslateVolumesWarnings(vols: seq<Json>, serviceName: string)
    requires AllDefined(vols)
    ensures forall c :: c in TranslateVolumes(vols, serviceName).cards ==> NormaliserWarning(c, serviceName)
  {
    forall c | c in TranslateVolumes(vols, serviceName).cards
      ensures NormaliserWarning(c, serviceName)
    {
      CollectCardsFrom(NormalisedVolumes(vols, serviceName), c);
    }
  }

  /** `dcVolumeArrayToBatect`. */
  method VolumeArrayToBatect(log: seq<Card>, volumes: Json, serviceName: string) returns (batectVolumes: Json, log': seq<Card>)
    requires VolumesInDomain(volumes)
    ensures batectVolumes == Arr(TranslateVolumes(volumes.items, serviceName).value)
    ensures log' == log + TranslateVolumes(volumes.items, serviceName).cards
  {
    var vols;
    vols, log' := PushNormalised([], log, VolumeNormaliser(serviceName), volumes.items);
    batectVolumes := Arr(vols);
  }

  // ------------------------------------------------------------------ ports

  /** Every entry is a string, an array or an object: other values have no `match` method and throw. */
  predicate AllPortsInDomain(ports: seq<Json>) {
    forall i :: 0 <= i < |ports| ==> PortInDomain(ports[i])
  }

  /** A truthy `expose` or `ports` value must be such an array. */
  predicate PortListInDomain(ports: Json) {
    Truthy(ports) ==> ports.Arr? && AllPortsInDomain(ports.items)
  }

  /** `dcPortToBatect` for the ports of one service. */
  function PortNormaliser(serviceName: string): Json --> Logged<Option<Json>> {
    port requires PortInDomain(port) => PortToBatect(port, serviceName)
  }

  /** `dcPortToBatect` applied to every entry. */
  function NormalisedPorts(ports: seq<Json>, serviceName: string): (r: seq<Logged<Option<Json>>>)
    requires AllPortsInDomain(ports)
    ensures |r| == |ports| && forall i :: 0 <= i < |ports| ==> r[i] == PortToBatect(ports[i], serviceName)
  {
    Normalised(PortNormaliser(serviceName), ports)
  }

  /** The normalised entries of one port list. */
  function TranslatePortList(ports: seq<Json>, serviceName: string): (r: Logged<seq<Json>>)
    requires AllPortsInDomain(ports)
    ensures |r.value| <= |ports|
  {
    Collect(NormalisedPorts(ports, serviceName))
  }

  /** Order is kept: the ports of a concatenation are the ports of each part, one after the other. */
  lemma TranslatePortListAppend(a: seq<Json>, b: seq<Json>, serviceName: string)
    requires AllPortsInDomain(a) && AllPortsInDomain(b)
    ensures AllPortsInDomain(a + b)
    ensures TranslatePortList(a + b, serviceName).value == TranslatePortList(a, serviceName).value + TranslatePortList(b, serviceName).value
    ensures TranslatePortList(a + b, serviceName).cards == TranslatePortList(a, serviceName).cards + TranslatePortList(b, serviceName).cards
  {
    assert AllPortsInDomain(a + b);
    assert NormalisedPorts(a + b, serviceName) == NormalisedPorts(a, serviceName) + NormalisedPorts(b, serviceName);
    CollectAppend(NormalisedPorts(a, serviceName), NormalisedPorts(b, serviceName));
  }

  /** Short-syntax TCP ports, a bare "4000" included, are carried over unchanged and without warnings. */
  lemma PortStringsPassThrough(ports: seq<Json>, serviceName: string)
    requires forall i :: 0 <= i < |ports| ==> ports[i].Str? && ports[i].s != "" && !Contains(ports[i].s, "/udp")
    ensures TranslatePortList(ports, serviceName) == Logged(ports, [])
  {
    CollectKeepsAll(NormalisedPorts(ports, serviceName), ports);
  }

  /** The normalised entries of an `expose` or `ports` value: nothing when it is falsy. */
  function TranslatePortsOf(ports: Json, serviceName: string): (r: Logged<seq<Json>>)
    requires PortListInDomain(ports)
    ensures Truthy(ports) ==> |r.value| <= |ports.items|
    ensures !Truthy(ports) ==> r == Logged([], [])
  {
    if Truthy(ports) then TranslatePortList(ports.items, serviceName) else Logged([], [])
  }

  /** The specification of `dcPortArrayToBatect`: the `expose` entries, then the `ports` entries. */
  function TranslatePorts(dcs: Json, serviceName: string): (r: Logged<seq<Json>>)
    requires Defined(dcs) && PortListInDomain(Get(dcs, "expose")) && PortListInDomain(Get(dcs, "ports"))
  {
    var expose := TranslatePortsOf(Get(dcs, "expose"), serviceName);
    var ports := TranslatePortsOf(Get(dcs, "ports"), serviceName);
    Logged(expose.value + ports.value, expose.cards + ports.cards)
  }

  /** The cards of the merged port list are the normalisers' per-service warnings. */
  lemma TranslatePortsWarnings(dcs: Json, serviceName: string)
    requires Defined(dcs) && PortListInDomain(Get(dcs, "expose")) && PortListInDomain(Get(dcs, "ports"))
    ensures forall c :: c in TranslatePorts(dcs, serviceName).cards ==> NormaliserWarning(c, serviceName)
  {
    forall c | c in TranslatePorts(dcs, serviceName).cards
      ensures NormaliserWarning(c, serviceName)
    {
      var expose, ports := Get(dcs, "expose"), Get(dcs, "ports");
      if c in TranslatePortsOf(expose, serviceName).cards {
        CollectCardsFrom(NormalisedPorts(expose.items, serviceName), c);
      } else {
        CollectCardsFrom(NormalisedPorts(ports.items, serviceName), c);
      }
    }
  }

  /**
   * The merged list is the normalisation of `expose` followed by `ports`, as if
   * the two lists were one.
   */
  lemma PortsMerged(dcs: Json, serviceName: string)
    requires Defined(dcs) && Get(dcs, "expose").Arr? && Get(dcs, "ports").Arr?
    requires AllPortsInDomain(Get(dcs, "expose").items) && AllPortsInDomain(Get(dcs, "ports").items)
    ensures PortListInDomain(Get(dcs, "expose")) && PortListInDomain(Get(dcs, "ports"))
    ensures AllPortsInDomain(Get(dcs, "expose").items + Get(dcs, "ports").items)
    ensures TranslatePorts(dcs, serviceName) == TranslatePortList(Get(dcs, "expose").items + Get(dcs, "ports").items, serviceName)
  {
    var expose, ports := Get(dcs, "expose"), Get(dcs, "ports");
    assert TranslatePortsOf(expose, serviceName) == TranslatePortList(expose.items, serviceName);
    assert TranslatePortsOf(ports, serviceName) == TranslatePortList(ports.items, serviceName);
    TranslatePortListAppend(expose.items, ports.items, serviceName);
  }

  /** `dcPortArrayToBatect`: pushes the normalised `expose` entries, then the normalised `ports` entries. */
  method PortArrayToBatect(log: seq<Card>, dcs: Json, serviceName: string) returns (batectPorts: Json, log': seq<Card>)
    requires Defined(dcs) && PortListInDomain(Get(dcs, "expose")) && PortListInDomain(Get(dcs, "ports"))
    ensures batectPorts == Arr(TranslatePorts(dcs, serviceName).value)
    ensures log' == log + TranslatePorts(dcs, serviceName).cards
  {
    var ports: seq<Json> := [];
    log' := log;
    var expose := Get(dcs, "expose");
    if Truthy(expose) {
      ports, log' := PushNormalised(ports, log', PortNormaliser(serviceName), expose.items);
    }
    ghost var fromExpose := TranslatePortsOf(expose, serviceName);
    assert ports == fromExpose.value && log' == log + fromExpose.cards;
    var listed := Get(dcs, "ports");
    ghost var fromPorts := TranslatePortsOf(listed, serviceName);
    if Truthy(listed) {
      ports, log' := PushNormalised(ports, log', PortNormaliser(serviceName), listed.items);
    }
    assert ports == fromExpose.value + fromPorts.value;
    assert log' == (log + fromExpose.cards) + fromPorts.cards;
    AppendAssoc(log, fromExpose.cards, fromPorts.cards);
    batectPorts := Arr(ports);
  }
}
