/**
 * The warning side channel of the converter. Each call to `displayCard` appends
 * one card (level, heading, message) to the page's error box; here the box is a
 * log of cards that every step receives and returns extended.
 * `warnOnUnsupportedKeys` reports every provided key outside a supported list.
 */
module Diagnostics {
  import opened Strings

  datatype Level = Warning | Error

  /** One card shown in the error box. */
  datatype Card = Card(level: Level, heading: string, message: string)

  /** A value computed by a translation step together with the cards it appended, in order. */
  datatype Logged<T> = Logged(value: T, cards: seq<Card>)

  /** The provided keys that are not supported, in the order they were provided. */
  function UnsupportedKeys(supported: seq<string>, provided: seq<string>): (r: seq<string>)
    ensures forall k :: k in r <==> k in provided && k !in supported
    ensures |r| <= |provided|
  {
    if |provided| == 0 then []
    else
      var rest := UnsupportedKeys(supported, provided[..|provided| - 1]);
      var last := provided[|provided| - 1];
      assert provided == provided[..|provided| - 1] + [last];
      if last in supported then rest else rest + [last]
  }

  /** Filtering commutes with concatenation: the unsupported keys keep their relative order. */
  lemma {:induction false} UnsupportedKeysAppend(supported: seq<string>, a: seq<string>, b: seq<string>)
    ensures UnsupportedKeys(supported, a + b) == UnsupportedKeys(supported, a) + UnsupportedKeys(supported, b)
    decreases |b|
  {
    if |b| == 0 {
      assert a + b == a;
    } else {
      var b' := b[..|b| - 1];
      assert (a + b)[..|a + b| - 1] == a + b';
      UnsupportedKeysAppend(supported, a, b');
    }
  }

  /** The card for one unsupported key: its heading names the scope, its message the key and the scope. */
  function UnsupportedKeyCard(parent: string, key: string): (c: Card)
    ensures c.level == Warning && c.heading == "Unsupported " + parent + " key"
    ensures Contains(c.message, "'" + key + "'") && Contains(c.message, "'" + parent + "'")
  {
    var quotedKey, quotedParent := "'" + key + "'", "'" + parent + "'";
    var tail := " was not recognised or not is not supported by batect.";
    var message := "The key " + quotedKey + " under " + quotedParent + tail;
    assert message == "The key " + quotedKey + (" under " + quotedParent + tail);
    ContainsInfix("The key ", quotedKey, " under " + quotedParent + tail);
    ContainsInfix("The key " + quotedKey + " under ", quotedParent, tail);
    Card(Warning, "Unsupported " + parent + " key", message)
  }

  /** The cards `warnOnUnsupportedKeys` appends: one per unsupported key, in order. */
  function UnsupportedKeyWarnings(parent: string, supported: seq<string>, provided: seq<string>): seq<Card> {
    var keys := UnsupportedKeys(supported, provided);
    seq(|keys|, i requires 0 <= i < |keys| => UnsupportedKeyCard(parent, keys[i]))
  }

  /** Appends one warning card per provided key that is not supported; the key lists are untouched. */
  method WarnOnUnsupportedKeys(log: seq<Card>, parent: string, supportedKeys: seq<string>, providedKeys: seq<string>)
    returns (log': seq<Card>)
    ensures |log'| == |log| + |UnsupportedKeys(supportedKeys, providedKeys)|
    ensures log'[..|log|] == log
    ensures forall i :: 0 <= i < |UnsupportedKeys(supportedKeys, providedKeys)| ==>
              log'[|log| + i] == UnsupportedKeyCard(parent, UnsupportedKeys(supportedKeys, providedKeys)[i])
    ensures log' == log + UnsupportedKeyWarnings(parent, supportedKeys, providedKeys)
  {
    var unsupportedKeys := UnsupportedKeys(supportedKeys, providedKeys);
    log' := log;
    var i := 0;
    while i < |unsupportedKeys|
      invariant 0 <= i <= |unsupportedKeys|
      invariant |log'| == |log| + i
      invariant log'[..|log|] == log
      invariant forall j :: 0 <= j < i ==> log'[|log| + j] == UnsupportedKeyCard(parent, unsupportedKeys[j])
    {
      log' := log' + [UnsupportedKeyCard(parent, unsupportedKeys[i])];
      i := i + 1;
    }
  }

  /** No card at all when every provided key is supported. */
  lemma {:induction false} NoWarningWhenAllSupported(parent: string, supported: seq<string>, provided: seq<string>)
    requires forall k :: k in provided ==> k in supported
    ensures UnsupportedKeys(supported, provided) == []
    ensures UnsupportedKeyWarnings(parent, supported, provided) == []
    decreases |provided|
  {
    if |provided| > 0 {
      NoWarningWhenAllSupported(parent, supported, provided[..|provided| - 1]);
    }
  }

  /** Number of cards carrying a given heading. */
  function CountHeading(cards: seq<Card>, heading: string): (n: nat)
    ensures n <= |cards|
  {
    if |cards| == 0 then 0
    else CountHeading(cards[..|cards| - 1], heading) + (if cards[|cards| - 1].heading == heading then 1 else 0)
  }

  lemma {:induction false} CountHeadingAppend(a: seq<Card>, b: seq<Card>, heading: string)
    ensures CountHeading(a + b, heading) == CountHeading(a, heading) + CountHeading(b, heading)
    decreases |b|
  {
    if |b| == 0 {
      assert a + b == a;
    } else {
      assert (a + b)[..|a + b| - 1] == a + b[..|b| - 1];
      CountHeadingAppend(a, b[..|b| - 1], heading);
    }
  }

  lemma {:induction false} CountHeadingAll(cards: seq<Card>, heading: string)
    requires forall c :: c in cards ==> c.heading == heading
    ensures CountHeading(cards, heading) == |cards|
    decreases |cards|
  {
    if |cards| > 0 {
      CountHeadingAll(cards[..|cards| - 1], heading);
    }
  }

  lemma {:induction false} CountHeadingNone(cards: seq<Card>, heading: string)
    requires forall c :: c in cards ==> c.heading != heading
    ensures CountHeading(cards, heading) == 0
    decreases |cards|
  {
    if |cards| > 0 {
      CountHeadingNone(cards[..|cards| - 1], heading);
    }
  }

  /** The heading of the build/image conflict card of service `name`. */
  function ConflictHeading(name: string): string {
    "Conflicting values for service " + name
  }

  /**
   * A warning about service `name`: an unsupported key under one of its scopes
   * ("Unsupported service <name> ..."), a dropped port ("service <name> - ..."),
   * an unsupported volume type whose message names the service, or the
   * build/image conflict of that service.
   */
  predicate ServiceCard(c: Card, name: string) {
    c.level == Warning &&
    (|| StartsWith(c.heading, "Unsupported service " + name + " ")
     || StartsWith(c.heading, "service " + name + " - ")
     || (StartsWith(c.heading, "Unsupported volume type ") &&
         c.message == "This volume type specified for service " + name + " is not supported.")
     || c.heading == ConflictHeading(name))
  }

  /** A warning a value normaliser may emit about service `name`: any of its cards but the conflict. */
  predicate NormaliserWarning(c: Card, name: string) {
    ServiceCard(c, name) && c.heading != ConflictHeading(name)
  }

  /** Two strings that differ in their first character. */
  lemma DifferentFirst(s: string, t: string)
    requires |s| > 0 && |t| > 0 && s[0] != t[0]
    ensures s != t && !StartsWith(s, t)
  {
  }

  /**
   * The unsupported-key cards scoped "service <name>" or "service <name> <scope>"
   * are warnings about service `name`.
   */
  lemma ServiceScopedKeyWarnings(name: string, scope: string, supported: seq<string>, provided: seq<string>)
    requires scope == "" || scope[0] == ' '
    ensures forall c :: c in UnsupportedKeyWarnings("service " + name + scope, supported, provided) ==> NormaliserWarning(c, name)
  {
    var prefix := "Unsupported service " + name + " ";
    var tail := if scope == "" then "key" else scope[1..] + " key";
    var heading := "Unsupported " + ("service " + name + scope) + " key";
    assert heading == prefix + tail by {
      if scope != "" {
        assert scope == " " + scope[1..];
      }
    }
    assert (prefix + tail)[..|prefix|] == prefix;
    DifferentFirst(heading, ConflictHeading(name));
  }

  /** No warning about a service carries the heading of an unsupported root key. */
  lemma ServiceCardIsNotRoot(c: Card, name: string)
    requires ServiceCard(c, name)
    ensures c.heading != "Unsupported root key"
  {
    var root := "Unsupported root key";
    assert |"Unsupported service " + name + " "| > |root|;
    assert |"Unsupported volume type "| > |root|;
    DifferentFirst(root, "service " + name + " - ");
    DifferentFirst(root, ConflictHeading(name));
  }
}
