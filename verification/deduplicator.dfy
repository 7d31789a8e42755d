/** The registration deduplicator: one keyed merge, generic over the function
    that gives an item its identity, instantiated for tools (by name),
    resources (by URI) and prompts (by name).

    Incoming items are checked only against the keys present in `existing`
    when the call starts; two incoming items that share a key absent from
    `existing` both survive. */
module Deduplicator {
  import opened Entities
  import opened Strings

  /** The identity keys carried by the items of `xs`. */
  function KeysOf<T(==,!new)>(xs: seq<T>, key: T -> string): (ks: set<string>)
    ensures forall x :: x in xs ==> key(x) in ks
    ensures forall k :: k in ks ==> exists x :: x in xs && key(x) == k
  {
    set x | x in xs :: key(x)
  }

  /** The items of `incoming` whose key is not in `taken`, in input order. */
  function Survivors<T(==,!new)>(incoming: seq<T>, taken: set<string>, key: T -> string): (r: seq<T>)
    ensures |r| <= |incoming|
    ensures forall x :: x in r <==> x in incoming && key(x) !in taken
  {
    if incoming == [] then []
    else
      assert forall x :: x in incoming <==> x == incoming[0] || x in incoming[1..];
      var rest := Survivors(incoming[1..], taken, key);
      if key(incoming[0]) in taken then rest else [incoming[0]] + rest
  }

  /** The merge: `existing` unchanged, then the surviving incoming items. */
  function Deduplicate<T(==,!new)>(existing: seq<T>, incoming: seq<T>, key: T -> string): (r: seq<T>)
    ensures |existing| <= |r| && r[..|existing|] == existing
    ensures forall x :: x in r <==> x in existing || (x in incoming && key(x) !in KeysOf(existing, key))
  {
    existing + Survivors(incoming, KeysOf(existing, key), key)
  }

  /** The merge as the source writes it: copy `existing`, collect its keys once,
      then append every incoming item whose key is not among them. */
  method DeduplicateLoop<T(==,!new)>(existing: seq<T>, incoming: seq<T>, key: T -> string) returns (result: seq<T>)
    ensures result == Deduplicate(existing, incoming, key)
  {
    result := existing;
    var existingKeys := KeysOf(existing, key);
    for i := 0 to |incoming|
      invariant result == existing + Survivors(incoming[..i], existingKeys, key)
    {
      SurvivorsAppend(incoming[..i], [incoming[i]], existingKeys, key);
      assert incoming[..i + 1] == incoming[..i] + [incoming[i]];
      if key(incoming[i]) !in existingKeys {
        result := result + [incoming[i]];
      }
    }
    assert incoming[..|incoming|] == incoming;
  }

  /** Survivors of a concatenation are the survivors of each part, in order. */
  lemma {:induction false} SurvivorsAppend<T(!new)>(a: seq<T>, b: seq<T>, taken: set<string>, key: T -> string)
    ensures Survivors(a + b, taken, key) == Survivors(a, taken, key) + Survivors(b, taken, key)
    decreases |a|
  {
    if a == [] {
      assert a + b == b;
    } else {
      assert (a + b)[1..] == a[1..] + b;
      assert (a + b)[0] == a[0];
      SurvivorsAppend(a[1..], b, taken, key);
    }
  }

  /** The positions of `incoming` whose item survives against `taken`. */
  function FreshPositions<T(!new)>(incoming: seq<T>, taken: set<string>, key: T -> string): set<int>
  {
    set i | 0 <= i < |incoming| && key(incoming[i]) !in taken
  }

  /** One survivor per incoming position whose key is not taken. */
  lemma {:induction false} SurvivorsCount<T(!new)>(incoming: seq<T>, taken: set<string>, key: T -> string)
    ensures |Survivors(incoming, taken, key)| == |FreshPositions(incoming, taken, key)|
    decreases |incoming|
  {
    if incoming == [] {
      assert FreshPositions(incoming, taken, key) == {};
    } else {
      var n := |incoming| - 1;
      var front := incoming[..n];
      assert incoming == front + [incoming[n]];
      SurvivorsAppend(front, [incoming[n]], taken, key);
      SurvivorsCount(front, taken, key);
      var before := FreshPositions(front, taken, key);
      var after := FreshPositions(incoming, taken, key);
      if key(incoming[n]) in taken {
        assert after == before;
      } else {
        assert after == before + {n};
        assert n !in before;
      }
    }
  }

  /** The merge's length is |existing| plus the number of incoming items whose
      key is absent from `existing`. */
  lemma DeduplicateLength<T(!new)>(existing: seq<T>, incoming: seq<T>, key: T -> string)
    ensures |Deduplicate(existing, incoming, key)| == |existing| + |FreshPositions(incoming, KeysOf(existing, key), key)|
  {
    SurvivorsCount(incoming, KeysOf(existing, key), key);
  }

  /** Nothing survives when every incoming key is already taken. */
  lemma SurvivorsAllTaken<T(!new)>(incoming: seq<T>, taken: set<string>, key: T -> string)
    requires forall x :: x in incoming ==> key(x) in taken
    ensures Survivors(incoming, taken, key) == []
  {
  }

  /** Everything survives when no key is taken. */
  lemma {:induction false} SurvivorsNoneTaken<T(!new)>(incoming: seq<T>, key: T -> string)
    ensures Survivors(incoming, {}, key) == incoming
    decreases |incoming|
  {
    if incoming != [] {
      SurvivorsNoneTaken(incoming[1..], key);
      assert incoming == [incoming[0]] + incoming[1..];
    }
  }

  /** Merging into nothing keeps every incoming item, duplicates included. */
  lemma DeduplicateOntoEmpty<T(!new)>(incoming: seq<T>, key: T -> string)
    ensures Deduplicate([], incoming, key) == incoming
  {
    assert KeysOf([], key) == {};
    SurvivorsNoneTaken(incoming, key);
  }

  /** Merging nothing leaves `existing` as it is. */
  lemma DeduplicateNothing<T(!new)>(existing: seq<T>, key: T -> string)
    ensures Deduplicate(existing, [], key) == existing
  {
  }

  /** Merging a sequence into itself changes nothing. */
  lemma DeduplicateSelf<T(!new)>(xs: seq<T>, key: T -> string)
    ensures Deduplicate(xs, xs, key) == xs
  {
    SurvivorsAllTaken(xs, KeysOf(xs, key), key);
  }

  /** Adding the same batch a second time changes nothing. */
  lemma DeduplicateTwice<T(!new)>(existing: seq<T>, incoming: seq<T>, key: T -> string)
    ensures Deduplicate(Deduplicate(existing, incoming, key), incoming, key) == Deduplicate(existing, incoming, key)
  {
    var once := Deduplicate(existing, incoming, key);
    forall x | x in incoming
      ensures key(x) in KeysOf(once, key)
    {
      if key(x) in KeysOf(existing, key) {
        var e :| e in existing && key(e) == key(x);
        assert e in once;
      } else {
        assert x in once;
      }
    }
    SurvivorsAllTaken(incoming, KeysOf(once, key), key);
  }

  /** Two incoming items with the same key both survive when that key is not
      already registered: keys are never compared among incoming items. */
  lemma BatchDuplicatesKept<T(!new)>(existing: seq<T>, a: T, b: T, key: T -> string)
    requires key(a) == key(b)
    requires key(a) !in KeysOf(existing, key)
    ensures Deduplicate(existing, [a, b], key) == existing + [a, b]
  {
  }

  /** No two items of `xs` share a key. */
  predicate UniqueKeys<T(!new)>(xs: seq<T>, key: T -> string)
  {
    forall i, j :: 0 <= i < j < |xs| ==> key(xs[i]) != key(xs[j])
  }

  /** Survivors of a sequence with unique keys have unique keys. */
  lemma {:induction false} SurvivorsUnique<T(!new)>(incoming: seq<T>, taken: set<string>, key: T -> string)
    requires UniqueKeys(incoming, key)
    ensures UniqueKeys(Survivors(incoming, taken, key), key)
    decreases |incoming|
  {
    if incoming != [] {
      var tail := incoming[1..];
      assert UniqueKeys(tail, key) by {
        forall i, j | 0 <= i < j < |tail|
          ensures key(tail[i]) != key(tail[j])
        {
          assert tail[i] == incoming[i + 1] && tail[j] == incoming[j + 1];
        }
      }
      SurvivorsUnique(tail, taken, key);
      var rest := Survivors(tail, taken, key);
      if key(incoming[0]) !in taken {
        var r := [incoming[0]] + rest;
        forall i, j | 0 <= i < j < |r|
          ensures key(r[i]) != key(r[j])
        {
          if i == 0 {
            assert r[j] == rest[j - 1] && rest[j - 1] in rest;
            assert r[j] in tail;
            var k :| 0 <= k < |tail| && tail[k] == r[j];
            assert incoming[k + 1] == r[j];
          } else {
            assert r[i] == rest[i - 1] && r[j] == rest[j - 1];
          }
        }
      }
    }
  }

  /** If neither input repeats a key, the merge repeats no key. */
  lemma DeduplicateKeepsKeysUnique<T(!new)>(existing: seq<T>, incoming: seq<T>, key: T -> string)
    requires UniqueKeys(existing, key)
    requires UniqueKeys(incoming, key)
    ensures UniqueKeys(Deduplicate(existing, incoming, key), key)
  {
    var taken := KeysOf(existing, key);
    var added := Survivors(incoming, taken, key);
    SurvivorsUnique(incoming, taken, key);
    var r := existing + added;
    forall i, j | 0 <= i < j < |r|
      ensures key(r[i]) != key(r[j])
    {
      if j < |existing| {
        assert r[i] == existing[i] && r[j] == existing[j];
      } else if i >= |existing| {
        assert r[i] == added[i - |existing|] && r[j] == added[j - |existing|];
      } else {
        assert r[i] == existing[i] && key(r[i]) in taken;
        assert r[j] == added[j - |existing|] && r[j] in added;
      }
    }
  }

  /** Tools are identified by name, compared as Swift compares strings. */
  function ToolKey(canon: string -> string): Tool -> string
  {
    (t: Tool) => canon(t.name)
  }

  /** Resources are identified by URI, compared as Swift compares strings. */
  function ResourceKey(canon: string -> string): Resource -> string
  {
    (r: Resource) => canon(r.uri)
  }

  /** Prompts are identified by name, compared as Swift compares strings. */
  function PromptKey(canon: string -> string): Prompt -> string
  {
    (p: Prompt) => canon(p.name)
  }

  /** `ToolDeduplicator.deduplicate(_:adding:)`. */
  function DeduplicateTools(existing: seq<Tool>, incoming: seq<Tool>, canon: string -> string): (r: seq<Tool>)
    ensures |existing| <= |r| && r[..|existing|] == existing
    ensures forall t :: t in r <==>
      t in existing || (t in incoming && forall e :: e in existing ==> !SwiftEqual(canon, e.name, t.name))
  {
    Deduplicate(existing, incoming, ToolKey(canon))
  }

  /** `ResourceDeduplicator.deduplicate(_:adding:)`. */
  function DeduplicateResources(existing: seq<Resource>, incoming: seq<Resource>, canon: string -> string): (r: seq<Resource>)
    ensures |existing| <= |r| && r[..|existing|] == existing
    ensures forall x :: x in r <==>
      x in existing || (x in incoming && forall e :: e in existing ==> !SwiftEqual(canon, e.uri, x.uri))
  {
    Deduplicate(existing, incoming, ResourceKey(canon))
  }

  /** `PromptDeduplicator.deduplicate(_:adding:)`. */
  function DeduplicatePrompts(existing: seq<Prompt>, incoming: seq<Prompt>, canon: string -> string): (r: seq<Prompt>)
    ensures |existing| <= |r| && r[..|existing|] == existing
    ensures forall p :: p in r <==>
      p in existing || (p in incoming && forall e :: e in existing ==> !SwiftEqual(canon, e.name, p.name))
  {
    Deduplicate(existing, incoming, PromptKey(canon))
  }

  /** A tool whose name is canonically equivalent to a registered one is
      dropped, even when the two names differ code point by code point. */
  lemma EquivalentToolNameDropped(existing: seq<Tool>, original: Tool, incoming: Tool, canon: string -> string)
    requires original in existing
    requires SwiftEqual(canon, incoming.name, original.name)
    ensures DeduplicateTools(existing, [incoming], canon) == existing
  {
  }

  /** A resource whose URI is already registered is dropped whatever its name:
      the registered one is kept and nothing is added. */
  lemma ResourceIdentityIsUri(existing: seq<Resource>, original: Resource, incoming: Resource, canon: string -> string)
    requires original in existing
    requires SwiftEqual(canon, incoming.uri, original.uri)
    ensures DeduplicateResources(existing, [incoming], canon) == existing
  {
  }
}
