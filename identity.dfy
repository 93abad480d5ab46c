/**
 * The identity store of the monitor (src/main.cpp, `generateDeviceId` and
 * `getOrCreateDeviceId`): a six-letter device id drawn from a pseudo-random
 * generator, persisted once in the Preferences (NVS) store under the key
 * "id" of the namespace "device", and read back unchanged on later boots.
 */
module Identity {
  import opened Wrappers

  /** The letters an id is spelled from, indexed by `random(0, 26)`. */
  const Charset: string := "abcdefghijklmnopqrstuvwxyz"

  /** Number of letters in a device id. */
  const IdLength: nat := 6

  /** The Preferences namespace and key the id lives under. */
  const Namespace: string := "device"
  const IdKey: string := "id"

  /** One value returned by `random(0, 26)`: an index into Charset. */
  type Draw = x: int | 0 <= x < 26

  /**
   * The pseudo-random generator after `randomSeed(ESP.getEfuseMac())`:
   * `rng(k)` is what the k-th call of `random(0, 26)` returns.
   */
  type Rng = nat -> Draw

  predicate IsIdLetter(c: char) {
    'a' <= c <= 'z'
  }

  /** A well-formed device id: exactly six letters from 'a' to 'z'. */
  predicate WellFormedId(id: string) {
    |id| == IdLength && forall i :: 0 <= i < |id| ==> IsIdLetter(id[i])
  }

  /** Charset holds the alphabet in order. */
  lemma CharsetIsAlphabet(k: nat)
    requires k < 26
    ensures |Charset| == 26
    ensures Charset[k] == ('a' as int + k) as char
  {
    assert Charset == ['a', 'b', 'c', 'd', 'e', 'f', 'g', 'h', 'i', 'j', 'k', 'l', 'm',
                       'n', 'o', 'p', 'q', 'r', 's', 't', 'u', 'v', 'w', 'x', 'y', 'z'];
  }

  /** The first n values the generator yields. */
  function Draws(rng: Rng, n: nat): (ds: seq<Draw>)
    ensures |ds| == n
  {
    seq(n, i requires 0 <= i => rng(i))
  }

  /** The letters that a sequence of draws picks out of Charset. */
  function Spell(ds: seq<Draw>): (s: string)
    ensures |s| == |ds|
    ensures forall i :: 0 <= i < |s| ==> IsIdLetter(s[i])
  {
    if ds == [] then []
    else
      var k := ds[|ds| - 1];
      CharsetIsAlphabet(k);
      Spell(ds[..|ds| - 1]) + [Charset[k]]
  }

  /** The index of a letter in Charset. */
  function LetterIndex(c: char): Draw
    requires IsIdLetter(c)
  {
    c as int - 'a' as int
  }

  /** Inverse of Spell: the draws that spell a lower-case word. */
  function Unspell(s: string): (ds: seq<Draw>)
    requires forall i :: 0 <= i < |s| ==> IsIdLetter(s[i])
    ensures |ds| == |s|
  {
    seq(|s|, i requires 0 <= i < |s| => LetterIndex(s[i]))
  }

  /** Spell picks Charset[ds[i]] at position i. */
  lemma {:induction false} SpellAt(ds: seq<Draw>, i: nat)
    requires i < |ds|
    ensures Spell(ds)[i] == Charset[ds[i]]
  {
    if i < |ds| - 1 {
      SpellAt(ds[..|ds| - 1], i);
    }
  }

  /** Decoding a spelled word gives back the draws: distinct draws give distinct ids. */
  lemma SpellInjective(ds: seq<Draw>)
    ensures Unspell(Spell(ds)) == ds
  {
    var s := Spell(ds);
    forall i | 0 <= i < |ds|
      ensures Unspell(s)[i] == ds[i]
    {
      SpellAt(ds, i);
      CharsetIsAlphabet(ds[i]);
    }
  }

  /** Every lower-case word is spelled by some draws: every well-formed id can be generated. */
  lemma SpellSurjective(s: string)
    requires forall i :: 0 <= i < |s| ==> IsIdLetter(s[i])
    ensures Spell(Unspell(s)) == s
  {
    var ds := Unspell(s);
    forall i | 0 <= i < |s|
      ensures Spell(ds)[i] == s[i]
    {
      SpellAt(ds, i);
      CharsetIsAlphabet(ds[i]);
    }
  }

  /**
   * `generateDeviceId`: append Charset[random(0, 26)] six times. The id is
   * well-formed and is exactly the spelling of the generator's first six draws.
   */
  method GenerateDeviceId(rng: Rng) returns (id: string)
    ensures WellFormedId(id)
    ensures id == Spell(Draws(rng, IdLength))
  {
    id := "";
    for i := 0 to IdLength
      invariant id == Spell(Draws(rng, i))
    {
      assert Draws(rng, i + 1)[..i] == Draws(rng, i);
      CharsetIsAlphabet(rng(i));
      id := id + [Charset[rng(i)]];
    }
  }

  /** The NVS contents: namespace -> key -> stored string. */
  type Namespaces = map<string, map<string, string>>

  /** The entries of one namespace; a namespace never written is empty. */
  function Entries(nvs: Namespaces, ns: string): map<string, string> {
    if ns in nvs then nvs[ns] else map[]
  }

  /**
   * The id a boot finds in the store: a missing key and an empty stored
   * string both count as absent.
   */
  function StoredId(nvs: Namespaces): Option<string> {
    var e := Entries(nvs, Namespace);
    if IdKey in e && e[IdKey] != "" then Some(e[IdKey]) else None
  }

  /** The store after `putString("id", id)` in namespace "device"; nothing else changes. */
  function WithId(nvs: Namespaces, id: string): Namespaces {
    nvs[Namespace := Entries(nvs, Namespace)[IdKey := id]]
  }

  /**
   * What `getOrCreateDeviceId` returns and leaves in the store: the stored
   * id when there is one, else a fresh id that is written before it is
   * returned. Afterwards the store holds the returned id.
   */
  function GetOrCreate(nvs: Namespaces, rng: Rng): (r: (string, Namespaces))
    ensures StoredId(r.1) == Some(r.0)
  {
    match StoredId(nvs)
    case Some(id) => (id, nvs)
    case None =>
      var id := Spell(Draws(rng, IdLength));
      (id, WithId(nvs, id))
  }

  /** A present, non-empty id is returned unchanged and the store is not touched. */
  lemma ExistingIdKept(nvs: Namespaces, rng: Rng)
    requires StoredId(nvs).Some?
    ensures GetOrCreate(nvs, rng) == (StoredId(nvs).value, nvs)
  {
  }

  /**
   * An absent or empty id is replaced by a fresh well-formed one, written
   * under "id" in namespace "device", and no other key or namespace changes.
   */
  lemma {:induction false} FreshIdCreated(nvs: Namespaces, rng: Rng)
    requires StoredId(nvs).None?
    ensures WellFormedId(GetOrCreate(nvs, rng).0)
    ensures GetOrCreate(nvs, rng).1.Keys == nvs.Keys + {Namespace}
    ensures forall ns :: ns in nvs && ns != Namespace ==> GetOrCreate(nvs, rng).1[ns] == nvs[ns]
    ensures Entries(GetOrCreate(nvs, rng).1, Namespace) == Entries(nvs, Namespace)[IdKey := GetOrCreate(nvs, rng).0]
  {
  }

  /**
   * Idempotence: a second call on the store the first call left, whatever
   * the generator yields then (a reboot with the store preserved), returns
   * the same id and leaves the store as it is.
   */
  lemma GetOrCreateIdempotent(nvs: Namespaces, rng: Rng, rng': Rng)
    ensures GetOrCreate(GetOrCreate(nvs, rng).1, rng') == GetOrCreate(nvs, rng)
  {
  }

  /** A store whose id, if any, is well-formed. */
  predicate IdStoreValid(nvs: Namespaces) {
    StoredId(nvs).Some? ==> WellFormedId(StoredId(nvs).value)
  }

  /** Starting from a store holding no id or a well-formed one, the id a boot returns is well-formed. */
  lemma WellFormedIdKept(nvs: Namespaces, rng: Rng)
    requires IdStoreValid(nvs)
    ensures WellFormedId(GetOrCreate(nvs, rng).0)
    ensures IdStoreValid(GetOrCreate(nvs, rng).1)
  {
  }

  /**
   * The on-device Preferences store (NVS). It survives restarts; `writes`
   * counts the `putString` calls that reached it.
   */
  class Preferences {
    var namespaces: Namespaces
    var writes: nat

    constructor (contents: Namespaces)
      ensures namespaces == contents && writes == 0
    {
      namespaces := contents;
      writes := 0;
    }

    /** `isKey(key)` in namespace ns. */
    method IsKey(ns: string, key: string) returns (present: bool)
      ensures present <==> key in Entries(namespaces, ns)
    {
      present := key in Entries(namespaces, ns);
    }

    /** `getString(key, fallback)` in namespace ns: the stored string, or fallback if none. */
    method GetString(ns: string, key: string, fallback: string) returns (v: string)
      ensures key in Entries(namespaces, ns) ==> v == Entries(namespaces, ns)[key]
      ensures key !in Entries(namespaces, ns) ==> v == fallback
    {
      var e := Entries(namespaces, ns);
      v := if key in e then e[key] else fallback;
    }

    /** `putString(key, value)` in namespace ns. */
    method PutString(ns: string, key: string, value: string)
      modifies this
      ensures namespaces == old(namespaces)[ns := Entries(old(namespaces), ns)[key := value]]
      ensures writes == old(writes) + 1
    {
      namespaces := namespaces[ns := Entries(namespaces, ns)[key := value]];
      writes := writes + 1;
    }
  }

  /**
   * `getOrCreateDeviceId`: read the id from namespace "device"; when it is
   * missing or empty, generate one and store it. The result and the new
   * store are those of GetOrCreate, and exactly one write happens, on the
   * create path only.
   */
  method GetOrCreateDeviceId(preferences: Preferences, rng: Rng) returns (id: string)
    modifies preferences
    ensures (id, preferences.namespaces) == GetOrCreate(old(preferences.namespaces), rng)
    ensures preferences.writes == old(preferences.writes) + (if StoredId(old(preferences.namespaces)).Some? then 0 else 1)
  {
    var storedId := "";
    var present := preferences.IsKey(Namespace, IdKey);
    if present {
      storedId := preferences.GetString(Namespace, IdKey, "");
    }
    if |storedId| == 0 {
      storedId := GenerateDeviceId(rng);
      preferences.PutString(Namespace, IdKey, storedId);
    }
    id := storedId;
  }
}
