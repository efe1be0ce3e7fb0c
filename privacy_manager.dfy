/**
 * The consent-gated storage manager of the week-7 page: a wrapper over the
 * browser's string-keyed localStorage that namespaces its keys with a prefix,
 * stamps every entry with an absolute expiry time, refuses writes until the
 * user has consented, and deletes expired entries lazily on read and eagerly
 * on page load. The current time (milliseconds) is a parameter of every
 * operation that reads the clock.
 */
module PrivacyManager {
  import opened Options

  const StoragePrefix: string := "driftHub_"
  const ExpirationDays: int := 30
  const ConsentDays: int := 365
  const DayMs: int := 24 * 60 * 60 * 1000
  /** The name under which the consent answer is kept. */
  const ConsentName: string := "consent"

  /**
   * A stored value: a JSON boolean is `Bool`; any other JSON value is kept as
   * its text in `Data`, which never holds the text of a boolean.
   */
  datatype Value = Bool(b: bool) | Data(json: string)

  /**
   * What localStorage holds under a key: an entry written by this manager, a
   * value with its expiry, or `Unparseable` text, which JSON.parse rejects.
   */
  datatype Entry = Entry(value: Value, expiry: int) | Unparseable(raw: string)

  /** An operation's reply, or the SyntaxError that JSON.parse throws on unparseable text. */
  datatype Result<T> = Ok(value: T) | SyntaxError

  /** One record of the listing shown to the user. */
  datatype StoredItem = StoredItem(name: string, value: Value, expires: int)

  /** The contents of localStorage. */
  type Store = map<string, Entry>

  predicate HasPrefix(k: string) {
    StoragePrefix <= k
  }

  /** The storage key of a name: the prefix put in front of it, which stripping takes off again. */
  function Key(name: string): (k: string)
    ensures HasPrefix(k) && k[|StoragePrefix|..] == name
  {
    StoragePrefix + name
  }

  lemma KeyOfStripped(k: string)
    requires HasPrefix(k)
    ensures Key(k[|StoragePrefix|..]) == k
  {
  }

  predicate Expired(e: Entry, now: int) {
    e.Entry? && now > e.expiry
  }

  /** What reading `name` at time `now` returns. */
  function ReadReply(s: Store, name: string, now: int): Result<Option<Value>> {
    var k := Key(name);
    if k !in s then Ok(None)
    else match s[k]
      case Unparseable(raw) => if raw == "" then Ok(None) else SyntaxError
      case Entry(v, expiry) => if now > expiry then Ok(None) else Ok(Some(v))
  }

  /** The store after reading `name` at time `now`: an expired entry is gone. */
  function AfterRead(s: Store, name: string, now: int): Store {
    var k := Key(name);
    if k in s && Expired(s[k], now) then s - {k} else s
  }

  /** Whether the user has consented, as read at time `now`. */
  function ConsentReply(s: Store, now: int): Result<bool> {
    match ReadReply(s, ConsentName, now)
    case SyntaxError => SyntaxError
    case Ok(v) => Ok(v == Some(Bool(true)))
  }

  predicate ConsentExpired(s: Store, now: int) {
    Key(ConsentName) in s && Expired(s[Key(ConsentName)], now)
  }

  /** What saving `v` under `name` at time `now` returns: whether it was written. */
  function SaveReply(s: Store, name: string, v: Value, now: int): Result<bool> {
    match ConsentReply(s, now)
    case SyntaxError => SyntaxError
    case Ok(granted) => Ok(granted || name == ConsentName)
  }

  /** The store after saving `v` under `name` at time `now`. */
  function AfterSave(s: Store, name: string, v: Value, now: int): Store {
    var t := AfterRead(s, ConsentName, now);
    if SaveReply(s, name, v, now) == Ok(true) then t[Key(name) := Entry(v, now + ExpirationDays * DayMs)] else t
  }

  /** The store after recording the consent answer `granted` at time `now`. */
  function AfterSetConsent(s: Store, granted: bool, now: int): Store {
    s[Key(ConsentName) := Entry(Bool(granted), now + ConsentDays * DayMs)]
  }

  /** Whether the user has answered the consent question at all. */
  predicate Answered(s: Store) {
    Key(ConsentName) in s
  }

  /** The store with every prefixed key removed. */
  function Cleared(s: Store): Store {
    map k | k in s && !HasPrefix(k) :: s[k]
  }

  /** The store with every expired prefixed entry removed. */
  function Swept(s: Store, now: int): Store {
    map k | k in s && !(HasPrefix(k) && Expired(s[k], now)) :: s[k]
  }

  /**
   * `items` lists the prefixed entries of `s` exactly: one record per prefixed
   * key, named by the key without its prefix, with the entry's value and expiry.
   */
  predicate IsListing(s: Store, items: seq<StoredItem>) {
    && (forall i :: 0 <= i < |items| ==>
          Key(items[i].name) in s && s[Key(items[i].name)] == Entry(items[i].value, items[i].expires))
    && (forall k :: k in s && HasPrefix(k) ==> exists i :: 0 <= i < |items| && Key(items[i].name) == k)
    && (forall i, j :: 0 <= i < j < |items| ==> items[i].name != items[j].name)
  }

  /** The storage keys named by a listing. */
  function ListedKeys(items: seq<StoredItem>): set<string> {
    if items == [] then {} else ListedKeys(items[..|items| - 1]) + {Key(items[|items| - 1].name)}
  }

  lemma {:induction false} ListedKeysMembers(items: seq<StoredItem>, k: string)
    ensures k in ListedKeys(items) <==> exists i :: 0 <= i < |items| && Key(items[i].name) == k
  {
    if items != [] {
      var init := items[..|items| - 1];
      ListedKeysMembers(init, k);
      if k in ListedKeys(init) {
        var i :| 0 <= i < |init| && Key(init[i].name) == k;
        assert items[i] == init[i];
      }
      if exists i :: 0 <= i < |items| && Key(items[i].name) == k {
        var i :| 0 <= i < |items| && Key(items[i].name) == k;
        if i < |init| {
          assert init[i] == items[i];
        }
      }
    }
  }

  /** Records with distinct names name as many distinct keys as there are records. */
  lemma {:induction false} ListedKeysCount(items: seq<StoredItem>)
    requires forall i, j :: 0 <= i < j < |items| ==> items[i].name != items[j].name
    ensures |ListedKeys(items)| == |items|
  {
    if items != [] {
      var init, last := items[..|items| - 1], items[|items| - 1];
      ListedKeysCount(init);
      ListedKeysMembers(init, Key(last.name));
      assert Key(last.name) !in ListedKeys(init);
    }
  }

  /** The prefixed keys of a store. */
  function PrefixedKeys(s: Store): set<string> {
    set k | k in s && HasPrefix(k)
  }

  /** A listing has exactly as many records as the store has prefixed keys. */
  lemma ListingCount(s: Store, items: seq<StoredItem>)
    requires IsListing(s, items)
    ensures |items| == |PrefixedKeys(s)|
  {
    forall k ensures k in ListedKeys(items) <==> k in PrefixedKeys(s) {
      ListedKeysMembers(items, k);
    }
    assert ListedKeys(items) == PrefixedKeys(s);
    ListedKeysCount(items);
  }

  /** The answer of the consent gate in front of the location request. */
  datatype LocationGate = NeedConsent | AskBrowser

  /** The manager, over the browser's localStorage. */
  class PrivacyStore {
    /** Every key of localStorage, prefixed or not. */
    var items: Store

    constructor (initial: Store)
      ensures items == initial
    {
      items := initial;
    }

    /** Reads `name`, removing it if it has expired. */
    method GetData(name: string, now: int) returns (r: Result<Option<Value>>)
      modifies this
      ensures r == ReadReply(old(items), name, now)
      ensures items == AfterRead(old(items), name, now)
    {
      var k := Key(name);
      if k !in items || items[k] == Unparseable("") {
        return Ok(None);
      }
      match items[k]
      case Unparseable(_) =>
        return SyntaxError;
      case Entry(v, expiry) =>
        if now > expiry {
          RemoveData(name);
          return Ok(None);
        }
        return Ok(Some(v));
    }

    method RemoveData(name: string)
      modifies this
      ensures items == old(items) - {Key(name)}
    {
      items := items - {Key(name)};
    }

    /** Saves `v` under `name` for 30 days, if the user has consented or `name` is the consent itself. */
    method SaveData(name: string, v: Value, now: int) returns (r: Result<bool>)
      modifies this
      ensures r == SaveReply(old(items), name, v, now)
      ensures items == AfterSave(old(items), name, v, now)
    {
      var consent := GetConsent(now);
      if consent.SyntaxError? {
        return SyntaxError;
      }
      if !consent.value && name != ConsentName {
        return Ok(false);
      }
      items := items[Key(name) := Entry(v, now + ExpirationDays * DayMs)];
      return Ok(true);
    }

    /** Records the consent answer for a year; no consent is needed to do so. */
    method SetConsent(granted: bool, now: int)
      modifies this
      ensures items == AfterSetConsent(old(items), granted, now)
    {
      items := items[Key(ConsentName) := Entry(Bool(granted), now + ConsentDays * DayMs)];
    }

    method GetConsent(now: int) returns (r: Result<bool>)
      modifies this
      ensures r == ConsentReply(old(items), now)
      ensures items == AfterRead(old(items), ConsentName, now)
    {
      var answer := GetData(ConsentName, now);
      if answer.SyntaxError? {
        return SyntaxError;
      }
      return Ok(answer.value == Some(Bool(true)));
    }

    /**
     * Whether the raw consent key is present, expired or not; what this means
     * for the consent check is stated by AnsweredEvenIfExpired.
     */
    function HasAnsweredConsent(): (r: bool)
      reads this
      ensures r == Answered(items)
    {
      Key(ConsentName) in items
    }

    /** Removes every prefixed key, one key at a time. */
    method ClearAllData()
      modifies this
      ensures items == Cleared(old(items))
    {
      var keys := items.Keys;
      while keys != {}
        invariant keys <= old(items).Keys
        invariant forall k :: k in items <==> k in old(items) && (k in keys || !HasPrefix(k))
        invariant forall k :: k in items ==> items[k] == old(items)[k]
        decreases keys
      {
        var k :| k in keys;
        if HasPrefix(k) {
          items := items - {k};
        }
        keys := keys - {k};
      }
    }

    /**
     * Lists the prefixed entries; an unparseable prefixed entry makes the
     * listing throw.
     */
    method GetAllStoredData() returns (r: Result<seq<StoredItem>>)
      ensures r.SyntaxError? <==> exists k :: k in items && HasPrefix(k) && items[k].Unparseable?
      ensures r.Ok? ==> IsListing(items, r.value)
    {
      var all: seq<StoredItem> := [];
      var keys := items.Keys;
      while keys != {}
        invariant keys <= items.Keys
        invariant forall k :: k in items && HasPrefix(k) && k !in keys ==> items[k].Entry?
        invariant forall i :: 0 <= i < |all| ==>
          Key(all[i].name) in items && Key(all[i].name) !in keys
          && items[Key(all[i].name)] == Entry(all[i].value, all[i].expires)
        invariant forall k :: k in items && HasPrefix(k) && k !in keys ==>
          exists i :: 0 <= i < |all| && Key(all[i].name) == k
        invariant forall i, j :: 0 <= i < j < |all| ==> all[i].name != all[j].name
        decreases keys
      {
        var k :| k in keys;
        if HasPrefix(k) {
          match items[k]
          case Unparseable(_) =>
            return SyntaxError;
          case Entry(v, expiry) =>
            KeyOfStripped(k);
            ghost var before := all;
            all := all + [StoredItem(k[|StoragePrefix|..], v, expiry)];
            assert Key(all[|before|].name) == k;
            assert forall i :: 0 <= i < |before| ==> all[i] == before[i];
        }
        keys := keys - {k};
      }
      return Ok(all);
    }

    /**
     * The consent gate of the location request: without consent the caller is
     * told so at once; with it the browser is asked for a position.
     */
    method RequestLocation(now: int) returns (r: Result<LocationGate>)
      modifies this
      ensures r == Ok(NeedConsent) <==> ConsentReply(old(items), now) == Ok(false)
      ensures r == Ok(AskBrowser) <==> ConsentReply(old(items), now) == Ok(true)
      ensures r == SyntaxError <==> ConsentReply(old(items), now) == SyntaxError
      ensures items == AfterRead(old(items), ConsentName, now)
    {
      var consent := GetConsent(now);
      if consent.SyntaxError? {
        return SyntaxError;
      }
      if !consent.value {
        return Ok(NeedConsent);
      }
      return Ok(AskBrowser);
    }

    /** Reads the saved location. */
    method GetLocation(now: int) returns (r: Result<Option<Value>>)
      modifies this
      ensures r == ReadReply(old(items), "userLocation", now)
      ensures items == AfterRead(old(items), "userLocation", now)
    {
      r := GetData("userLocation", now);
    }

    method RemoveLocation()
      modifies this
      ensures items == old(items) - {Key("userLocation")}
    {
      RemoveData("userLocation");
    }

    /** The sweep run when the page loads: every expired prefixed entry is removed. */
    method SweepExpired(now: int)
      modifies this
      ensures items == Swept(old(items), now)
    {
      var keys := items.Keys;
      while keys != {}
        invariant keys <= old(items).Keys
        invariant forall k :: k in items <==>
          k in old(items) && (k in keys || !(HasPrefix(k) && Expired(old(items)[k], now)))
        invariant forall k :: k in items ==> items[k] == old(items)[k]
        decreases keys
      {
        var k :| k in keys;
        if HasPrefix(k) {
          match items[k]
          case Unparseable(_) =>
          case Entry(_, expiry) =>
            if now > expiry {
              items := items - {k};
            }
        }
        keys := keys - {k};
      }
    }
  }

  /**
   * Without consent a save of anything but the consent answer is refused, and
   * no key but the consent key changes: that one is removed exactly when it
   * had expired, by the consent check itself.
   */
  lemma SaveRefused(s: Store, name: string, v: Value, now: int)
    requires ConsentReply(s, now) == Ok(false) && name != ConsentName
    ensures SaveReply(s, name, v, now) == Ok(false)
    ensures AfterSave(s, name, v, now) == if ConsentExpired(s, now) then s - {Key(ConsentName)} else s
  {
  }

  /**
   * With consent, or when the consent answer itself is saved, the value is
   * stored under the prefixed key with a 30-day expiry and nothing else changes.
   */
  lemma SaveAccepted(s: Store, name: string, v: Value, now: int)
    requires ConsentReply(s, now) == Ok(true) || (ConsentReply(s, now).Ok? && name == ConsentName)
    ensures SaveReply(s, name, v, now) == Ok(true)
    ensures AfterSave(s, name, v, now) == s[Key(name) := Entry(v, now + ExpirationDays * DayMs)]
  {
  }

  /** An unreadable consent entry makes the save throw before anything is written. */
  lemma SaveThrows(s: Store, name: string, v: Value, now: int)
    requires ConsentReply(s, now) == SyntaxError
    ensures SaveReply(s, name, v, now) == SyntaxError
    ensures AfterSave(s, name, v, now) == s
  {
  }

  /**
   * Reading a name: a missing name reads as null and changes nothing; a live
   * entry reads as its value and changes nothing; an expired one reads as null
   * and only that entry is removed.
   */
  lemma ReadCases(s: Store, name: string, now: int)
    ensures Key(name) !in s ==> ReadReply(s, name, now) == Ok(None) && AfterRead(s, name, now) == s
    ensures Key(name) in s && s[Key(name)].Entry? && now <= s[Key(name)].expiry ==>
      ReadReply(s, name, now) == Ok(Some(s[Key(name)].value)) && AfterRead(s, name, now) == s
    ensures Key(name) in s && s[Key(name)].Entry? && now > s[Key(name)].expiry ==>
      ReadReply(s, name, now) == Ok(None) && AfterRead(s, name, now) == s - {Key(name)}
  {
  }

  /**
   * A saved value reads back until it expires, 30 days later; after that it
   * reads as null and is removed.
   */
  lemma SavedValueReadsBack(s: Store, name: string, v: Value, now: int, later: int)
    requires SaveReply(s, name, v, now) == Ok(true)
    ensures later <= now + ExpirationDays * DayMs ==>
      ReadReply(AfterSave(s, name, v, now), name, later) == Ok(Some(v))
      && AfterRead(AfterSave(s, name, v, now), name, later) == AfterSave(s, name, v, now)
    ensures later > now + ExpirationDays * DayMs ==>
      ReadReply(AfterSave(s, name, v, now), name, later) == Ok(None)
      && AfterRead(AfterSave(s, name, v, now), name, later) == AfterSave(s, name, v, now) - {Key(name)}
  {
  }

  /** The recorded consent answer is what the consent check reads, for a year. */
  lemma ConsentReadsBack(s: Store, granted: bool, now: int, later: int)
    requires later <= now + ConsentDays * DayMs
    ensures ConsentReply(AfterSetConsent(s, granted, now), later) == Ok(granted)
    ensures Answered(AfterSetConsent(s, granted, now))
  {
  }

  /**
   * The consent question counts as answered as long as its key is present,
   * even once the answer has expired and reads as no consent.
   */
  lemma AnsweredEvenIfExpired(s: Store, now: int)
    ensures ConsentReply(s, now) == Ok(true) ==> Answered(s)
    ensures ConsentExpired(s, now) ==> Answered(s) && ConsentReply(s, now) == Ok(false)
  {
  }

  /**
   * Clearing removes every prefixed key and keeps every other key with its
   * value; afterwards nothing reads back, the consent question is unanswered
   * and the listing is empty.
   */
  lemma ClearedKeepsOthers(s: Store, now: int)
    ensures forall k :: k in Cleared(s) <==> k in s && !HasPrefix(k)
    ensures forall k :: k in Cleared(s) ==> Cleared(s)[k] == s[k]
    ensures forall name :: ReadReply(Cleared(s), name, now) == Ok(None)
    ensures !Answered(Cleared(s))
    ensures IsListing(Cleared(s), [])
  {
  }

  /** The sweep removes exactly the expired prefixed entries and keeps the rest as they were. */
  lemma SweptRemovesExpired(s: Store, now: int)
    ensures forall k :: k in Swept(s, now) <==> k in s && !(HasPrefix(k) && Expired(s[k], now))
    ensures forall k :: k in Swept(s, now) ==> Swept(s, now)[k] == s[k]
    ensures Swept(Swept(s, now), now) == Swept(s, now)
  {
  }

  /**
   * The sweep is invisible to readers at the same time: every name reads the
   * same before and after it, reading a swept store removes nothing, and
   * sweeping after a read gives the same store as sweeping alone.
   */
  lemma SweepAgreesWithReads(s: Store, name: string, now: int)
    ensures ReadReply(Swept(s, now), name, now) == ReadReply(s, name, now)
    ensures AfterRead(Swept(s, now), name, now) == Swept(s, now)
    ensures Swept(AfterRead(s, name, now), now) == Swept(s, now)
  {
  }
}
