/**
  A tracking option object (`MatomoTrackOptions`): an open map from parameter
  names to scalar values whose keys keep their insertion order, as the keys of
  a JavaScript object do. The tracker stamps `idsite` and `rec` into the
  caller's own object.
 */
module Options {
  import opened Wrappers
  import opened JsValues
  import opened QueryString

  function Keys(entries: seq<Entry>): (r: seq<string>)
    ensures |r| == |entries|
    ensures forall i :: 0 <= i < |entries| ==> r[i] == entries[i].0
  {
    if entries == [] then [] else [entries[0].0] + Keys(entries[1..])
  }

  /** `obj[key]`, `None` standing for a missing property. */
  function Get(entries: seq<Entry>, key: string): Option<Value>
  {
    if entries == [] then None
    else if entries[0].0 == key then Some(entries[0].1)
    else Get(entries[1..], key)
  }

  /** Each key occurs once, as in every JavaScript object. */
  predicate UniqueKeys(entries: seq<Entry>)
  {
    forall i, j :: 0 <= i < j < |entries| ==> entries[i].0 != entries[j].0
  }

  /**
    `obj[key] = value`: an existing property keeps its place and takes the new
    value; a new one is added after all the others.
   */
  function Put(entries: seq<Entry>, key: string, value: Value): seq<Entry>
  {
    if entries == [] then [(key, value)]
    else if entries[0].0 == key then [(key, value)] + entries[1..]
    else [entries[0]] + Put(entries[1..], key, value)
  }

  /** An existing key keeps its place; a new key goes last. */
  lemma {:induction false} PutKeys(entries: seq<Entry>, key: string, value: Value)
    ensures Keys(Put(entries, key, value)) ==
      if key in Keys(entries) then Keys(entries) else Keys(entries) + [key]
  {
    if entries != [] && entries[0].0 != key {
      PutKeys(entries[1..], key, value);
      assert Keys(entries) == [entries[0].0] + Keys(entries[1..]);
      assert (key in Keys(entries)) == (key in Keys(entries[1..]));
    }
  }

  /** After `obj[key] = value`, `obj[key]` is `value` and every other property reads as before. */
  lemma {:induction false} PutGet(entries: seq<Entry>, key: string, value: Value)
    ensures Get(Put(entries, key, value), key) == Some(value)
    ensures forall k :: k != key ==> Get(Put(entries, key, value), k) == Get(entries, k)
  {
    if entries != [] && entries[0].0 != key {
      PutGet(entries[1..], key, value);
    }
  }

  /** Assignment never creates a duplicate key. */
  lemma PutUnique(entries: seq<Entry>, key: string, value: Value)
    requires UniqueKeys(entries)
    ensures UniqueKeys(Put(entries, key, value))
  {
    var r := Put(entries, key, value);
    PutKeys(entries, key, value);
    forall i, j | 0 <= i < j < |r| ensures r[i].0 != r[j].0 {
      assert Keys(r)[i] == r[i].0 && Keys(r)[j] == r[j].0;
      if key !in Keys(entries) && j == |entries| {
        assert Keys(entries)[i] == entries[i].0;
      } else {
        assert Keys(entries)[i] == entries[i].0 && Keys(entries)[j] == entries[j].0;
      }
    }
  }

  /**
    The two assignments `track` and `trackBulk` make: `idsite` to the site id,
    then `rec` to 1. Whatever the caller had put there is overwritten; every
    other parameter, and the order of the caller's keys, stays as it was.
   */
  function Stamp(entries: seq<Entry>, siteId: Value): seq<Entry>
  {
    Put(Put(entries, "idsite", siteId), "rec", Num(1))
  }

  lemma StampFacts(entries: seq<Entry>, siteId: Value)
    ensures Get(Stamp(entries, siteId), "idsite") == Some(siteId)
    ensures Get(Stamp(entries, siteId), "rec") == Some(Num(1))
    ensures forall k :: k != "idsite" && k != "rec" ==> Get(Stamp(entries, siteId), k) == Get(entries, k)
    ensures |Keys(Stamp(entries, siteId))| >= |entries|
    ensures Keys(Stamp(entries, siteId))[..|entries|] == Keys(entries)
    ensures UniqueKeys(entries) ==> UniqueKeys(Stamp(entries, siteId))
  {
    var once := Put(entries, "idsite", siteId);
    PutGet(entries, "idsite", siteId);
    PutGet(once, "rec", Num(1));
    PutKeys(entries, "idsite", siteId);
    PutKeys(once, "rec", Num(1));
    if UniqueKeys(entries) {
      PutUnique(entries, "idsite", siteId);
      PutUnique(once, "rec", Num(1));
    }
  }

  /** Assigning a property the object lacks appends it after all the others. */
  lemma {:induction false} PutAbsent(entries: seq<Entry>, key: string, value: Value)
    requires key !in Keys(entries)
    ensures Put(entries, key, value) == entries + [(key, value)]
  {
    if entries != [] {
      assert Keys(entries) == [entries[0].0] + Keys(entries[1..]);
      PutAbsent(entries[1..], key, value);
      Regroup(entries, [(key, value)]);
    }
  }

  /**
    Options that hold neither `idsite` nor `rec` are stamped by appending
    `idsite` and then `rec` after the caller's own parameters.
   */
  lemma StampAppends(entries: seq<Entry>, siteId: Value)
    requires "idsite" !in Keys(entries) && "rec" !in Keys(entries)
    ensures Stamp(entries, siteId) == entries + [("idsite", siteId), ("rec", Num(1))]
  {
    var once := entries + [("idsite", siteId)];
    PutAbsent(entries, "idsite", siteId);
    assert Keys(once) == Keys(entries) + ["idsite"];
    assert "rec" !in Keys(once);
    PutAbsent(once, "rec", Num(1));
    assert once + [("rec", Num(1))] == entries + [("idsite", siteId), ("rec", Num(1))];
  }

  lemma {:induction false} PutPresent(entries: seq<Entry>, key: string, value: Value)
    requires Get(entries, key) == Some(value)
    ensures Put(entries, key, value) == entries
  {
    if entries != [] && entries[0].0 != key {
      PutPresent(entries[1..], key, value);
    }
  }

  /** Stamping twice is stamping once: a bulk event that occurs twice in the list ends the same. */
  lemma StampIdempotent(entries: seq<Entry>, siteId: Value)
    ensures Stamp(Stamp(entries, siteId), siteId) == Stamp(entries, siteId)
  {
    var s := Stamp(entries, siteId);
    StampFacts(entries, siteId);
    PutPresent(s, "idsite", siteId);
    PutPresent(s, "rec", Num(1));
  }

  /** A property the object holds is one of its entries. */
  lemma {:induction false} GetIsEntry(entries: seq<Entry>, key: string)
    requires Get(entries, key).Some?
    ensures exists i :: 0 <= i < |entries| && entries[i] == (key, Get(entries, key).value)
  {
    if entries[0].0 != key {
      GetIsEntry(entries[1..], key);
      var i :| 0 <= i < |entries[1..]| && entries[1..][i] == (key, Get(entries, key).value);
      assert entries[i + 1] == entries[1..][i];
    }
  }

  /** With unique keys, every entry is the one its key reads. */
  lemma {:induction false} UniqueGet(entries: seq<Entry>, i: nat)
    requires UniqueKeys(entries) && i < |entries|
    ensures Get(entries, entries[i].0) == Some(entries[i].1)
  {
    if i > 0 {
      assert entries[0].0 != entries[i].0;
      assert UniqueKeys(entries[1..]) by {
        forall j, k | 0 <= j < k < |entries[1..]| ensures entries[1..][j].0 != entries[1..][k].0 {
          assert entries[1..][j] == entries[j + 1] && entries[1..][k] == entries[k + 1];
        }
      }
      UniqueGet(entries[1..], i - 1);
    }
  }

  /**
    A JavaScript object that the tracker receives from its caller and updates
    in place. Like every JavaScript object it holds each key once.
   */
  class OptionBag {
    var entries: seq<Entry>

    ghost predicate Valid()
      reads this
    {
      UniqueKeys(entries)
    }

    constructor (entries: seq<Entry>)
      requires UniqueKeys(entries)
      ensures this.entries == entries
      ensures Valid()
    {
      this.entries := entries;
    }

    /** `this[key] = value`. */
    method Set(key: string, value: Value)
      modifies this
      ensures entries == Put(old(entries), key, value)
      ensures old(Valid()) ==> Valid()
    {
      if UniqueKeys(entries) {
        PutUnique(entries, key, value);
      }
      entries := Put(entries, key, value);
    }
  }
}
