/**
 * The key-value storage provider (AsyncStorage) and the read / append / write
 * back convention every add screen follows:
 *
 *   stored  := getItem(key)
 *   current := stored ? JSON.parse(stored) : []
 *   current.push(record)
 *   setItem(key, JSON.stringify(current))
 *
 * Serialisation is abstracted: a stored value is the list it encodes.  The
 * provider's own failures are parameters (`Faults`).
 */
module RecordStore {
  import opened Wrappers
  import opened Records

  /** The raw value under a present key, as far as the screens can tell it apart. */
  datatype Slot =
    | EmptyString                  // "" : falsy, read as []
    | Json(records: seq<Record>)   // the JSON text of an array of records
    | Malformed                    // not JSON, or JSON that is not an array: parse or push throws

  /** The storage namespace: one value per key, whole-value get and set only. */
  type Contents = map<string, Slot>

  /** Why a read-append-write did not complete; each lands in the screen's catch block. */
  datatype StoreError = ReadError | ParseError | WriteError

  /** How a screen's save ended: blocked by its guard, persisted, or caught. */
  datatype SaveOutcome = Rejected | Saved | Failed(error: StoreError)

  /** Whether the provider's get and set calls fail on this occasion. */
  datatype Faults = Faults(readFails: bool, writeFails: bool)

  /** What `getItem` yields when it succeeds: null for an absent key. */
  function Lookup(data: Contents, key: string): Option<Slot> {
    if key in data then Some(data[key]) else None
  }

  /** `stored ? JSON.parse(stored) : []`, followed by the check that `push` exists. */
  function Current(stored: Option<Slot>): (r: Result<seq<Record>, StoreError>)
    ensures r.Failure? <==> stored == Some(Malformed)
    ensures r.Failure? ==> r.error == ParseError
    ensures stored == None || stored == Some(EmptyString) ==> r == Success([])
    ensures stored.Some? && stored.value.Json? ==> r == Success(stored.value.records)
  {
    match stored
    case None => Success([])
    case Some(EmptyString) => Success([])
    case Some(Json(rs)) => Success(rs)
    case Some(Malformed) => Failure(ParseError)
  }

  /**
   * The list the screens see under `key`: a key nobody has written, or one
   * holding "", reads as []; a corrupt value is a parse error.
   */
  function Load(data: Contents, key: string): (r: Result<seq<Record>, StoreError>)
    ensures key !in data ==> r == Success([])
    ensures r.Failure? <==> key in data && data[key] == Malformed
    ensures r.Failure? ==> r.error == ParseError
    ensures key in data && data[key].Json? ==> r == Success(data[key].records)
  {
    Current(Lookup(data, key))
  }

  /**
   * The namespace after appending `rec` under `key`, or why the append
   * failed.  It succeeds exactly when neither provider call fails and the
   * stored value parses; then the list under `key` is the old one with `rec`
   * pushed last, and no other key changes.
   */
  function AppendSpec(data: Contents, key: string, rec: Record, faults: Faults): (r: Result<Contents, StoreError>)
    ensures r.Success? <==> !faults.readFails && !faults.writeFails && Lookup(data, key) != Some(Malformed)
    ensures r.Success? ==> Load(data, key).Success? && Load(r.value, key) == Success(Load(data, key).value + [rec])
    ensures r.Success? ==> r.value.Keys == data.Keys + {key}
    ensures r.Success? ==> forall k :: k != key ==> Lookup(r.value, k) == Lookup(data, k)
    ensures faults.readFails ==> r == Failure(ReadError)
    ensures !faults.readFails && Lookup(data, key) == Some(Malformed) ==> r == Failure(ParseError)
    ensures !faults.readFails && Lookup(data, key) != Some(Malformed) && faults.writeFails ==> r == Failure(WriteError)
  {
    if faults.readFails then Failure(ReadError)
    else match Load(data, key)
      case Failure(e) => Failure(e)
      case Success(current) =>
        if faults.writeFails then Failure(WriteError)
        else Success(data[key := Json(current + [rec])])
  }

  /** Appending to a key never written gives exactly the one-element list. */
  lemma AppendToFresh(data: Contents, key: string, rec: Record)
    requires key !in data
    ensures AppendSpec(data, key, rec, Faults(false, false)).Success?
    ensures Load(AppendSpec(data, key, rec, Faults(false, false)).value, key) == Success([rec])
  {
    assert [] + [rec] == [rec];
  }

  /** Two appends issued one after the other keep their records in submission order. */
  lemma SequentialAppends(data: Contents, key: string, r1: Record, r2: Record)
    requires Lookup(data, key) != Some(Malformed)
    ensures var once := AppendSpec(data, key, r1, Faults(false, false));
            && once.Success?
            && var twice := AppendSpec(once.value, key, r2, Faults(false, false));
            && twice.Success?
            && Load(twice.value, key) == Success(Load(data, key).value + [r1, r2])
  {
    assert Load(data, key).value + [r1] + [r2] == Load(data, key).value + [r1, r2];
  }

  /** The whole-value storage provider, holding one namespace. */
  class Storage {
    var data: Contents

    constructor (initial: Contents)
      ensures data == initial
    {
      data := initial;
    }

    /** `AsyncStorage.getItem(key)`: the raw value, null when absent. */
    method GetItem(key: string, fails: bool) returns (r: Result<Option<Slot>, StoreError>)
      ensures fails <==> r.Failure?
      ensures r.Failure? ==> r.error == ReadError
      ensures r.Success? ==> (r.value.Some? <==> key in data)
      ensures r.Success? && key in data ==> r.value == Some(data[key])
    {
      if fails {
        return Failure(ReadError);
      }
      r := Success(Lookup(data, key));
    }

    /** `AsyncStorage.setItem(key, JSON.stringify(records))`: replaces the whole value. */
    method SetItem(key: string, records: seq<Record>, fails: bool) returns (r: Result<seq<Record>, StoreError>)
      modifies this
      ensures fails ==> r == Failure(WriteError) && data == old(data)
      ensures !fails ==> r == Success(records) && data == old(data)[key := Json(records)]
    {
      if fails {
        return Failure(WriteError);
      }
      data := data[key := Json(records)];
      r := Success(records);
    }

    /**
     * Read the list under `key`, push `rec`, write the list back.  On success
     * the result is the list written; on any failure nothing is written.
     */
    method Append(key: string, rec: Record, faults: Faults) returns (r: Result<seq<Record>, StoreError>)
      modifies this
      ensures var spec := AppendSpec(old(data), key, rec, faults);
              && (r.Success? <==> spec.Success?)
              && (spec.Success? ==> data == spec.value && r.value == Load(old(data), key).value + [rec])
              && (spec.Failure? ==> data == old(data) && r.error == spec.error)
    {
      var stored := GetItem(key, faults.readFails);
      if stored.Failure? {
        return Failure(stored.error);
      }
      var current := Current(stored.value);
      if current.Failure? {
        return Failure(current.error);
      }
      var pushed := current.value + [rec];
      r := SetItem(key, pushed, faults.writeFails);
    }
  }
}
