/**
  The pairing store of pkg/pairing: a map from card instance UIDs to pairing keys, saved as text after
  every `Store`.  The file is a value; reading and writing it may fail, which is all that is kept of I/O.
 */
module Pairing {
  import opened Wrappers
  import Hex

  datatype Info = Info(key: Hex.bytes, index: int)

  /** One entry as written to the file: the key in hexadecimal. */
  datatype SavedInfo = SavedInfo(key: string, index: int)

  type Pairings = map<string, Info>
  type Image = map<string, SavedInfo>

  function ToImage(values: Pairings): Image {
    map uid | uid in values :: SavedInfo(Hex.Btox(values[uid].key), values[uid].index)
  }

  function FromImage(image: Image): Option<Pairings> {
    if forall uid | uid in image :: Hex.Xtob(image[uid].key).Ok? then
      Some(map uid | uid in image :: Info(Hex.Xtob(image[uid].key).value, image[uid].index))
    else None
  }

  /** Whatever is saved can be loaded again, unchanged. */
  lemma LoadSaved(values: Pairings)
    ensures FromImage(ToImage(values)) == Some(values)
  {
    var image := ToImage(values);
    forall uid | uid in image
      ensures Hex.Xtob(image[uid].key) == Ok(values[uid].key)
    {
      Hex.DecodeEncode(values[uid].key);
    }
    assert FromImage(image).Some?;
    assert FromImage(image).value == values;
  }

  datatype File = Missing | Unreadable | Contents(image: Image)

  /** What opening a store reads: an absent file is an empty store, an unreadable or malformed one an error. */
  function Opened(file: File): Option<Pairings> {
    match file
    case Missing => Some(map[])
    case Unreadable => None
    case Contents(image) => FromImage(image)
  }

  class PairingStore {
    var values: Pairings
    var file: File

    constructor (loaded: Pairings, onDisk: File)
      ensures values == loaded && file == onDisk
    {
      values, file := loaded, onDisk;
    }

    /** NewStore. */
    static method NewStore(file: File) returns (store: PairingStore?)
      ensures store == null <==> Opened(file) == None
      ensures store != null ==> fresh(store) && Some(store.values) == Opened(file) && store.file == file
    {
      match file {
        case Missing => store := new PairingStore(map[], file);
        case Unreadable => store := null;
        case Contents(image) =>
          if forall uid | uid in image :: Hex.Xtob(image[uid].key).Ok? {
            store := new PairingStore(
              map uid | uid in image :: Info(Hex.Xtob(image[uid].key).value, image[uid].index), file);
          } else {
            store := null;
          }
      }
    }

    method Save() returns (saved: bool)
      modifies this`file
      ensures file == if saved then Contents(ToImage(values)) else old(file)
      ensures saved ==> Opened(file) == Some(values)
    {
      saved := *;
      if saved {
        file := Contents(ToImage(values));
        LoadSaved(values);
      }
    }

    /** The entry is set before saving, so it is kept in memory even when saving fails. */
    method Store(instanceUID: string, info: Info) returns (saved: bool)
      modifies this
      ensures values == old(values)[instanceUID := info]
      ensures saved ==> Opened(file) == Some(values)
      ensures !saved ==> file == old(file)
    {
      values := values[instanceUID := info];
      saved := Save();
    }

    function Get(instanceUID: string): Option<Info>
      reads this
    {
      if instanceUID in values then Some(values[instanceUID]) else None
    }

    /** Removes the entry in memory only. */
    method Delete(instanceUID: string)
      modifies this`values
      ensures values == old(values) - {instanceUID}
    {
      values := values - {instanceUID};
    }
  }

  /** A deleted pairing comes back when the file written before the deletion is opened again. */
  lemma DeletedEntryReturns(values: Pairings, uid: string)
    requires uid in values
    ensures Opened(Contents(ToImage(values))) == Some(values)
    ensures Opened(Contents(ToImage(values))) != Some(values - {uid})
  {
    LoadSaved(values);
  }
}
