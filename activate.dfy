/**
 * License-key masking and the secure-storage record (src-tauri/src/activate.rs).
 *
 * The storage file is modelled by what reading and parsing it yields: no
 * file, content that does not parse (with the parser's message), or a parsed
 * record. Failing to locate, read or write the file is not part of the model.
 */
module Activate {
  import opened Wrappers

  /** `n` asterisks: `"*".repeat(n)`. */
  function Stars(n: nat): (r: string)
    ensures |r| == n && forall i :: 0 <= i < n ==> r[i] == '*'
  {
    seq(n, _ => '*')
  }

  /**
   * `mask_license_key_cmd`: a key of at most eight characters is hidden
   * entirely; a longer one shows its first and last four characters only.
   */
  function MaskLicenseKey(key: string): (r: string)
    ensures |r| == |key|
    ensures |key| <= 8 ==> forall i :: 0 <= i < |r| ==> r[i] == '*'
    ensures |key| > 8 ==>
      && r[..4] == key[..4]
      && r[|r| - 4..] == key[|key| - 4..]
      && forall i :: 4 <= i < |r| - 4 ==> r[i] == '*'
  {
    if |key| <= 8 then Stars(|key|)
    else key[..4] + Stars(|key| - 8) + key[|key| - 4..]
  }

  /** The stored record `SecureStorage`. */
  datatype SecureStorage = SecureStorage(licenseKey: Option<string>, instanceId: Option<string>)

  /** `SecureStorage::default()`. */
  const Empty := SecureStorage(None, None)

  /** One `StorageItem { key, value }` handed to save. */
  datatype StorageItem = StorageItem(key: string, value: string)

  /** The state of `secure_storage.json`. */
  datatype StorageFile = Missing | Unparsable(reason: string) | Stored(record: SecureStorage)

  const LicenseKeyName := "pluely_license_key"
  const InstanceIdName := "pluely_instance_id"

  /** The two keys the storage accepts. */
  predicate ValidKey(key: string) {
    key == LicenseKeyName || key == InstanceIdName
  }

  /** The record save starts from: the parsed record, else the default (`unwrap_or_default`). */
  function SaveBase(file: StorageFile): (s: SecureStorage)
    ensures file.Stored? ==> s == file.record
    ensures !file.Stored? ==> s == Empty
  {
    if file.Stored? then file.record else Empty
  }

  /** The value of the last item for `key`, the one a loop of overwrites leaves. */
  function LastValue(items: seq<StorageItem>, key: string): Option<string>
    decreases |items|
  {
    if items == [] then None
    else if items[|items| - 1].key == key then Some(items[|items| - 1].value)
    else LastValue(items[..|items| - 1], key)
  }

  /** The last item for `key`, when there is one, carries the value `LastValue` reports. */
  lemma {:induction false} LastValueIsLast(items: seq<StorageItem>, key: string)
    ensures LastValue(items, key).Some? <==> exists i :: 0 <= i < |items| && items[i].key == key
    ensures LastValue(items, key).Some? ==> exists i ::
      && 0 <= i < |items| && items[i].key == key && items[i].value == LastValue(items, key).value
      && forall j :: i < j < |items| ==> items[j].key != key
    decreases |items|
  {
    if items != [] {
      var front := items[..|items| - 1];
      LastValueIsLast(front, key);
      if items[|items| - 1].key != key {
        assert forall i :: 0 <= i < |front| ==> front[i] == items[i];
        if LastValue(front, key).Some? {
          var i :| && 0 <= i < |front| && front[i].key == key && front[i].value == LastValue(front, key).value
                   && forall j :: i < j < |front| ==> front[j].key != key;
          assert items[i] == front[i];
        }
      }
    }
  }

  /** `Some(v)` overrides, `None` keeps the old value. */
  function Override(v: Option<string>, old_: Option<string>): Option<string> {
    if v.Some? then v else old_
  }

  /** The item at `i` is the first with an invalid key. */
  predicate FirstInvalidAt(keys: seq<string>, i: nat) {
    && i < |keys| && !ValidKey(keys[i])
    && forall j :: 0 <= j < i ==> ValidKey(keys[j])
  }

  function Keys(items: seq<StorageItem>): (r: seq<string>)
    ensures |r| == |items| && forall i :: 0 <= i < |items| ==> r[i] == items[i].key
  {
    seq(|items|, i requires 0 <= i < |items| => items[i].key)
  }

  /**
   * `secure_storage_save`: returns the outcome and the file afterwards. Every
   * item overwrites its field in turn; the first invalid key aborts the save
   * before anything is written.
   */
  method Save(file: StorageFile, items: seq<StorageItem>) returns (r: Result<(), string>, written: StorageFile)
    ensures r.Err? <==> exists i :: 0 <= i < |items| && !ValidKey(items[i].key)
    ensures r.Err? ==>
      && written == file
      && exists i: nat :: FirstInvalidAt(Keys(items), i) && r.error == "Invalid storage key: " + items[i].key
    ensures r.Ok? ==> written == Stored(SecureStorage(
      Override(LastValue(items, LicenseKeyName), SaveBase(file).licenseKey),
      Override(LastValue(items, InstanceIdName), SaveBase(file).instanceId)))
  {
    var storage := SaveBase(file);
    var base := storage;
    var i := 0;
    while i < |items|
      invariant 0 <= i <= |items|
      invariant forall j :: 0 <= j < i ==> ValidKey(items[j].key)
      invariant storage.licenseKey == Override(LastValue(items[..i], LicenseKeyName), base.licenseKey)
      invariant storage.instanceId == Override(LastValue(items[..i], InstanceIdName), base.instanceId)
    {
      var item := items[i];
      assert items[..i + 1][..i] == items[..i];
      if item.key == LicenseKeyName {
        storage := storage.(licenseKey := Some(item.value));
      } else if item.key == InstanceIdName {
        storage := storage.(instanceId := Some(item.value));
      } else {
        assert FirstInvalidAt(Keys(items), i);
        return Err("Invalid storage key: " + item.key), file;
      }
      i := i + 1;
    }
    assert items[..i] == items;
    r, written := Ok(()), Stored(storage);
  }

  /**
   * `secure_storage_remove`: a missing file is left alone; unparsable content
   * is an error; otherwise every listed field is cleared, and the first
   * invalid key aborts before anything is written.
   */
  method Remove(file: StorageFile, keys: seq<string>) returns (r: Result<(), string>, written: StorageFile)
    ensures file.Missing? ==> r == Ok(()) && written == Missing
    ensures file.Unparsable? ==> r == Err("Failed to parse storage file: " + file.reason) && written == file
    ensures file.Stored? ==>
      (r.Err? <==> exists i :: 0 <= i < |keys| && !ValidKey(keys[i]))
    ensures file.Stored? && r.Err? ==>
      && written == file
      && exists i: nat :: FirstInvalidAt(keys, i) && r.error == "Invalid storage key: " + keys[i]
    ensures file.Stored? && r.Ok? ==> written == Stored(SecureStorage(
      if LicenseKeyName in keys then None else file.record.licenseKey,
      if InstanceIdName in keys then None else file.record.instanceId))
  {
    if file.Missing? {
      return Ok(()), Missing;
    }
    if file.Unparsable? {
      return Err("Failed to parse storage file: " + file.reason), file;
    }
    var storage := file.record;
    var i := 0;
    while i < |keys|
      invariant 0 <= i <= |keys|
      invariant forall j :: 0 <= j < i ==> ValidKey(keys[j])
      invariant storage.licenseKey == if LicenseKeyName in keys[..i] then None else file.record.licenseKey
      invariant storage.instanceId == if InstanceIdName in keys[..i] then None else file.record.instanceId
    {
      var key := keys[i];
      assert keys[..i + 1] == keys[..i] + [key];
      if key == LicenseKeyName {
        storage := storage.(licenseKey := None);
      } else if key == InstanceIdName {
        storage := storage.(instanceId := None);
      } else {
        assert FirstInvalidAt(keys, i);
        return Err("Invalid storage key: " + key), file;
      }
      i := i + 1;
    }
    assert keys[..i] == keys;
    r, written := Ok(()), Stored(storage);
  }

  /** `secure_storage_get`. */
  function Get(file: StorageFile): (r: Result<SecureStorage, string>)
    ensures file.Missing? ==> r == Ok(Empty)
    ensures file.Unparsable? ==> r == Err("Failed to parse storage file: " + file.reason)
    ensures file.Stored? ==> r == Ok(file.record)
  {
    match file
    case Missing => Ok(Empty)
    case Unparsable(reason) => Err("Failed to parse storage file: " + reason)
    case Stored(record) => Ok(record)
  }
}
