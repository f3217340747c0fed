/**
 * KeychainHelper.swift: generic-password items keyed by service and account. The
 * Security framework's answers (does an add, an update, a delete succeed) are the
 * fields of a `KeychainEnv`; the items themselves are a map.
 */
module Keychain {
  import opened Wrappers
  import opened Utf8

  datatype KeychainKey = KeychainKey(service: string, account: string)

  type Items = map<KeychainKey, Bytes>

  /** How `SecItemAdd`, `SecItemUpdate` and `SecItemDelete` turn out for the call at hand. */
  datatype KeychainEnv = KeychainEnv(addSucceeds: bool, updateSucceeds: bool, deleteSucceeds: bool)

  datatype SaveResult = SaveResult(items: Items, reported: bool)

  /** Whether a save of `key` actually writes the data: an add for a new item, an update for an existing one. */
  predicate Writes(items: Items, key: KeychainKey, env: KeychainEnv) {
    if key in items then env.updateSucceeds else env.addSucceeds
  }

  /**
   * `save(_:forService:account:)` as written: the item is added, or updated when it
   * already exists, but the reported status is the add's, so an overwrite always
   * reports false.
   */
  function SaveItem(items: Items, key: KeychainKey, data: Bytes, env: KeychainEnv): (r: SaveResult)
    ensures r.reported <==> key !in items && env.addSucceeds
    ensures Writes(items, key, env) ==> r.items == items[key := data]
    ensures !Writes(items, key, env) ==> r.items == items
  {
    if key !in items then
      if env.addSucceeds then SaveResult(items[key := data], true) else SaveResult(items, false)
    else
      SaveResult(if env.updateSucceeds then items[key := data] else items, false)
  }

  /** The evidently intended save: it reports whether the data was written, by add or by update. */
  function SaveItemCorrected(items: Items, key: KeychainKey, data: Bytes, env: KeychainEnv): (r: SaveResult)
    ensures r.reported <==> Writes(items, key, env)
    ensures r.reported ==> r.items == items[key := data]
    ensures !r.reported ==> r.items == items
  {
    if key !in items then
      if env.addSucceeds then SaveResult(items[key := data], true) else SaveResult(items, false)
    else
      if env.updateSucceeds then SaveResult(items[key := data], true) else SaveResult(items, false)
  }

  /** The two saves leave the same items behind and differ only in what they report for an overwrite. */
  lemma SaveItemsAgree(items: Items, key: KeychainKey, data: Bytes, env: KeychainEnv)
    ensures SaveItem(items, key, data, env).items == SaveItemCorrected(items, key, data, env).items
    ensures SaveItem(items, key, data, env).reported != SaveItemCorrected(items, key, data, env).reported
            <==> key in items && env.updateSucceeds
  {
  }

  /** `delete(service:account:)`: succeeds, and removes the item, only when the item exists. */
  function DeleteItem(items: Items, key: KeychainKey, env: KeychainEnv): (r: SaveResult)
    ensures r.reported <==> key in items && env.deleteSucceeds
    ensures r.reported ==> r.items == items - {key} && key !in r.items
    ensures !r.reported ==> r.items == items
  {
    if key in items && env.deleteSucceeds then SaveResult(items - {key}, true) else SaveResult(items, false)
  }

  /** `read(service:account:)`. */
  function ReadItem(items: Items, key: KeychainKey): (data: Option<Bytes>)
    ensures data.Some? <==> key in items
    ensures data.Some? ==> data.value == items[key]
  {
    if key in items then Some(items[key]) else None
  }
}
