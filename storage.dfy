/**
 * The browser's `localStorage` together with `JSON.stringify`/`JSON.parse`,
 * seen from one key: either nothing is stored, or a value is, or reading it
 * fails (`getItem` throws or the stored text does not parse).
 */
module Storage {

  datatype Slot<T> = Missing | Stored(value: T) | Unreadable

  /** The failure-tolerant read that every service performs: any failure gives `default`. */
  function ReadOr<T>(slot: Slot<T>, default: T): T {
    if slot.Stored? then slot.value else default
  }

  /** The slot after `setItem(key, JSON.stringify(v))`: a failing write is swallowed and leaves the old value. */
  function AfterWrite<T>(before: Slot<T>, v: T, writesFail: bool): Slot<T> {
    if writesFail then before else Stored(v)
  }
}
