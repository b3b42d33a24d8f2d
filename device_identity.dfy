/** Get-or-create of the per-browser device id. The source has this logic in
    three places; all three make the same decision, written once here. They
    differ only in what they do with a storage exception, which each caller
    handles itself. */
module DeviceIdentity {
  import opened Common
  import opened Storage

  /** JavaScript truthiness of what `getItem('device_id')` gave: present and non-empty. */
  predicate HasId(read: Option<string>)
  {
    read.Some? && read.value != ""
  }

  /** The id in use after get-or-create: the stored one when truthy, else the
      freshly generated candidate. */
  function ChosenId(read: Option<string>, candidate: string): (id: string)
    ensures HasId(read) ==> id == read.value
    ensures !HasId(read) ==> id == candidate
    ensures id != "" <==> HasId(read) || candidate != ""
  {
    if HasId(read) then read.value else candidate
  }

  /** The `device_id` slot after get-or-create; `writes` tells whether `setItem` succeeds. */
  function SlotAfter(slot: Option<string>, candidate: string, writes: bool): (after: Option<string>)
    ensures HasId(slot) ==> after == slot
    ensures !writes ==> after == slot
    ensures !HasId(slot) && writes ==> after == Some(candidate)
  {
    if HasId(slot) || !writes then slot else Some(candidate)
  }

  /** The shared step: `read` is what `getItem('device_id')` gave ("" or null
      when that threw, in the one caller that catches it). A stored truthy id
      is kept; otherwise the candidate is used and written, and `thrown` is
      what the write threw. */
  method GetOrCreate(store: LocalStorage, read: Option<string>, candidate: string) returns (id: string, thrown: Option<Exception>)
    requires read == (if store.accessible then store.deviceId else None)
    modifies store`deviceId
    ensures id == ChosenId(read, candidate)
    ensures store.deviceId == SlotAfter(old(store.deviceId), candidate, store.CanWrite())
    ensures thrown == (if HasId(read) || store.CanWrite() then None else Some(store.failure))
  {
    if HasId(read) {
      id, thrown := read.value, None;
    } else {
      id := candidate;
      thrown := store.SetDeviceId(candidate);
    }
  }

  /** A stored id is never replaced, whatever was generated. */
  lemma ExistingIdPreserved(slot: Option<string>, candidate: string, writes: bool)
    requires HasId(slot)
    ensures ChosenId(slot, candidate) == slot.value
    ensures SlotAfter(slot, candidate, writes) == slot
  {
  }

  /** Get-or-create twice on writable storage gives the same id both times,
      provided the first call had a stored id or a non-empty candidate. */
  lemma Idempotent(slot: Option<string>, first: string, second: string)
    requires HasId(slot) || first != ""
    ensures ChosenId(SlotAfter(slot, first, true), second) == ChosenId(slot, first)
    ensures SlotAfter(SlotAfter(slot, first, true), second, true) == SlotAfter(slot, first, true)
  {
  }

  /** The proviso above is needed: the fallback generator
      `Math.random().toString(36).slice(2)` yields "" when `Math.random()`
      returns 0, and an empty id is stored but not reused. */
  lemma EmptyCandidateIsNotReused()
    ensures ChosenId(SlotAfter(None, "", true), "b") != ChosenId(None, "")
  {
  }
}
