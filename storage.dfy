/** The browser's `localStorage`, restricted to the two keys the application
    uses: `device_id` (a plain string) and `user` (a JSON-encoded session). */
module Storage {
  import opened Common

  /** The session record `{ id?, username, serial }`. A string field that is
      missing or null in the server's reply is "" here: both are falsy. */
  datatype User = User(username: string, serial: string, id: Option<int>)

  /** What `JSON.parse` makes of the text stored under `user`: the record that
      `JSON.stringify` wrote, or text that does not parse to such a record
      (empty text, malformed JSON, `null`, a bare number). */
  datatype Persisted = Record(user: User) | Unparseable

  class LocalStorage {
    /** The `device_id` key; None when absent. */
    var deviceId: Option<string>
    /** The `user` key; None when absent. */
    var user: Option<Persisted>
    /** False when storage is disabled: every call throws `failure`. */
    var accessible: bool
    /** False when storage refuses every `setItem` (a zero quota, say):
        `setItem` then throws `failure`. */
    var writable: bool
    /** What a refused call throws. */
    const failure: Exception

    constructor (deviceId: Option<string>, user: Option<Persisted>, accessible: bool, writable: bool, failure: Exception)
      ensures this.deviceId == deviceId && this.user == user
      ensures this.accessible == accessible && this.writable == writable && this.failure == failure
    {
      this.deviceId := deviceId;
      this.user := user;
      this.accessible := accessible;
      this.writable := writable;
      this.failure := failure;
    }

    /** Whether `setItem` succeeds. */
    predicate CanWrite()
      reads this
    {
      accessible && writable
    }

    /** What `getItem('device_id')` gives in the current state. */
    function DeviceIdItem(): Completion<Option<string>>
      reads this
    {
      if accessible then Returned(deviceId) else Threw(failure)
    }

    /** What `getItem('user')` followed by `JSON.parse` gives in the current state. */
    function UserItem(): Completion<Option<Persisted>>
      reads this
    {
      if accessible then Returned(user) else Threw(failure)
    }

    /** `localStorage.getItem('device_id')`. */
    method GetDeviceId() returns (r: Completion<Option<string>>)
      ensures r == DeviceIdItem()
      ensures accessible ==> r == Returned(deviceId)
      ensures !accessible ==> r == Threw(failure)
    {
      if accessible {
        r := Returned(deviceId);
      } else {
        r := Threw(failure);
      }
    }

    /** `localStorage.getItem('user')` followed by `JSON.parse`. */
    method GetUser() returns (r: Completion<Option<Persisted>>)
      ensures r == UserItem()
      ensures accessible ==> r == Returned(user)
      ensures !accessible ==> r == Threw(failure)
    {
      if accessible {
        r := Returned(user);
      } else {
        r := Threw(failure);
      }
    }

    /** `localStorage.setItem('device_id', id)`; `thrown` is what it threw. */
    method SetDeviceId(id: string) returns (thrown: Option<Exception>)
      modifies this`deviceId
      ensures CanWrite() ==> deviceId == Some(id) && thrown == None
      ensures !CanWrite() ==> deviceId == old(deviceId) && thrown == Some(failure)
    {
      if CanWrite() {
        deviceId := Some(id);
        thrown := None;
      } else {
        thrown := Some(failure);
      }
    }

    /** `localStorage.setItem('user', JSON.stringify(u))`. */
    method SetUser(u: User) returns (thrown: Option<Exception>)
      modifies this`user
      ensures CanWrite() ==> user == Some(Record(u)) && thrown == None
      ensures !CanWrite() ==> user == old(user) && thrown == Some(failure)
    {
      if CanWrite() {
        user := Some(Record(u));
        thrown := None;
      } else {
        thrown := Some(failure);
      }
    }

    /** `localStorage.removeItem('user')`; it works on a store that refuses writes too. */
    method RemoveUser() returns (thrown: Option<Exception>)
      modifies this`user
      ensures accessible ==> user == None && thrown == None
      ensures !accessible ==> user == old(user) && thrown == Some(failure)
    {
      if accessible {
        user := None;
        thrown := None;
      } else {
        thrown := Some(failure);
      }
    }
  }
}
