/** The session manager (`AuthProvider`): the signed-in user, the loading flag
    and their persistence under the `user` key. */
module AuthContext {
  import opened Common
  import opened Storage
  import DeviceIdentity

  /** One row of the `login_or_register` reply. */
  datatype Row = Row(message: string, username: string, serial: string, id: Option<int>)

  /** The reply's `data`: null, a single row, or an array of rows. */
  datatype Data = Null | Single(row: Row) | Rows(rows: seq<Row>)

  /** What awaiting `supabase.rpc('login_or_register', …)` gives: an `error`
      object, the `data`, or a rejected promise. */
  datatype RpcOutcome = RpcError(message: string) | Replied(data: Data) | Rejected(exception: Exception)

  /** The value `signIn` resolves to: `{ success: true }` or `{ success: false, error }`. */
  datatype SignInResult = Success | Failure(error: string)

  /** What `signIn` decides from the reply: open a session for a user, or refuse with a message. */
  datatype Verdict = Open(user: User) | Refuse(error: string)

  const UsernameInvalid := "username_invalid"
  const DeviceMismatch := "device_mismatch"
  const UsernameInvalidText := "اليوزر نيم خطأ"
  const DeviceMismatchText := "الجهاز غير مطابق"
  const NoResponseText := "No response from server"

  /** A session is restorable only with a truthy `username` and `serial`. */
  predicate Restorable(u: User)
  {
    u.username != "" && u.serial != ""
  }

  /** `Array.isArray(data) ? data[0] : data`, with `!row` read as None. */
  function FirstRow(data: Data): (row: Option<Row>)
    ensures row.None? <==> data == Null || data == Rows([])
    ensures row.Some? ==> (data.Single? && row.value == data.row) || (data.Rows? && row.value == data.rows[0])
  {
    match data
    case Null => None
    case Single(r) => Some(r)
    case Rows(rs) => if rs == [] then None else Some(rs[0])
  }

  /** The session built from a row: `{ username, serial, id }`, the row's
      message dropped. */
  function UserOf(row: Row): (u: User)
    ensures u.username == row.username && u.serial == row.serial && u.id == row.id
  {
    User(row.username, row.serial, row.id)
  }

  /** The decision of `signIn` on the reply, with its error taxonomy: a
      transport error keeps the server's message, a rejected call the thrown
      message, a missing row gives the generic text, the two refusals their
      Arabic texts, and every other message opens a session from the row. */
  function Classify(outcome: RpcOutcome): (v: Verdict)
    ensures outcome.RpcError? ==> v == Refuse(outcome.message)
    ensures outcome.Rejected? ==> v == Refuse(ErrorText(outcome.exception))
    ensures outcome.Replied? && FirstRow(outcome.data).None? ==> v == Refuse(NoResponseText)
    ensures v.Open? <==> (outcome.Replied? && FirstRow(outcome.data).Some?
                          && FirstRow(outcome.data).value.message != UsernameInvalid
                          && FirstRow(outcome.data).value.message != DeviceMismatch)
    ensures v.Open? ==> v.user == UserOf(FirstRow(outcome.data).value)
    ensures outcome.Replied? && FirstRow(outcome.data).Some? ==>
              (FirstRow(outcome.data).value.message == UsernameInvalid <==> v == Refuse(UsernameInvalidText))
    ensures outcome.Replied? && FirstRow(outcome.data).Some? && FirstRow(outcome.data).value.message == DeviceMismatch ==>
              v == Refuse(DeviceMismatchText)
  {
    match outcome
    case RpcError(m) => Refuse(m)
    case Rejected(e) => Refuse(ErrorText(e))
    case Replied(data) =>
      match FirstRow(data)
      case None => Refuse(NoResponseText)
      case Some(row) =>
        if row.message == UsernameInvalid then Refuse(UsernameInvalidText)
        else if row.message == DeviceMismatch then Refuse(DeviceMismatchText)
        else Open(UserOf(row))
  }

  /** The value `signIn` returns for a verdict. */
  function ResultOf(v: Verdict): (r: SignInResult)
    ensures r.Success? <==> v.Open?
    ensures v.Refuse? ==> r == Failure(v.error)
  {
    match v
    case Open(_) => Success
    case Refuse(e) => Failure(e)
  }

  /** The user the mount effect restores from a read of the `user` key, if any. */
  function Restored(read: Completion<Option<Persisted>>): (r: Option<User>)
    ensures r.Some? <==> read.Returned? && read.value.Some? && read.value.value.Record? && Restorable(read.value.value.user)
    ensures r.Some? ==> read == Returned(Some(Record(r.value)))
  {
    match read
    case Returned(Some(Record(u))) => if Restorable(u) then Some(u) else None
    case _ => None
  }

  class AuthProvider {
    var user: Option<User>
    var loading: bool
    const store: LocalStorage

    /** The initial state: no user, loading. */
    constructor (store: LocalStorage)
      ensures this.store == store && user == None && loading
    {
      this.store := store;
      user := None;
      loading := true;
    }

    /** The in-memory user equals the persisted one; a reload then restores
        the same session (when it is restorable). */
    ghost predicate Synced()
      reads this, store
    {
      user.Some? ==> store.user == Some(Record(user.value))
    }

    /** What `getItem('device_id') || ''` gives inside `signIn`: the read of
        the slot, with a thrown read caught as "". */
    function DeviceIdRead(): Option<string>
      reads this, store
    {
      match store.DeviceIdItem()
      case Returned(slot) => slot
      case Threw(_) => None
    }

    /** The mount effect: restore a persisted session, then stop loading. Any
        failure (storage refused, text that does not parse, a record without
        username or serial) leaves `user` as it was. */
    method Restore()
      modifies this`user, this`loading
      ensures !loading
      ensures user == (if Restored(store.UserItem()).Some? then Restored(store.UserItem()) else old(user))
      ensures old(Synced()) ==> Synced()
    {
      var read := store.GetUser();
      var restored := Restored(read);
      if restored.Some? {
        user := restored;
      }
      loading := false;
    }

    /** `signIn(username)`: get or create the device id (read and write
        failures ignored), call the server with it, and on success replace the
        session and persist it (a failed write ignored). On failure nothing but
        the device id changes. `server` stands for the remote procedure,
        `candidate` for the generated id. */
    method SignIn(username: string, candidate: string, server: (string, string) -> RpcOutcome) returns (res: SignInResult)
      modifies this`user, store`deviceId, store`user
      ensures var v := Classify(server(username, DeviceIdentity.ChosenId(old(DeviceIdRead()), candidate)));
              && res == ResultOf(v)
              && (v.Refuse? ==> user == old(user) && store.user == old(store.user))
              && (v.Open? ==> user == Some(v.user))
              && (v.Open? && store.CanWrite() ==> store.user == Some(Record(v.user)))
              && (v.Open? && !store.CanWrite() ==> store.user == old(store.user))
      ensures store.deviceId == DeviceIdentity.SlotAfter(old(store.deviceId), candidate, store.CanWrite())
      ensures old(Synced()) && store.CanWrite() ==> Synced()
    {
      var read := DeviceIdRead();
      var deviceId, _ := DeviceIdentity.GetOrCreate(store, read, candidate);
      var v := Classify(server(username, deviceId));
      if v.Open? {
        user := Some(v.user);
        var _ := store.SetUser(v.user);
      }
      res := ResultOf(v);
    }

    /** `signOut()`: drop the session and the `user` key (a refused removal is
        ignored); the device id stays. */
    method SignOut()
      modifies this`user, store`user
      ensures user == None
      ensures store.user == (if store.accessible then None else old(store.user))
      ensures store.deviceId == old(store.deviceId)
      ensures Synced()
    {
      user := None;
      var _ := store.RemoveUser();
    }
  }

  /** Persisting a session and restoring it after a reload gives it back
      exactly when its username and serial are both non-empty; `signIn`
      itself does not check the serial, so a session opened with an empty
      serial is lost on reload. */
  lemma ReloadRestoresIff(u: User)
    ensures Restored(Returned(Some(Record(u)))) == Some(u) <==> Restorable(u)
    ensures !Restorable(u) ==> Restored(Returned(Some(Record(u)))) == None
  {
  }

  /** A reply with any message other than the two refusals opens a session,
      whatever the serial, so the opened session is restorable only when the
      server sent a username and a serial. */
  lemma OpenedSessionRestorableIff(outcome: RpcOutcome)
    requires Classify(outcome).Open?
    ensures Restored(Returned(Some(Record(Classify(outcome).user)))).Some?
            <==> FirstRow(outcome.data).value.username != "" && FirstRow(outcome.data).value.serial != ""
  {
  }

  /** The three refusals the server side can cause. */
  datatype Refusal = NoRow | InvalidUsername | WrongDevice

  /** Which of the three refusals a reply is, if any. */
  function RefusalOf(outcome: RpcOutcome): Option<Refusal>
  {
    if !outcome.Replied? then None
    else match FirstRow(outcome.data)
      case None => Some(NoRow)
      case Some(row) =>
        if row.message == UsernameInvalid then Some(InvalidUsername)
        else if row.message == DeviceMismatch then Some(WrongDevice)
        else None
  }

  /** A reply of a refusal kind is refused, and replies of different refusal
      kinds are refused with different texts, so the caller can tell a
      missing row, an invalid username and a device mismatch apart. */
  lemma {:induction false} RefusalsDistinguishable(o1: RpcOutcome, o2: RpcOutcome)
    requires RefusalOf(o1).Some? && RefusalOf(o2).Some?
    ensures Classify(o1).Refuse? && Classify(o2).Refuse?
    ensures Classify(o1) == Classify(o2) <==> RefusalOf(o1) == RefusalOf(o2)
  {
  }

  /** The text each refusal kind is reported with. */
  lemma RefusalText(o: RpcOutcome)
    requires RefusalOf(o).Some?
    ensures RefusalOf(o) == Some(NoRow) ==> Classify(o) == Refuse(NoResponseText)
    ensures RefusalOf(o) == Some(InvalidUsername) ==> Classify(o) == Refuse(UsernameInvalidText)
    ensures RefusalOf(o) == Some(WrongDevice) ==> Classify(o) == Refuse(DeviceMismatchText)
  {
  }
}
