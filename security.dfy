/** The content guard (`SecurityProvider`): which document events it
    cancels, and the device id it makes sure exists on mount. */
module Security {
  import opened Common
  import opened Storage
  import DeviceIdentity

  /** The parts of a `KeyboardEvent` the handler reads. */
  datatype KeyEvent = KeyEvent(ctrlKey: bool, metaKey: bool, shiftKey: bool, key: string)

  /** The document events the provider listens to. */
  datatype DocumentEvent = ContextMenu | KeyDown(event: KeyEvent) | DragStart | VisibilityChange(hidden: bool)

  /** A destructive toast. */
  datatype Toast = Toast(title: string, description: string)

  /** What a handler does with an event: let it through, `preventDefault()`,
      and possibly raise a toast and overwrite the clipboard with "". */
  datatype Reaction = Allow | Prevent | PreventAndToast(toast: Toast) | PreventClearClipboardAndToast(toast: Toast)

  const ProtectedToast := Toast("غير مسموح", "هذا المحتوى محمي ولا يمكن نسخه أو تحميله")
  const ScreenCaptureToast := Toast("محمي", "تسجيل الشاشة غير مسموح")

  /** Ctrl on Windows and Linux, Cmd on macOS. */
  predicate Modified(e: KeyEvent)
  {
    e.ctrlKey || e.metaKey
  }

  /** `handleKeyDown`: the five checks, in order. It never raises the
      protected-content toast, and it clears the clipboard exactly on
      PrintScreen, whatever the modifiers. */
  function OnKeyDown(e: KeyEvent): (r: Reaction)
    ensures r == Allow || r == Prevent || r == PreventClearClipboardAndToast(ScreenCaptureToast)
    ensures r.PreventClearClipboardAndToast? <==> e.key == "PrintScreen"
  {
    if Modified(e) && (e.key == "s" || e.key == "S") then Prevent             // save
    else if Modified(e) && (e.key == "u" || e.key == "U") then Prevent        // view source
    else if e.key == "F12" then Prevent                                       // developer tools
    else if Modified(e) && e.shiftKey && (e.key == "i" || e.key == "I") then Prevent  // developer tools
    else if Modified(e) && e.shiftKey && (e.key == "j" || e.key == "J") then Prevent  // console
    else if e.key == "PrintScreen" then PreventClearClipboardAndToast(ScreenCaptureToast)
    else Allow
  }

  /** The four listeners the provider installs. */
  function React(ev: DocumentEvent): (r: Reaction)
    ensures ev == ContextMenu ==> r == PreventAndToast(ProtectedToast)
    ensures ev == DragStart ==> r == Prevent
    ensures ev.VisibilityChange? ==> r == Allow
    ensures ev.KeyDown? ==> r == OnKeyDown(ev.event)
  {
    match ev
    case ContextMenu => PreventAndToast(ProtectedToast)
    case KeyDown(e) => OnKeyDown(e)
    case DragStart => Prevent
    case VisibilityChange(_) => Allow
  }

  /** An independent description of the blocked shortcuts: a key, and the
      modifiers that must be held with it. */
  datatype Shortcut = Shortcut(key: string, needsModifier: bool, needsShift: bool)

  const BlockedShortcuts: seq<Shortcut> :=
    [ Shortcut("s", true, false), Shortcut("S", true, false),
      Shortcut("u", true, false), Shortcut("U", true, false),
      Shortcut("F12", false, false),
      Shortcut("i", true, true), Shortcut("I", true, true),
      Shortcut("j", true, true), Shortcut("J", true, true),
      Shortcut("PrintScreen", false, false) ]

  predicate Matches(s: Shortcut, e: KeyEvent)
  {
    e.key == s.key && (s.needsModifier ==> Modified(e)) && (s.needsShift ==> e.shiftKey)
  }

  predicate InTable(e: KeyEvent)
  {
    exists i :: 0 <= i < |BlockedShortcuts| && Matches(BlockedShortcuts[i], e)
  }

  /** The handler cancels exactly the key combinations of the table: every
      other combination is let through. */
  lemma {:induction false} OnKeyDownMatchesTable(e: KeyEvent)
    ensures OnKeyDown(e) != Allow <==> InTable(e)
  {
    if OnKeyDown(e) != Allow {
      var i := if e.key == "s" then 0 else if e.key == "S" then 1
               else if e.key == "u" then 2 else if e.key == "U" then 3
               else if e.key == "F12" then 4
               else if e.key == "i" then 5 else if e.key == "I" then 6
               else if e.key == "j" then 7 else if e.key == "J" then 8
               else 9;
      assert Matches(BlockedShortcuts[i], e);
    } else {
      forall i | 0 <= i < |BlockedShortcuts|
        ensures !Matches(BlockedShortcuts[i], e)
      {
      }
    }
  }

  /** Save and view-source are cancelled with Ctrl or Cmd, whether or not Shift is held. */
  lemma SaveAndSourceIgnoreShift(e: KeyEvent)
    requires Modified(e) && e.key in {"s", "S", "u", "U"}
    ensures OnKeyDown(e) == Prevent
    ensures OnKeyDown(e.(shiftKey := !e.shiftKey)) == Prevent
  {
  }

  /** F12 is cancelled with any modifiers or none. */
  lemma F12AlwaysCancelled(ctrlKey: bool, metaKey: bool, shiftKey: bool)
    ensures OnKeyDown(KeyEvent(ctrlKey, metaKey, shiftKey, "F12")) == Prevent
  {
  }

  /** Ctrl/Cmd+I and Ctrl/Cmd+J are cancelled only together with Shift. */
  lemma DevToolsNeedShift(e: KeyEvent)
    requires e.key in {"i", "I", "j", "J"}
    ensures OnKeyDown(e) == Prevent <==> Modified(e) && e.shiftKey
    ensures OnKeyDown(e) != Prevent ==> OnKeyDown(e) == Allow
  {
  }

  /** PrintScreen is cancelled, the clipboard cleared and a toast raised, whatever the modifiers. */
  lemma PrintScreenClearsClipboard(ctrlKey: bool, metaKey: bool, shiftKey: bool)
    ensures OnKeyDown(KeyEvent(ctrlKey, metaKey, shiftKey, "PrintScreen")) == PreventClearClipboardAndToast(ScreenCaptureToast)
  {
  }

  /** Holding more modifiers never lets a cancelled key through, nor changes how it is cancelled. */
  lemma MoreModifiersKeepCancelled(e: KeyEvent, f: KeyEvent)
    requires e.key == f.key
    requires (e.ctrlKey ==> f.ctrlKey) && (e.metaKey ==> f.metaKey) && (e.shiftKey ==> f.shiftKey)
    requires OnKeyDown(e) != Allow
    ensures OnKeyDown(f) == OnKeyDown(e)
  {
  }

  /** The mount effect's `if (!getItem('device_id')) setItem('device_id', nanoid())`.
      Neither call is guarded, so `thrown` is what escapes the effect. */
  method Mount(store: LocalStorage, candidate: string) returns (thrown: Option<Exception>)
    modifies store`deviceId
    ensures !store.accessible ==> thrown == Some(store.failure) && store.deviceId == old(store.deviceId)
    ensures store.deviceId == DeviceIdentity.SlotAfter(old(store.deviceId), candidate, store.CanWrite())
    ensures store.accessible ==>
              thrown == (if DeviceIdentity.HasId(old(store.deviceId)) || store.CanWrite() then None else Some(store.failure))
  {
    var read := store.GetDeviceId();
    if read.Threw? {
      return Some(read.exception);
    }
    var _, writeFailure := DeviceIdentity.GetOrCreate(store, read.value, candidate);
    thrown := writeFailure;
  }
}
