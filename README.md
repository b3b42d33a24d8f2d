# Audio lesson library front end: session, login form, player, catalogue and guards

This project models the logic of a small browser front end in Dafny. The front end is a library of audio lessons behind a username and device login. The modelled parts share one state: the browser's `localStorage` and the in-memory session.

- **Storage** (`storage.dfy`): `localStorage` restricted to the two keys the application uses, `device_id` and `user`. Two flags give the failure modes. When `accessible` is false, every call throws. When `writable` is false, every `setItem` throws, as on storage with a zero quota.
- **Device identity** (`device_identity.dfy`): the get-or-create of the device id. The source has this logic in three places, and here it is written once. Each caller keeps its own handling of storage exceptions. The random generators are a `candidate` parameter.
- **Session manager** (`auth_context.dfy`, class `AuthProvider`): `user` and `loading`, the restore effect, `signIn` and `signOut`. The remote procedure `login_or_register` is a parameter `server: (username, deviceId) -> RpcOutcome`. Its reply is a datatype: an error, a rejected call, or data with no row, one row or an array of rows.
- **Login form** (`login.dfy`, class `LoginForm`): the `username`/`serial`/`error` fields, the button rule (`trim` with the ECMAScript whitespace set), `generateDeviceId`, `handleLogin`, `handleLogout` and the effect that mirrors the user.
- **Route guards** (`routing.dfy`): `RequireAuth` at "/" and `LoginPage` at "/login", as functions of `loading` and of whether there is a user.
- **Audio player** (`audio_player.dfy`, class `AudioPlayer` beside a `MediaElement`): play, mute, volume, seek and the effects. `formatTime` is modelled on non-negative real seconds and comes with a parser that reads the clock text back.
- **Catalogue** (`catalogue.dfy`, class `AudioList`): the ten lessons, the category filter, the active track and `getLocalAudioUrl`. The bundled asset map is a parameter.
- **Content guard** (`security.dfy`): the document-event classifier and the mount effect that writes `device_id` only when it is missing.
- `scenarios.dfy` holds three scenarios whose assertions the verifier proves: sign in, reload and sign out; a device mismatch; a login attempt on storage that refuses every write.

Three behaviours of the code are easy to miss, and the model follows the code in each:
- Get-or-create catches its own write of `device_id` (`src/context/AuthContext.tsx:44`, `src/components/Login.tsx:33`). But `handleLogin` writes the same key again without a guard (`src/components/Login.tsx:50`). So on storage that refuses writes, the form shows the storage error and never calls `signIn` (`LoginComponent.LoginForm.HandleLogin`).
- The restore effect keeps a persisted session only when its username and serial are both truthy (`src/context/AuthContext.tsx:29`). `signIn` opens and persists a session for every message other than the two refusals, whatever the serial (`src/context/AuthContext.tsx:63-66`). So a session opened without a serial is lost on reload (`AuthContext.OpenedSessionRestorableIff`).
- The fallback generator `Math.random().toString(36).slice(2)` (`src/components/Login.tsx:32`, `src/context/AuthContext.tsx:43`) gives "" when `Math.random()` returns 0. An empty id is stored but not reused, so the next call generates another (`DeviceIdentity.EmptyCandidateIsNotReused`).

## Model

| member | source | states |
|---|---|---|
| `Common.ErrorText` | src/context/AuthContext.tsx:68 | a thrown value is reported by its message when that is non-empty, else by its string form; the text is empty only when both are |
| `Storage.LocalStorage.GetDeviceId` | src/context/AuthContext.tsx:41 | `getItem('device_id')` returns the stored value, or throws the storage failure when storage is disabled |
| `Storage.LocalStorage.GetUser` | src/context/AuthContext.tsx:26-28 | `getItem('user')` followed by parsing returns the stored value, or throws when storage is disabled |
| `Storage.LocalStorage.SetDeviceId` | src/context/AuthContext.tsx:44 | the write stores the id when storage accepts writes; otherwise it throws and leaves the slot as it was |
| `Storage.LocalStorage.SetUser` | src/context/AuthContext.tsx:66 | the session record is stored when storage accepts writes; otherwise the call throws and changes nothing |
| `Storage.LocalStorage.RemoveUser` | src/context/AuthContext.tsx:74 | the `user` key is removed unless storage is disabled, in which case the call throws and changes nothing |
| `DeviceIdentity.ChosenId` | src/context/AuthContext.tsx:40-45 | the id in use is the stored one when it is truthy, else the candidate; it is non-empty exactly when one of those is |
| `DeviceIdentity.SlotAfter` | src/context/AuthContext.tsx:42-45 | a truthy stored id is never overwritten; the candidate is stored only when none was stored and the write succeeds |
| `DeviceIdentity.GetOrCreate` | src/context/AuthContext.tsx:40-45 | the shared step returns the chosen id and leaves the slot as `SlotAfter` says; it reports a write failure only when it had to write and could not |
| `DeviceIdentity.ExistingIdPreserved` | src/components/Login.tsx:29-35 | with a stored id, get-or-create returns that id and does not write |
| `DeviceIdentity.Idempotent` | src/components/Login.tsx:29-35 | two get-or-creates on writable storage return the same id and leave the same slot, given a stored id or a non-empty first candidate |
| `DeviceIdentity.EmptyCandidateIsNotReused` | src/components/Login.tsx:32 | an empty generated id is not reused by the next call, so the proviso of `Idempotent` is needed |
| `AuthContext.FirstRow` | src/context/AuthContext.tsx:49-50 | an array reply uses its first element; the row is missing exactly for null data or an empty array |
| `AuthContext.UserOf` | src/context/AuthContext.tsx:64 | the session takes the row's username, serial and id, and drops its message |
| `AuthContext.Classify` | src/context/AuthContext.tsx:47-69 | the error taxonomy of `signIn`. An RPC error keeps its message. A rejected call gives `err.message` or `String(err)`. A missing row gives 'No response from server'. `username_invalid` and `device_mismatch` give their Arabic texts. Every other message opens a session with the row's username, serial and id |
| `AuthContext.ResultOf` | src/context/AuthContext.tsx:48-67 | `signIn` reports success exactly when a session is opened, and otherwise the refusal's text |
| `AuthContext.Restored` | src/context/AuthContext.tsx:25-33 | a persisted session is restored only when it was read, parsed as a record, and has a truthy username and serial; the restored user is that record |
| `AuthContext.AuthProvider.constructor` | src/context/AuthContext.tsx:20-21 | the provider starts with no user and loading |
| `AuthContext.AuthProvider.Restore` | src/context/AuthContext.tsx:23-35 | after the mount effect loading is off in every case. The user is the restored record, or unchanged on any failure. A user that matched the persisted record still does |
| `AuthContext.AuthProvider.SignIn` | src/context/AuthContext.tsx:37-70 | the server receives the chosen device id. On refusal the user and the `user` key are unchanged. On success the user is the row's user, persisted when storage accepts writes. The device-id slot follows get-or-create. With working storage the user and the `user` key still match afterwards |
| `AuthContext.AuthProvider.SignOut` | src/context/AuthContext.tsx:72-76 | the user is cleared, the `user` key is removed unless storage is disabled, and `device_id` is untouched |
| `AuthContext.ReloadRestoresIff` | src/context/AuthContext.tsx:29 | a persisted session comes back after a reload exactly when its username and serial are both non-empty |
| `AuthContext.OpenedSessionRestorableIff` | src/context/AuthContext.tsx:53-66 | a session opened by `signIn` survives a reload exactly when the server's row had a username and a serial |
| `AuthContext.RefusalText` | src/context/AuthContext.tsx:50-60 | a reply with no row is refused with 'No response from server', `username_invalid` with 'اليوزر نيم خطأ' and `device_mismatch` with 'الجهاز غير مطابق' |
| `AuthContext.RefusalsDistinguishable` | src/context/AuthContext.tsx:50-60 | replies of the three refusal kinds are all refused, and two of them get the same verdict exactly when they are of the same kind |
| `LoginComponent.TrimStart` | src/components/Login.tsx:76 | removes exactly the leading whitespace: the result is a suffix, everything dropped is whitespace, and it does not start with whitespace |
| `LoginComponent.TrimEnd` | src/components/Login.tsx:76 | removes exactly the trailing whitespace: the result is a prefix, everything dropped is whitespace, and it does not end with whitespace |
| `LoginComponent.Trim` | src/components/Login.tsx:76 | `trim()` gives a contiguous run of the text with only whitespace and line terminators dropped on either side; neither end of the result is such a character, and the result is "" exactly when every character is one |
| `LoginComponent.LoginDisabled` | src/components/Login.tsx:76 | the login button is disabled exactly when the username consists only of ECMAScript whitespace and line terminators |
| `LoginComponent.FailureText` | src/components/Login.tsx:58 | the error shown after a failed sign-in is the returned error when that is non-empty, and 'Login failed' when it is empty |
| `LoginComponent.LoginForm.constructor` | src/components/Login.tsx:12-14 | the form starts with an empty username, error and serial |
| `LoginComponent.LoginForm.Type` | src/components/Login.tsx:73 | typing sets the username |
| `LoginComponent.LoginForm.MirrorUser` | src/components/Login.tsx:19-25 | with a user in the provider, the form shows that user's username and serial; without one it is unchanged |
| `LoginComponent.LoginForm.GenerateDeviceId` | src/components/Login.tsx:27-36 | a disabled storage throws. Otherwise the stored truthy id is returned without a write, or the candidate is returned, and written when storage accepts it |
| `LoginComponent.LoginForm.HandleLogout` | src/components/Login.tsx:38-44 | clears serial and error and removes only the `user` key. The provider's user and `device_id` are unchanged, so a signed-in provider no longer matches storage |
| `LoginComponent.LoginForm.HandleLogin` | src/components/Login.tsx:46-67 | storage that refuses writes gives the storage error with no sign-in, and leaves the user, the `user` key and `device_id` as they were. Otherwise a failure clears the serial and shows the error or 'Login failed'. A success clears the error, navigates to "/" and persists the user. The server receives the id the form stored when that is non-empty, otherwise the id `signIn` generates |
| `LoginComponent.ServerReceivesFormId` | src/components/Login.tsx:49-50 | after the write at line 50, the sign-in's own get-or-create picks the id the form generated, whenever that id is non-empty |
| `Routing.RequireAuthView` | src/components/RequireAuth.tsx:5-9 | nothing while loading, a replacing redirect to "/login" exactly when not loading and no user, the children otherwise |
| `Routing.LoginPageView` | src/pages/LoginPage.tsx:6-10 | nothing while loading, a replacing redirect to "/" exactly when not loading and signed in, the form otherwise |
| `Routing.ViewAt` | src/App.tsx:23-28 | once loading is over, "/login" renders exactly when signed out and every other path ("/" and the catch-all) exactly when signed in; a redirect always replaces, and goes to "/" from "/login" and to "/login" from every other path |
| `Routing.DependsOnlyOnPresence` | src/components/RequireAuth.tsx:6-9 | both decisions depend only on `loading` and on whether there is a user |
| `Routing.NoRedirectCycle` | src/pages/LoginPage.tsx:8-10 | once loading is over, exactly one of "/" and "/login" renders content and the other redirects to it |
| `Routing.OneRedirectSettles` | src/components/RequireAuth.tsx:7-9 | from any path, at most one redirect leads to a page that renders content |
| `Player.Decimal` | src/components/AudioPlayer.tsx:88 | the decimal text of a whole number is non-empty and all digits, with no leading zero; one digit exactly below 10 and two digits below 100 |
| `Player.DecimalRoundTrip` | src/components/AudioPlayer.tsx:88 | the decimal text reads back as the number |
| `Player.PadStart2` | src/components/AudioPlayer.tsx:88 | padding gives two characters for a shorter text and leaves a longer one alone |
| `Player.PadStart2Value` | src/components/AudioPlayer.tsx:88 | a leading zero keeps the text all digits and does not change its value |
| `Player.ClockFields` | src/components/AudioPlayer.tsx:86-87 | the seconds field is below 60, and minutes times 60 plus seconds is the whole part of the time |
| `Player.FormatTime` | src/components/AudioPlayer.tsx:85-89 | the clock text is the minutes' decimal text with no padding, a colon, and a two-digit seconds field whose value is below 60 |
| `Player.FormatTimeRoundTrip` | src/components/AudioPlayer.tsx:85-89 | reading the clock text back gives the whole seconds of the time, so the text loses only the fraction |
| `Player.UnmuteLevel` | src/components/AudioPlayer.tsx:77 | the unmute level is the volume when that is not 0, and 1 when it is 0 |
| `Player.MediaElement.constructor` | src/components/AudioPlayer.tsx:97 | a new element is at full volume, at the start and paused |
| `Player.AudioPlayer.constructor` | src/components/AudioPlayer.tsx:14-19 | a player starts not playing, at 0 of 0 seconds, with volume 1 and not muted; the element is paused, at volume 1 and at position 0 |
| `Player.AudioPlayer.TogglePlay` | src/components/AudioPlayer.tsx:47-58 | without a source nothing changes. Otherwise `isPlaying` flips and the element follows. `onPlay` runs exactly on a paused-to-playing switch |
| `Player.AudioPlayer.SetActive` | src/components/AudioPlayer.tsx:21-26 | a player that stops being active pauses when it was playing; any other prop change leaves playback as it was |
| `Player.AudioPlayer.OnEnded` | src/components/AudioPlayer.tsx:34 | the `ended` event leaves the player not playing |
| `Player.AudioPlayer.OnTimeUpdate` | src/components/AudioPlayer.tsx:32 | the clock takes the element's position |
| `Player.AudioPlayer.OnLoadedMetadata` | src/components/AudioPlayer.tsx:33 | the duration takes the element's duration |
| `Player.AudioPlayer.HandleSeek` | src/components/AudioPlayer.tsx:60-64 | the element and the clock move to the chosen position |
| `Player.AudioPlayer.HandleVolumeChange` | src/components/AudioPlayer.tsx:66-72 | the element and `volume` take the slider value, and the player is muted exactly at 0 |
| `Player.AudioPlayer.ToggleMute` | src/components/AudioPlayer.tsx:74-83 | muting sets the element to 0 and keeps `volume`; unmuting sets the element to `volume`, or 1 when it is 0; the element stays at the level the fields imply |
| `Player.AudioPlayer.DisplayedVolume` | src/components/AudioPlayer.tsx:128 | the slider sits at 0 exactly when the player is muted or its volume is 0, and stays within the slider's range |
| `Player.SliderShowsElementVolume` | src/components/AudioPlayer.tsx:77 | the volume slider (line 128) shows the element's level except after unmuting from 0: then the element plays at 1 and the slider shows 0 |
| `Catalogue.Filter` | src/components/AudioList.tsx:101 | the filtered list holds exactly the tracks of the catalogue in that category |
| `Catalogue.FilteredTracks` | src/components/AudioList.tsx:98-101 | "الكل" shows the whole catalogue; any other category shows exactly the catalogue's tracks of that category |
| `Catalogue.FilterAppend` | src/components/AudioList.tsx:101 | filtering distributes over concatenation, so the kept tracks stay in catalogue order |
| `Catalogue.CatalogueIdsDistinct` | src/components/AudioList.tsx:19-90 | no two lessons share an id |
| `Catalogue.FilterKeepsDistinctIds` | src/components/AudioList.tsx:101 | a filtered list of tracks with distinct ids has distinct ids |
| `Catalogue.AllShowsCatalogue` | src/components/AudioList.tsx:98-100 | "الكل" shows the whole catalogue of ten lessons |
| `Catalogue.BasicsShown` | src/components/AudioList.tsx:19-33 | the basics category shows the first two lessons, in order |
| `Catalogue.SkillsShown` | src/components/AudioList.tsx:34-40 | the skills category shows the third lesson alone |
| `Catalogue.DestinationsShown` | src/components/AudioList.tsx:41-90 | the destinations category shows the last seven lessons, in order |
| `Catalogue.LocalAudioUrl` | src/components/AudioList.tsx:15-17 | a file missing from the bundled assets gives ""; a bundled file gives its URL |
| `Catalogue.AudioList.constructor` | src/components/AudioList.tsx:93-94 | no track is active at first and "الكل" is selected |
| `Catalogue.AudioList.SelectCategory` | src/components/AudioList.tsx:114 | a category button selects its category |
| `Catalogue.AudioList.HandlePlay` | src/components/AudioList.tsx:103-105 | after `handlePlay(id)`, a track on screen is active exactly when it has that id |
| `Catalogue.AtMostOneActive` | src/components/AudioList.tsx:150 | whatever is selected and active, at most one player on screen receives `isActive` |
| `Catalogue.EveryLessonHasAButton` | src/components/AudioList.tsx:96 | every lesson's category is one of the category buttons other than "الكل" |
| `Security.OnKeyDown` | src/components/SecurityProvider.tsx:22-59 | a key press is let through, cancelled, or cancelled with the clipboard cleared and the screen-capture toast; the last happens exactly on PrintScreen |
| `Security.React` | src/components/SecurityProvider.tsx:12-73 | the context menu is always cancelled with a toast, drag start is always cancelled, a visibility change is never cancelled, and a key press goes to the key classifier |
| `Security.OnKeyDownMatchesTable` | src/components/SecurityProvider.tsx:22-59 | a key press is cancelled exactly when it matches the table of blocked shortcuts; every other combination is let through |
| `Security.SaveAndSourceIgnoreShift` | src/components/SecurityProvider.tsx:24-32 | Ctrl/Cmd with s, S, u or U is cancelled with or without Shift |
| `Security.F12AlwaysCancelled` | src/components/SecurityProvider.tsx:34-37 | F12 is cancelled with any modifiers or none |
| `Security.DevToolsNeedShift` | src/components/SecurityProvider.tsx:39-47 | Ctrl/Cmd with i, I, j or J is cancelled exactly when Shift is held too; otherwise it passes |
| `Security.PrintScreenClearsClipboard` | src/components/SecurityProvider.tsx:49-58 | PrintScreen is cancelled, the clipboard is overwritten with "" and a toast is raised, whatever the modifiers |
| `Security.MoreModifiersKeepCancelled` | src/components/SecurityProvider.tsx:22-59 | holding more modifiers never lets a cancelled key through and does not change how it is cancelled |
| `Security.Mount` | src/components/SecurityProvider.tsx:75-77 | `device_id` is written only when it is missing or empty, so an existing id is never overwritten. A refused read or write escapes the effect, before any listener is installed |

## Left out

- The `login_or_register` procedure and its server-side rules are not part of this model. Its reply is an input, given by the `server` parameter.
- `crypto.randomUUID`, `Math.random().toString(36)` and `nanoid` are nondeterministic foreign calls. Each is a `candidate` string parameter that may be any string.
- JSON encoding is not modelled. The `user` key holds either the record `JSON.stringify` wrote, which parses back to itself, or text that does not parse to a record. Extra fields of a parsed object are dropped.
- `async`/`await`: `signIn` is one atomic step given the reply. Interleaved or re-entrant sign-ins are concurrency and are not modelled.
- The `typeof window === 'undefined'` branch of `generateDeviceId` is server-side rendering and is not modelled. That branch returns "".
- The `window.location` redirect in `signOut`, navigation itself, rendering, CSS, icons, Helmet, toasts as UI, clipboard writes, `console.log`, `document.body.style`, and adding or removing listeners are all left out. These are browser side effects. The listeners are installed after the `device_id` read and write (`src/components/SecurityProvider.tsx:75-82`), so `React`'s reactions apply only after a `Mount` that returned None: when `Mount` throws, no listener is installed. Reactions to events and navigation targets are returned as values.
- `AudioPlayer.OnTimeUpdate`: the element's own progress during playback is not modelled. It is the environment. The handler only copies the position.
- `audioRef.current` is null before mount, and every handler then returns early. The model assumes a mounted element.
- `HTMLMediaElement.play()` may reject, for example under an autoplay policy. The source sets `isPlaying` regardless, and so does the model. The rejection is not modelled.
- Floating point is not modelled. Times and volumes are mathematical reals. NaN or infinite durations are not modelled, and neither are negative times (`FormatTime` requires t >= 0). Exponent notation for minutes at or beyond 10^21 is not modelled either.
- `HandleVolumeChange` requires a value in [0, 1], the slider's range. The element would throw outside it.
- The element clamps a seek position to its duration. That clamping is browser behaviour and is not modelled.
- The effects run when their dependencies change. `MirrorUser` and `SetActive` model one run each. The caller invokes them where React would.
- `import.meta.glob` asset loading is build-tool plumbing. The asset map is a parameter of `LocalAudioUrl`.
- `src/App.tsx`, `src/pages/Index.tsx` and `src/components/Header.tsx` compose providers and routes and present the result. They are not part of this model beyond `Routing.ViewAt` and the guards. Header's sign-out button calls `SignOut`.
- ViewAt: a path is "/login" only when it equals that text exactly. The router also matches it case-insensitively and with trailing slashes ("/Login", "/login/"), and those paths show the login page where the model shows the guard. Path matching is router behaviour and is not modelled.
- Storage quota is not modelled. `writable` is one flag: every `setItem` succeeds, or every one throws. A browser rejects only a write that would grow a full store, so rewriting an unchanged `device_id` on a full store succeeds. The model does not capture that case.
