# pynuki in Dafny

A model of pynuki, a Python client for the Nuki Bridge HTTP API. The
bridge is a small box that pairs with Nuki smart locks and door openers
and answers HTTP requests on port 8080. The model covers the logic the
library puts around those requests. The HTTP traffic is not modelled: every
answer of the bridge is a parameter. The model covers all three copies of
that logic in the repository:

- the current client (`pynuki/bridge.py`, `pynuki/device.py`,
  `pynuki/lock.py`, `pynuki/opener.py`, `pynuki/utils.py`);
- the older single-file client (`pynuki/pynuki.py`);
- the plain-token client (`pynuki/local/pynuki.py`).

What is modelled:

- **Device records.** The `list` endpoint answers with one descriptor per
  paired device. A descriptor is turned into a flat record:
  - its top-level fields, without `lastKnownState`;
  - overlaid with the fields of `lastKnownState`, without `timestamp`, so
    the state wins on a clash.

  Each record is then wrapped as a lock, an opener or a generic device
  according to its top-level `deviceType` (module `Records`).
- **Requests.** Each request starts from authentication parameters:
  - the plain `{token}`;
  - or the hashed-token triple `ts`, `rnr`, `hash`.

  The caller's parameters are laid over them, and the query string is
  joined by hand in insertion order (modules `Params` and `Calls`). The
  hashed token is SHA-256 over `"{ts},{rnr},{token}"`. SHA-256, the clock
  and the random nonce are inputs (module `Utils`).
- **Devices.** The getters and the type, model and mode name tables. The
  aggressive and passive refreshes and the callback refresh update the
  record in place (class `Device.NukiDevice`). The lock and opener wrappers
  add the door-sensor rule and the action calls (modules `Lock` and
  `Opener`).
- **Bridges.** These are classes holding:
  - the token and its digest;
  - the cached `info` answer;
  - the device lists built in loops (`Bridge.NukiBridge`,
    `Legacy.LegacyBridge`, `Local.LocalBridge`).

Python semantics that matter are written out:

- `==` between a bool and an int compares numerically (`Json.PyEq`).
- Truthiness is `Json.Truthy`.
- `dict.get` defaults to `None` (`Json.Get`).
- `dict.update` lets the right-hand side win: map `+` on records,
  `Params.Update` on ordered parameter dicts.

Devices keep no reference to their bridge. A device action returns the
`Calls.Call` (endpoint and parameters) it would hand to the bridge's
`__rq`.

## Model

| member | source | states |
|---|---|---|
| Json.PyEqIsEquivalence | pynuki/device.py:41-63 | Python `==` on JSON values is reflexive, symmetric and transitive and keeps truthiness, so the comparisons in the tables behave as equalities |
| Json.Without | pynuki/bridge.py:207-210 | a dict comprehension that drops one key keeps every other key with its value and loses that key |
| Text.ParseNatToString | pynuki/utils.py:19 | the decimal text `str(rnr)` reads back as `rnr` |
| Text.SplitJoin | pynuki/bridge.py:106 | joining texts without the separator and splitting again gives the texts back |
| Params.Find | pynuki/bridge.py:98-106 | a key lookup on a parameter dict succeeds exactly for the dict's keys |
| Params.Put | pynuki/bridge.py:103 | setting a key gives it the new value, keeps every other key's value, and appends the key only when it is new |
| Params.UpdateFind | pynuki/bridge.py:102-103 | after `update`, a key of the update has the update's value and any other key keeps its old value |
| Params.UpdateKeys | pynuki/bridge.py:102-103 | after `update`, the old keys keep their places and the new keys follow in the update's order |
| Params.UpdateKeepsDistinct | pynuki/bridge.py:102-103 | `update` keeps the keys of a dict distinct |
| Params.UpdateIsMapOverride | pynuki/bridge.py:102-103 | as a map, `update` is the override of the old dict by the new one |
| Params.UpdateFresh | pynuki/bridge.py:102-103 | updating with keys that are all new appends the new pairs in order |
| Params.QueryStringRoundTrip | pynuki/bridge.py:106 | a query string joined from `k=v` pairs with no `&` inside them, and no `=` in any key, splits back into the rendered pairs in insertion order |
| Encoding.Utf8RoundTrip | pynuki/utils.py:13 | the UTF-8 encoding of the hashed text decodes back to the text |
| Encoding.AsciiEncodesToItself | pynuki/utils.py:13 | an ASCII text encodes to one byte per character, equal to its code |
| Encoding.HexEncode | pynuki/utils.py:13 | `hexdigest()` gives two lower-case hex digits per byte |
| Encoding.HexRoundTrip | pynuki/utils.py:13 | the hex digest reads back as the digest bytes |
| Utils.Sha256Sum | pynuki/utils.py:12-13 | `sha256sum` is 64 lower-case hex characters that decode to SHA-256 of the UTF-8 bytes of the input |
| Utils.FormatTimestamp | pynuki/utils.py:18 | `ts` is 20 characters, `YYYY-MM-DDTHH:MM:SSZ`: the separators at positions 4, 7, 10, 13, 16 and 19, digits elsewhere |
| Utils.TimestampRoundTrip | pynuki/utils.py:18 | the formatted timestamp reads back as the clock reading it came from |
| Utils.PadParses | pynuki/utils.py:18 | a zero-padded field reads back as its number |
| Utils.HashInputRoundTrip | pynuki/utils.py:19 | the hashed text `"{ts},{rnr},{token}"` splits back into `ts`, `rnr` and the token's text |
| Utils.HashInputInjective | pynuki/utils.py:17-19 | two clock readings or nonces that differ give different hashed texts for the same token |
| Utils.HashToken | pynuki/utils.py:16-20 | `hash_token` has exactly the keys `ts`, `rnr`, `hash` in that order, with the formatted timestamp and the nonce in 0..65535 |
| Utils.HashTokenAccepted | pynuki/utils.py:16-20 | a bridge holding the same token recomputes the hash from `ts` and `rnr` and accepts it; the hash is 64 lower-case hex digits |
| Records.MergeFailsWhen | pynuki/bridge.py:207-222 | merging a descriptor fails exactly when `lastKnownState` is present but not an object, or is missing where the merge demands it |
| Records.MergedFields | pynuki/bridge.py:207-222 | the merged record holds every top-level key but `lastKnownState`, and every state key but `timestamp`; on a clash the state value wins |
| Records.MergeWithoutState | pynuki/bridge.py:212-219 | a descriptor without `lastKnownState` merges to its own fields |
| Records.MergeExample | pynuki/bridge.py:207-222 | the "Home" lock descriptor merges to its name, ID and type plus its state, without the timestamp |
| Records.MergeAllSpec | pynuki/pynuki.py:300-323 | merging a list gives one record per descriptor in list order when all merge, and otherwise the error of the first descriptor that fails |
| Records.FirstWithIdSpec | pynuki/device.py:101-109 | the first record whose `nukiId` equals the ID; none exactly when no record has it |
| Records.MatchingConcat | pynuki/bridge.py:132-136 | filtering by type distributes over concatenation, so list order is kept |
| Records.MatchingMembers | pynuki/bridge.py:132-136 | `list(device_type)` holds exactly the listed entries whose `deviceType` equals the type |
| Records.TypeKind | pynuki/bridge.py:224-235 | types LOCK, SMARTDOOR and SMARTLOCK3 give a lock wrapper, OPENER an opener, anything else a generic device |
| Records.DispatchIgnoresState | pynuki/bridge.py:224-235 | the wrapper kind depends on the top-level `deviceType` only, even when the state carries a `deviceType` that the merge lets win |
| Records.LockDescsMembers | pynuki/bridge.py:244-250 | `locks` keeps exactly the descriptors dispatched as locks |
| Records.OpenerListingIsOpeners | pynuki/bridge.py:252-254 | every descriptor listed with the opener type is dispatched as an opener |
| Records.LookupSpec | pynuki/device.py:99-109 | a passive lookup that succeeds returns a merged record with the same ID; when all merge it succeeds exactly when some record has the ID; a descriptor that cannot be merged makes it fail |
| Calls.OverlaySpec | pynuki/bridge.py:98-106 | caller parameters override same-named authentication parameters; the authentication keys keep their places and new keys follow |
| Calls.QueryCarriesBaseThenParams | pynuki/bridge.py:98-106 | when no caller key shadows an authentication key, the bridge reads back the authentication pairs and then the caller's, in order |
| Calls.PlainQueryStartsWithToken | pynuki/bridge.py:100-106 | in plain mode the first pair the bridge reads is the token, followed by the caller's pairs |
| Calls.ConfigAuth | pynuki/bridge.py:129-130 | `config_auth` sends only `enable`, 1 exactly when enabling and 0 exactly when disabling |
| Calls.LockState | pynuki/bridge.py:138-141 | `lock_state` sends the Nuki ID and the device type, in that order |
| Calls.LockAction | pynuki/bridge.py:143-152 | `lock_action` sends `nukiId`, `deviceType`, `action` and `noWait`, with `noWait` 0 exactly when blocking and 1 exactly when not |
| Calls.LockShorthands | pynuki/bridge.py:256-295 | lock, unlock and unlatch send their action codes; lock 'n' go sends WITH_UNLATCH exactly when unlatching; all pass the device, type and `block` through, and no two send the same call |
| Device.NukiDevice.DeviceTypeStr | pynuki/device.py:41-49 | "lock" exactly for LOCK, "opener" exactly for OPENER, "UNKNOWN" for every other code |
| Device.NukiDevice.DeviceModelStr | pynuki/device.py:51-63 | each of the four type codes has its model name, and "UNKNOWN" comes exactly for the codes the dispatch treats as generic |
| Device.NukiDevice.ModeStr | pynuki/device.py:65-82 | "door mode" exactly for a lock or an opener in door mode, "continuous" exactly for an opener in continuous mode, "UNKNOWN" otherwise |
| Device.NukiDevice.UpdateAggressive | pynuki/device.py:84-98 | asks for the lock state with the default lock type; fails, with the record unchanged, exactly when `success` is missing or falsy; otherwise folds in the answer without `success` |
| Device.NukiDevice.UpdatePassive | pynuki/device.py:99-109 | overlays the first same-typed listed device with the same ID, or fails with the record unchanged; the ID stays equal |
| Device.NukiDevice.UpdateFromCallback | pynuki/device.py:111-119 | fails, with the record unchanged, exactly when the callback is for another Nuki ID; otherwise every callback key overwrites its field |
| Device.GettersDefaultToNone | pynuki/device.py:13-39 | each getter reads its own key and gives None when it is missing |
| Device.TypeNameVersusDispatch | pynuki/device.py:41-49 | a device wrapped as a lock reads "UNKNOWN" exactly when it is a Smart Door or a Smart Lock 3.0; an opener always reads "opener" |
| Device.AggressiveRefreshFields | pynuki/device.py:97-98 | after an aggressive refresh, answered keys other than `success` take the answer and all other keys keep their values |
| Lock.LockedStates | pynuki/lock.py:9-10 | a lock is locked exactly in state 1 (or `True`) |
| Lock.LockGetters | pynuki/lock.py:23-37 | the door-sensor, battery-charge and keypad getters read their own keys and give None when missing |
| Lock.DoorSensorActivated | pynuki/lock.py:12-21 | None exactly when the door-sensor state is missing, falsy or UNKNOWN; otherwise true exactly when it is not DEACTIVATED |
| Lock.DoorSensorTable | pynuki/lock.py:12-21 | the door-sensor rule on each state code: missing, 0 and UNKNOWN give None, DEACTIVATED false, door closed and door opened true |
| Lock.LockActionsUseDefaultType | pynuki/lock.py:39-51 | the lock's actions send its own Nuki ID, `block`, the right action code and the default lock type, even for a Smart Door or a Smart Lock 3.0 |
| Opener.RtoActiveState | pynuki/opener.py:9-10 | ring to open is active exactly in state 3 |
| Opener.RingGetters | pynuki/opener.py:12-18 | the ring-action getters read their own keys and give None when missing |
| Opener.OpenerActionsSpec | pynuki/opener.py:20-58 | the five actions send the opener's own Nuki ID and device type and `block`, with action codes 1 to 5 in order, and no two are equal |
| Bridge.TokenDigest | pynuki/bridge.py:75-78 | a truthy text token has a 64-character hex digest of its UTF-8 bytes; a falsy one has None; a truthy token that is not text raises AttributeError |
| Bridge.NukiBridge.constructor | pynuki/bridge.py:31-45 | keeps host, port and mode and sets the token with its digest; the cache is empty for a falsy token and holds the login probe's `info` answer for a truthy one |
| Bridge.NukiBridge.SetToken | pynuki/bridge.py:75-82 | the token is stored; a truthy non-text token raises AttributeError with the old digest kept; otherwise the digest follows the token, and a truthy token with an empty cache requests `info` and caches the answer |
| Bridge.NukiBridge.Rq | pynuki/bridge.py:96-108 | the URL is the API URL and the endpoint; the query joins the caller's parameters laid over the authentication parameters; in plain mode the token is read back first, then the caller's pairs |
| Bridge.NukiBridge.Info | pynuki/bridge.py:159-165 | a truthy cache is returned without a request; otherwise `info` is requested and its answer cached and returned |
| Bridge.NukiBridge.Update | pynuki/bridge.py:197-200 | always requests `info`, and its answer becomes the cache |
| Bridge.NukiBridge.GetDevices | pynuki/bridge.py:202-238 | one device per listed descriptor of the type, in list order, with the merged record and the wrapper kind of its top-level type; the first descriptor whose state is not an object decides the error |
| Bridge.NukiBridge.Locks | pynuki/bridge.py:244-250 | the lock wrappers among all devices, in list order, with their merged records |
| Bridge.NukiBridge.Openers | pynuki/bridge.py:252-254 | every device listed with the opener type, each an opener wrapper, or the error of the first listed opener whose state is not an object |
| Legacy.InfoCall | pynuki/pynuki.py:265-268 | the older `info` always names the bridge type |
| Legacy.SecureParamsAccepted | pynuki/pynuki.py:206-213 | a signed request whose caller parameters leave `ts`, `rnr` and `hash` alone is accepted by a bridge holding the token |
| Legacy.SecureQueryOrder | pynuki/pynuki.py:206-216 | in secure mode the bridge reads `ts`, `rnr` and `hash` first, in that order, then the caller's pairs |
| Legacy.SigningPairs | pynuki/pynuki.py:70-74 | the signing triple can be joined into a query (no `&` in any value) and renders to the timestamp, the nonce's digits and the hash |
| Legacy.LegacyLock.UpdateAggressive | pynuki/pynuki.py:131-137 | fails, with the record unchanged, exactly when `success` is missing; otherwise folds in the answer without `success`, whether or not it succeeded |
| Legacy.LegacyLock.UpdatePassive | pynuki/pynuki.py:138-144 | overlays the first of the bridge's locks with the same ID; a descriptor without `lastKnownState` or no match makes it fail with the record unchanged |
| Legacy.LegacyLockAgrees | pynuki/pynuki.py:106-122 | locked exactly in state 1 (or `True`); the four actions send the lock's ID with the default type and `block`, and lock 'n' go unlatches exactly when asked |
| Legacy.LegacyBridge.constructor | pynuki/pynuki.py:151-165 | keeps host, port, mode and token; the cache is empty for a falsy token and holds the login probe's `info` answer for a truthy one |
| Legacy.LegacyBridge.SetToken | pynuki/pynuki.py:191-197 | the token is stored; a truthy one requests `info` for the hardware bridge type, signed as `__rq` signs, and caches the answer; a falsy one sends nothing |
| Legacy.LegacyBridge.Rq | pynuki/pynuki.py:206-216 | the query joins the caller's parameters over the hashed-token triple or the plain token; signed requests are accepted by a bridge holding the token; plain ones carry the token first |
| Legacy.LegacyBridge.Info | pynuki/pynuki.py:265-268 | always requests `info` with the bridge type, and caches the answer |
| Legacy.LegacyBridge.Locks | pynuki/pynuki.py:300-323 | a lock per listed device, in list order, with its merged record; it fails exactly when some descriptor lacks a mergeable `lastKnownState`, and then with the first one's error |
| Local.LocalLockState | pynuki/local/pynuki.py:130-131 | `lock_state` sends only the Nuki ID |
| Local.LocalLockAction | pynuki/local/pynuki.py:133-139 | `lock_action` sends exactly `nukiId`, `action` and `noWait`, with no device type; `noWait` is 0 exactly when blocking |
| Local.LocalShorthands | pynuki/local/pynuki.py:198-217 | lock 2, unlock 1, unlatch 3, lock 'n' go 5 exactly when unlatching and 4 otherwise, from the action table, which agrees with the newer clients' constants |
| Local.LocalNukiLock.UpdateAggressive | pynuki/local/pynuki.py:74-80 | asks for the state by ID alone; fails, with the record unchanged, exactly when `success` is missing; otherwise folds in the answer without `success` |
| Local.LocalNukiLock.UpdatePassive | pynuki/local/pynuki.py:81-86 | overlays the first of the bridge's locks with the same ID, or fails with the record unchanged |
| Local.LocalLockedStates | pynuki/local/pynuki.py:50-52 | locked exactly in the table's LOCKED state, 1 (or `True`) |
| Local.LocalLockSpec | pynuki/local/pynuki.py:54-65 | the lock's four actions send its own ID and `block` with no device type, and lock 'n' go unlatches exactly when asked |
| Local.LocalBridge.constructor | pynuki/local/pynuki.py:93-101 | without a hostname, the first discovered bridge's `ip` is used; otherwise the given hostname |
| Local.LocalBridge.Rq | pynuki/local/pynuki.py:103-110 | the parameters sent are the token with the caller's parameters over it: the token first, then the new keys in order, with each caller value winning |
| Local.LocalBridge.RetrieveToken | pynuki/local/pynuki.py:119-125 | the token becomes the answered one exactly when `success` is truthy, and is unchanged otherwise |
| Local.LocalBridge.Locks | pynuki/local/pynuki.py:177-196 | a lock per listed device, in list order, holding its merged record, or the first merge error |

## Left out

- HTTP: `requests.get`, `raise_for_status`, JSON decoding and timeouts are
  not modelled. Every bridge answer is a method parameter.
- Bridge discovery (`discover`, `discover_bridges`) and the cloud client
  (`pynuki/cloud`) are not modelled. The plain-token client's constructor
  takes the discovery answer as a parameter.
- Login probe: both token setters call `info()` when the token is truthy.
  Its answer is the parameter `probe` of `Bridge.NukiBridge.constructor`,
  `Bridge.NukiBridge.SetToken`, `Legacy.LegacyBridge.constructor` and
  `Legacy.LegacyBridge.SetToken`. The HTTP 401 that makes the setters raise
  InvalidCredentialsException is not modelled, like every HTTP status. The
  constructors cannot return the request the probe sends; the setters do.
- Bridge.NukiBridge.constructor: a truthy token that is not text is
  excluded by its precondition. In the source the token setter raises
  AttributeError at `.encode` (pynuki/utils.py:13) during construction; a
  Dafny constructor cannot fail. `Bridge.TokenDigest` and
  `Bridge.NukiBridge.SetToken` model that error.
- SHA-256, `randint` and `datetime.utcnow` are inputs. SHA-256 is a
  function on bytes that gives 32 bytes. The nonce is a number in
  0..65535. The clock reading is a date and time whose year has four
  digits (1000..9999), which `strftime` needs for a 20-character `ts`.
  Because the nonce is random, the model cannot say that two requests get
  different nonces.
- Encrypted-token mode of `pynuki/bridge.py`: `encrypt_token` is imported
  from `pynuki/utils.py`, which does not define it. Its result is the input
  `encrypted` of `Bridge.NukiBridge.Rq`, `Info` and `Update`.
- Endpoints not modelled. Each one builds one `__rq` call, with constant
  parameters or the caller's arguments put into a literal dict:
  - `unpair`, `callback_add`, `callback_list`, `callback_remove`;
  - `log`, `clear_log`, `firmware_update`, `reboot`, `factory_reset`;
  - `simple_lock`, `simple_unlock`;
  - the `info` and `list` of the plain-token client.

  `auth` of `pynuki/bridge.py` does not go through `__rq`. It sends a bare
  GET to `/auth` with no token and returns the answer; it is not modelled
  because it holds no logic besides that HTTP call.

  Also left out: `is_hardware_bridge`, the `devices` property (which is
  `Bridge.NukiBridge.GetDevices` with no type), and the older `list`.
- `auth` in `pynuki/pynuki.py` builds its URL from an undefined name. It
  always raises NameError and is not modelled.
- Logging and `__repr__` are not modelled.
- `Json.PyEq`: Python's `==` is modelled for scalars only. Objects compare
  structurally, so `{"a": True}` and `{"a": 1}` differ in the model,
  though Python calls them equal. Every comparison the source makes is on a
  scalar field (`deviceType`, `nukiId`, `state`, `mode`, ...).
- Record key order: records are maps, because their order shows only in
  `__repr__`. Request parameters are ordered, because the query string
  follows insertion order.
- `Text.Render`: a nested object renders as a fixed placeholder. Floats
  and arrays are not JSON values of the model.
- `Local.LocalBridge.Rq` gives the parameters handed to the HTTP client,
  not the query string. The client's URL encoding and its dropping of
  `None` values are not modelled.
- `Bridge.NukiBridge.GetDevices`, `Legacy.LegacyBridge.Locks` and
  `Local.LocalBridge.Locks` do not state that the device objects are fresh
  or pairwise distinct. They state only each object's kind and record.
- Constants: `pynuki/constants.py` is not part of this model. Some values
  are taken from the inline copies in `pynuki/pynuki.py`: the action and
  state codes, the modes, and the LOCK/OPENER device types. The others
  follow the Nuki Bridge HTTP API's code tables: Smart Door 3, Smart
  Lock 3.0 4, and the door-sensor states 1 to 4.
