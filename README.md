# Player progress and level cards of the enka puzzle game

This project is a Dafny model of the part of the enka game client that keeps
the player's progress and decides how level cards behave. Everything else in
the client is famo.us rendering and animation and is not modelled.

- **`UserModel`** (`user_model.dfy`) models the player profile (`User`). It
  holds six default options: `created`, `latestStage`, `latestLevel`,
  `lives`, `lastDeath` and `lastRecharge`. `_init` reconciles the profile
  with the `localforage` key/value store:
  - An existing user (truthy `created` in the store) reads every default key
    and patches all of them at once, after the last read.
  - A new user stamps `created` and writes every option back.

  `setLatestLevel` patches memory and then saves the two progress keys.
  The store is the class `Store`. It keeps its contents, the keys read, in
  order, and the writes issued, as a multiset because per-key writes are
  independent.
- **`PieceView`** (`piece_view.dfy`) models a game piece. It covers the CSS
  class lists of its two faces and the `DIRECTIONS` lookup. It also covers
  the reflection modifier's origin and align, which is created once and
  updated in place afterwards. `updateOptions` runs in its fixed order:
  reset, patch, rebuild.
- **`LevelView`** (`level_view.dfy`) models a level card. It holds `isOpen`
  and `_locked`, the colour index, and the front and back faces with their
  `locked` option and backing classes. It records the `level:select`,
  `level:play` and `level:close` events it emits. It counts how many times
  its click handlers have been registered. A click runs every registered
  handler. `unlock` registers the handlers again each time it runs.
- **`Js`** (`js.dfy`) holds the JavaScript semantics these rely on: values,
  truthiness, string coercion, property reads and `OptionsManager.patch`.

Some behaviours of the code are easy to miss, and the model keeps them:

- The existing-user merge does not filter missing values. A key absent from
  the store is patched in as `null` rather than keeping its default
  (`MissingStoredKeyBecomesNull`).
- `unlock` calls `setLatestLevel` unconditionally. There is no check that
  progress moves forward, and no "immediate successor" guard.
- Each `new User()` is a separate object. The singleton guard never fires,
  so there is no process-wide instance.
- There is no unlock rule. `hasUnlockedLevel` is not defined in any file
  modelled here, so the card takes it as a function parameter.

## Model

| member | source | states |
|---|---|---|
| `Js.Patch` | app/src/UserModel.js:109-111 | `setOptions`: every patched key is overwritten or added; every other key keeps its value; keys are the union |
| `UserModel.ConstructedOptions` | app/src/UserModel.js:61-65 | after construction every default key holds its default even when the argument gave it another value; argument keys outside the defaults are kept |
| `UserModel.DefaultKeysAreDefaultOptions` | app/src/UserModel.js:73-80 | the keys `_init` iterates are exactly the six default keys |
| `UserModel.User.constructor` | app/src/UserModel.js:55-69 | the new profile's options are `ConstructedOptions(arg)` and every default key is present |
| `UserModel.Store.GetItem` | app/src/UserModel.js:27 | a read returns the stored value, or `null` for a missing key, and is appended to the read log; contents unchanged |
| `UserModel.Store.SetItem` | app/src/UserModel.js:85 | a write sets one key and adds one entry to the write multiset |
| `UserModel.Fetched` | app/src/UserModel.js:23-32 | the dictionary built from the reads has exactly the keys read, each bound to what its read returned |
| `UserModel.Stamped` | app/src/UserModel.js:42-44 | `created` becomes the timestamp exactly when it is falsy; every other option is unchanged |
| `UserModel.InitReads` | app/src/UserModel.js:17-32 | `_init` reads `created` first, then, for an existing user only, each default key once in declaration order |
| `UserModel.User.Init` | app/src/UserModel.js:13-53 | options, store contents, reads and writes after `_init` are those of the existing-user or the new-user branch, chosen by the truthiness of the stored `created` |
| `UserModel.User.LoadExisting` | app/src/UserModel.js:20-36 | one read per default key; options stay unchanged while reads are issued (loop invariant); then one patch with every result; nothing written |
| `UserModel.User.CreateNew` | app/src/UserModel.js:40-47 | options become `Stamped(options, now)` and every key of that object is written to the store, one write each |
| `UserModel.User.Save` | app/src/UserModel.js:82-90 | one write per key of `data`, each with that key's value; store contents become `old + data`; in-memory options untouched |
| `UserModel.User.GetOptions` | app/src/UserModel.js:99-101 | returns the live options: exactly their keys, each with its value, every default key present |
| `UserModel.User.SetOptions` | app/src/UserModel.js:109-111 | options become `Patch(old options, p)`; the default keys stay present |
| `UserModel.User.GetLatestLevel` | app/src/UserModel.js:120-125 | the pair is read from `latestStage` and `latestLevel`; nothing changes |
| `UserModel.LatestPatch` | app/src/UserModel.js:129-132 | the patch has exactly the keys `latestStage` and `latestLevel`, bound to the arguments |
| `UserModel.User.SetLatestLevel` | app/src/UserModel.js:127-139 | `getLatestLevel` returns the new pair at once; all other options unchanged; exactly two writes, for the two progress keys |
| `UserModel.FreshProfileIsStamped` | app/src/UserModel.js:40-47 | a just-constructed profile facing a store without truthy `created` gets `created = now`, keeps every other default, and every option lands in the store |
| `UserModel.ExistingProfileIsLoaded` | app/src/UserModel.js:20-36 | with truthy `created` every default key takes its read result (`null` when missing), other keys are untouched, the store is unchanged |
| `UserModel.MissingStoredKeyBecomesNull` | app/src/UserModel.js:26-35 | an existing profile whose store lacks `lives` loads `lives = null`, not the default 5 |
| `UserModel.ReloadReproducesProfile` | app/src/UserModel.js:13-53 | reconciling, then reconciling a new profile against the resulting store, gives the same value for every default key |
| `UserModel.ProgressSurvivesReload` | app/src/UserModel.js:127-139 | once `setLatestLevel`'s writes have landed in an existing store, a freshly reconciled profile reads the same pair |
| `PieceView.ReflectorDirection` | app/src/views/PieceView.js:20-25 | `DIRECTIONS[v]` is defined exactly when `v` coerces to one of the four direction names |
| `PieceView.ReflectionPlacement` | app/src/views/PieceView.js:114-130 | up, down, left and right give origin = align = (0.5,0), (0.5,1), (0,0.5) and (1,0.5); any other value leaves both unset |
| `PieceView.DirectionAndPlacementAgree` | app/src/views/PieceView.js:118-130 | the reflector gets a direction exactly when the modifier gets a placement |
| `PieceView.BackClasses` | app/src/views/PieceView.js:96-102 | five entries: `piece`, `piece-back`, the back colour, `stage-<stage>`, `level-<level>` |
| `PieceView.FrontClasses` | app/src/views/PieceView.js:104-110 | five entries: `piece`, `piece-front`, the front colour, `stage-<stage>`, `level-<level>` |
| `PieceView.FacesShareStageAndLevel` | app/src/views/PieceView.js:96-110 | both lists start with `piece` and share their last two entries |
| `PieceView.DefaultPiece` | app/src/views/PieceView.js:48-57 | with the defaults the back classes are `piece, piece-back, red, stage-1, level-1`, the front is blue, and the direction is left |
| `PieceView.Piece.constructor` | app/src/views/PieceView.js:27-43 | options are the defaults patched with the argument; faces and a fresh modifier follow them; the reflector is created, then given its front and back |
| `PieceView.Piece.GetOption` | app/src/views/PieceView.js:59-61 | returns the option's value, `undefined` for a missing key |
| `PieceView.Piece.InitReflectionModifier` | app/src/views/PieceView.js:114-141 | creates a fresh modifier on the first call only; later calls update the same object in place; origin and align follow the direction |
| `PieceView.Piece.UpdateOptions` | app/src/views/PieceView.js:63-82 | the reflector is reset while the options are still the old ones, then the patch is applied; class lists and modifier are rebuilt from the new options; the reflector is updated from the new direction, then given its front and back |
| `LevelView.JsRem` | app/src/views/LevelView.js:117 | JavaScript `%`: `a` is the quotient truncated toward zero times `|b|` plus the remainder; the remainder has the dividend's sign and is smaller than the divisor in magnitude |
| `LevelView.ColorIndex` | app/src/views/LevelView.js:117 | defined exactly when `colors != 0`; lies in `1..colors` for `index >= 0` and `colors >= 1` |
| `LevelView.BaseClasses` | app/src/views/LevelView.js:283-288 | the classes passed to `setClasses`: the side class, `stage-level-backing`, the stage class and the colour class, and nothing else; none of `locked`, `unlocked`, `current` |
| `LevelView.FrontBackingClasses` | app/src/views/LevelView.js:283-299 | the four base classes (front side, `stage-level-backing`, stage, colour) and nothing else, plus exactly one of `locked` and `unlocked`, matching the lock, and `current` only when asked |
| `LevelView.BackBackingClasses` | app/src/views/LevelView.js:371-384 | the four base classes (back side, `stage-level-backing`, stage, colour) and nothing else, plus `locked` exactly when locked and `current` only when asked; never `unlocked` |
| `LevelView.FrontView.constructor` | app/src/views/LevelView.js:234-247 | the front face starts with the given lock and its backing classes |
| `LevelView.FrontView.Unlock` | app/src/views/LevelView.js:259-266 | `locked` option false; `locked` class removed, `unlocked` class added |
| `LevelView.BackView.constructor` | app/src/views/LevelView.js:314-331 | the back face starts with the given lock and its backing classes |
| `LevelView.BackView.Unlock` | app/src/views/LevelView.js:345-351 | `locked` option false; `locked` class removed, nothing added |
| `LevelView.UnlockedFacesMatchFreshlyUnlocked` | app/src/views/LevelView.js:259-266 | after `unlock`, each face's classes are exactly those of a face built unlocked |
| `LevelView.LevelView.EventFor` | app/src/views/LevelView.js:46-50 | every event carries `index = level - 1` with the card's stage and level |
| `LevelView.LevelView.constructor` | app/src/views/LevelView.js:94-123 | a new card is closed, locked iff `hasUnlockedLevel(stage, level)` is false, has colour `ColorIndex(index, colors)`, and has handlers only when unlocked |
| `LevelView.LevelView.CreateListeners` | app/src/views/LevelView.js:85-89 | one more set of handlers is registered exactly when the card is unlocked |
| `LevelView.LevelView.Flip` | app/src/views/LevelView.js:138-141 | `isOpen` is toggled, nothing else changes |
| `LevelView.LevelView.Select` | app/src/views/LevelView.js:55-68 | flips without inspecting `isOpen`, then emits `level:select` |
| `LevelView.LevelView.Close` | app/src/views/LevelView.js:70-83 | flips without inspecting `isOpen`, then emits `level:close` |
| `LevelView.LevelView.Play` | app/src/views/LevelView.js:44-53 | emits `level:play` and never flips |
| `LevelView.LevelView.ClickFront` | app/src/views/LevelView.js:86 | runs the `select` handler once per registration; a locked card neither flips nor emits |
| `LevelView.LevelView.ClickBack` | app/src/views/LevelView.js:88 | runs the `close` handler once per registration; a locked card neither flips nor emits |
| `LevelView.LevelView.ClickPlay` | app/src/views/LevelView.js:87 | runs the `play` handler once per registration; never flips; a locked card emits nothing |
| `LevelView.LevelView.Unlock` | app/src/views/LevelView.js:166-178 | records the card's stage and level as latest (unconditionally): options patched, both keys written to the store (write multiset grows by exactly those two pairs, nothing read); clears the lock on the card and both faces, registers the handlers once more; repeat calls allowed |
| `LevelView.FlipTimesParity` | app/src/views/LevelView.js:138-141 | after `n` flips the card is as it was exactly when `n` is even |
| `LevelView.FlipTwiceRestores` | app/src/views/LevelView.js:138-141 | two flips restore `isOpen`; one flip inverts it |
| `LevelView.LevelView.UnlockAsWritten` | app/src/views/LevelView.js:166-178 | as written: the progress recorded and written to the store is `undefined` for both keys, so `getLatestLevel` no longer names the unlocked card; the view changes are those of `Unlock` |

## Left out

- Asynchrony: `db.ready`, the promise chains, `Promise.all` and console logging are modelled as sequential steps. Other operations that interleave with a pending `_init` are not modelled. The only ordering kept is that the merge follows all reads.
- UserModel.User.constructor: the call to `_init` at the end of the constructor only schedules asynchronous work, so it is the separate method `User.Init`. The timestamp `Date.now()` is its parameter `now`.
- UserModel.Store.SetItem: `localforage`'s serialisation is not modelled. A value is stored exactly as given, and an `undefined` is not turned into `null`.
- PieceView.ReflectorDirection: `DIRECTIONS` is an object literal, so keys inherited from `Object.prototype` (`constructor`, `toString`, `__proto__`, ...) would also be found; the model assumes the coerced direction is never such a name and yields no direction for it.
- PieceView.Piece.GetOption: options are plain objects; a key inherited from `Object.prototype` would return the inherited member instead of `undefined`. Keys are assumed not to be such names, as for `Js.Prop` throughout the model.
- UserModel.Store.GetItem: store reads and writes always succeed in the model. In the code, a rejected `getItem('created')` or `db.ready()` runs neither `_init` branch. A rejected `getItem` of a default key makes `Promise.all` reject, so `setOptions` never runs and every option keeps its constructed value: the merge is all-or-nothing, not per key.
- UserModel.User.Init: modelled with reads that always succeed; on a failed read the code leaves the options and the store untouched, as described for `UserModel.Store.GetItem`.
- UserModel.User.Save: modelled with writes that always succeed. In the code, a rejected `db.ready()` writes nothing, and a failed `setItem` is lost while its callback still logs "Saved".
- UserModel.User.GetOptions: returns the option map as a value. Aliasing of the live options object by callers is not modelled.
- The singleton: the `_instance` guard, the static `User._instance` and the assignment in `_init` are left out. The guard never fires, and nothing reads the assignment.
- `hasUnlockedStage` has an empty body and is not modelled. `hasUnlockedLevel` is not defined in any file modelled here, so the card takes it as a function parameter. `LivesController` and `Timer` are imported but unused.
- JavaScript numbers are modelled as integers. The core only stores counters, stage and level numbers, and millisecond timestamps.
- famo.us internals are not modelled. `OptionsManager.patch` is a key-wise overwrite of flat options. A level card face's class list is a set; a piece face's class list is the sequence last passed to `setClasses`. `StateModifier.setOrigin(undefined)` is modelled as "unset". The `Reflector` and `Flipper` mechanics and the reflector's `reset` are modelled only as recorded calls or as the `isOpen` toggle.
- LevelView.FrontView.constructor: the `level:click` listener and the event piping of the faces are not modelled. Only the card's own `select`, `play` and `close` events are recorded.
- The play button's classes and modifier (app/src/views/LevelView.js:389-414), `hide` and `show`, templates, `StageConfig` descriptions, sizes and transforms are rendering and are left out.
- `LetterView` and `StageView` are not part of this model. They are animation only, and `expand`/`contract` keep no state.

## Findings

| source | as written | input that shows it | evidently intended | confidence | as-written member | corrected member |
|---|---|---|---|---|---|---|
| app/src/views/LevelView.js:169 | `user.setLatestLevel(this.stage, this.level)`. No code assigns `this.stage` or `this.level`; the card's stage and level live in `this.options`. | Unlocking any card, e.g. stage 1 level 2: the profile patches `latestStage` and `latestLevel` to `undefined` and saves them, and the store then holds `null` for both (the model's store keeps `Undefined`, see `UserModel.Store.SetItem` under Left out) | `user.setLatestLevel(this.options.stage, this.options.level)` | high; not executed | `LevelView.LevelView.UnlockAsWritten` | `LevelView.LevelView.Unlock` |
