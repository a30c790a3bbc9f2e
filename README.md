# kotlinbukkit lifecycle and dispatch, modelled in Dafny

kotlinbukkit is a Bukkit plugin that lets server code be written in Kotlin.
Almost all of it consists of one-line extension functions that forward to the
Bukkit API. This project models the two parts with behaviour of their own:

- **The plugin lifecycle** (`KotlinBukkit.kt`). The process-wide slot
  `_kotlinBukkit` is the class `Lifecycle.Slot`. The host's `onEnable` and
  `onDisable` calls are the methods of `Lifecycle.KotlinBukkit`. The
  `kotlinBukkit` accessor is `Slot.Get`. The update check done during
  enabling is the function `Lifecycle.EnableOutcome`, built on the string
  tests in `Versions`: `isSnapshot` and the release-notice condition.
  `Lifecycle.SlotHistory` gives the slot's values along any sequence of
  enable and disable calls. Two lemmas about it hold for every such sequence:
  the slot never passes straight from one instance to another, and whatever
  it holds was put there by an enable. `onDisable` tests the slot with
  Kotlin's `==`, which calls `equals`. Bukkit's plugin base class defines
  `equals` by plugin name, so the model clears the slot when it holds a
  plugin with the disabling instance's name (`Lifecycle.SamePlugin`).
- **The dispatch adapters** (`util/Util.kt`). An executor is modelled by
  its trace (`seq<Dispatch.Step>`): the actions it performs up to an
  uncaught `fail()` or `throw`. `Dispatch.Exec` runs such a trace and stops
  at the first uncaught exception. `Dispatch.Execute` is the `Command.execute` that `onCommand`
  builds. It returns true on normal completion, false on
  `SimpleCommandFailException`, and lets any other exception through.
  `Dispatch.Deliver` is the event adapter that `on` registers: it casts the
  event and passes it, unchanged, to the executor. The host's plugin manager
  and command map are tables of registrations. `On` and `OnCommand` each
  append one entry to them, using the source's default arguments.

The release lookup `getLatestRelease` is an oracle. Its answer
(`Updater.LookupResult`: no release, a release, or an exception) is an input
to `OnEnable`. The same goes for whether `saveDefaultConfig` returned
normally and for the value of the `check-updates` setting.

Where the code's behaviour differs from what one might expect, the model
follows the code:

- The notice rule strips a leading `v` from the release tag only, and only
  when the running version does not start with `v`. So a running `v1.2.0`
  against tag `1.2.0` does get a notice (`Versions.NoticeRuleExamples`).
- An exception from the release lookup is not caught. It leaves `onEnable`
  after the instance has been recorded in the slot
  (`EnableReport.thrown == Some(LookupFailed)`).
- `onDisable` guards the slot with Kotlin's `==`, which compares plugins by
  name, not an identity test. Two instances loaded from the same plugin
  description are equal, so a stale instance that is disabled also clears
  a slot held by its newer twin (`Lifecycle.ReloadWithoutDisable`).
- The doc comment of `onCommand` promises a boolean result. The function
  returns `Unit` and drops the command map's answer, so the model's
  `OnCommand` returns nothing.

## Model

| member | source | states |
|---|---|---|
| Versions.SnapshotIffSuffixed | src/main/kotlin/me/finalchild/kotlinbukkit/KotlinBukkit.kt:57-58 | about `Versions.IsSnapshot` (`isSnapshot`): a version is a snapshot iff it is some string followed by `-SNAPSHOT` |
| Versions.NoNoticeIff | src/main/kotlin/me/finalchild/kotlinbukkit/KotlinBukkit.kt:41-44 | about `Versions.IsNewRelease` (the notice condition): no notice is due iff the tag equals the version, or the tag is `v` followed by a version that does not itself start with `v` |
| Versions.VersionWithPrefixAlwaysNotified | src/main/kotlin/me/finalchild/kotlinbukkit/KotlinBukkit.kt:41-44 | a running version starting with `v` is notified of every tag that differs from it |
| Versions.NoticeRuleExamples | src/main/kotlin/me/finalchild/kotlinbukkit/KotlinBukkit.kt:39-44 | `1.2.0`/`v1.2.0` and `1.2.0`/`1.2.0` give no notice; `v1.2.0`/`1.2.0` and `1.2.0`/`1.3.0` do; snapshot detection on sample versions |
| Lifecycle.NoticeLines | src/main/kotlin/me/finalchild/kotlinbukkit/KotlinBukkit.kt:45-46 | the notice is two lines: the first contains the release tag, the second the release URL |
| Lifecycle.EnableOutcome | src/main/kotlin/me/finalchild/kotlinbukkit/KotlinBukkit.kt:33-48 | an occupied slot gives IllegalState with no lookup and no log; the lookup happens iff the slot was free, the config was saved, the build is not a snapshot and `check-updates` is on; lines are logged iff a release was found and the notice rule holds, and then there are exactly two lines, carrying the tag and the URL; a lookup exception escapes |
| Lifecycle.KotlinBukkit.OnEnable | src/main/kotlin/me/finalchild/kotlinbukkit/KotlinBukkit.kt:33-49 | an occupied slot is left unchanged; otherwise the slot records this instance before the config save and the update check, so it stays recorded when they throw; the report is `EnableOutcome` |
| Lifecycle.KotlinBukkit.OnDisable | src/main/kotlin/me/finalchild/kotlinbukkit/KotlinBukkit.kt:51-55 | the slot is cleared iff it holds a plugin equal to this one, that is, with the same name (Kotlin's `==` calls `equals`); otherwise it is untouched |
| Lifecycle.Slot.Get | src/main/kotlin/me/finalchild/kotlinbukkit/KotlinBukkit.kt:62-68 | the accessor succeeds iff the slot is occupied and then returns its instance; on an empty slot it fails with IllegalState |
| Lifecycle.SlotHistory | src/main/kotlin/me/finalchild/kotlinbukkit/KotlinBukkit.kt:33-55 | the slot's successive values along a sequence of host calls: an enable fills an empty slot and leaves an occupied one; a disable clears the slot iff it holds a plugin with the same name |
| Lifecycle.NoDirectHandover | src/main/kotlin/me/finalchild/kotlinbukkit/KotlinBukkit.kt:33-55 | along any sequence of host calls, the slot never changes from one instance straight to another |
| Lifecycle.OccupantWasEnabled | src/main/kotlin/me/finalchild/kotlinbukkit/KotlinBukkit.kt:33-55 | starting from an empty slot, any instance the slot holds was enabled by an earlier call made on an empty slot, and the slot has held it since |
| Lifecycle.ReloadWithoutDisable | src/main/kotlin/me/finalchild/kotlinbukkit/KotlinBukkit.kt:33-55 | a second enable of the same plugin fails with IllegalState before any lookup, even with `check-updates` on and a release available, and leaves the first instance in the slot; disabling the second instance then clears the slot, since both are equal plugins |
| Lifecycle.DisableOtherPlugin | src/main/kotlin/me/finalchild/kotlinbukkit/KotlinBukkit.kt:51-55 | disabling a plugin with another name leaves the enabled instance in the slot |
| Dispatch.ExecStopsAtFirstThrow | src/main/kotlin/me/finalchild/kotlinbukkit/util/Util.kt:118-120 | about `Dispatch.Exec` (running an executor, with `fail()` throwing): a run performs the trace's leading actions and ends at the first uncaught `fail()` (with `SimpleCommandFailException`) or `throw`; it completes normally iff the trace holds actions only |
| Dispatch.ExecAppend | src/main/kotlin/me/finalchild/kotlinbukkit/util/Util.kt:100-102 | of two traces run one after the other, the second runs only when the first completes normally |
| Dispatch.FailSkipsRest | src/main/kotlin/me/finalchild/kotlinbukkit/util/Util.kt:118-120 | nothing after an uncaught `fail()` call runs; the executor ends with `SimpleCommandFailException` |
| Dispatch.Execute | src/main/kotlin/me/finalchild/kotlinbukkit/util/Util.kt:99-106 | the executor receives exactly the sender, the label used and the args; it returns true iff the executor completes, false iff it ends with `SimpleCommandFailException`, and any other exception propagates |
| Dispatch.ExecuteFailReturnsFalse | src/main/kotlin/me/finalchild/kotlinbukkit/util/Util.kt:100-105 | an executor that calls `fail()` without catching it makes `execute` return false after only the actions before the call |
| Dispatch.ExecuteActionsReturnsTrue | src/main/kotlin/me/finalchild/kotlinbukkit/util/Util.kt:100-102 | an executor that completes normally makes `execute` return true with all its actions done |
| Dispatch.ExecuteSeesItsInvocation | src/main/kotlin/me/finalchild/kotlinbukkit/util/Util.kt:99-101 | the reply depends on the executor and the invocation only, not on the command's registered name, description or aliases |
| Dispatch.OnCommand | src/main/kotlin/me/finalchild/kotlinbukkit/util/Util.kt:90-108 | appends exactly one command, with the given name, description, usage, aliases and executor, under the fallback prefix; returns nothing |
| Dispatch.OnCommandWithDefaults | src/main/kotlin/me/finalchild/kotlinbukkit/util/Util.kt:90-95 | the defaults are the description `""`, the usage `"/" + label`, no aliases and the fallback prefix `"kb"` |
| Dispatch.Deliver | src/main/kotlin/me/finalchild/kotlinbukkit/util/Util.kt:43-45 | the executor runs on a receiver whose event is the delivered event, unchanged; an event not of the registered class fails the cast |
| Dispatch.On | src/main/kotlin/me/finalchild/kotlinbukkit/util/Util.kt:37-67 | appends exactly one registration with the given class, listener, priority and executor; the default plugin is the slot's instance, and an empty slot throws IllegalState before anything is registered |
| Dispatch.OnWithDefaults | src/main/kotlin/me/finalchild/kotlinbukkit/util/Util.kt:37-46 | the defaults are priority `NORMAL`, `SharedListener` and the plugin `kotlinBukkit`; delivery then runs the executor on the delivered event |

## Left out

- `updater/LatestReleaseChecker.kt`: the HTTPS request, its headers and the JSON parsing are network I/O and a foreign library. The lookup is an input whose answer may be "no release", a release, or an exception.
- `saveDefaultConfig`: only whether it returns normally is modelled, not the file it writes.
- The `check-updates` setting is an input `bool`. The unchecked cast in `ConfigUtil.kt` that reads it is not modelled.
- Logging: only the two notice lines are modelled. Nothing else reaches the logger in the modelled code.
- Lifecycle.KotlinBukkit.OnEnable: the order in which the two notice lines are written is modelled. Their interleaving with other loggers is not.
- Bukkit's command map: the fallback-prefix disambiguation and the boolean returned by `register` are not modelled, because `onCommand` discards that result. The map is a list of `(fallbackPrefix, command)` entries.
- Bukkit's plugin manager: event priority ordering and which events reach which registration are not modelled. Delivery is `Dispatch.Deliver` applied to one registration and one event.
- Dispatch.Deliver: the cast `eventObj as T` succeeds when the registered class is among the event's classes. Java's class hierarchy beyond that set is not modelled.
- Dispatch.On: the two `on` overloads differ only in how the event class is given (a reified type argument or a `KClass`), so they are modelled as one method taking the class explicitly.
- Executors are modelled as functions from their receiver to a finite trace: the actions performed up to an uncaught `fail()` or `throw`. Control flow inside the executor is not modelled. A `finally` block runs after `fail()`, and a `catch` of `RuntimeException` in the executor swallows `SimpleCommandFailException`; such an executor is represented only by the trace it actually produces. Executors that do not terminate are not modelled.
- Dispatch.Execute: the arguments are a value `seq<string>`. The source passes the host's own `Array<String>`, which the executor may change in place; that aliasing is not modelled.
- Lifecycle.KotlinBukkit.OnDisable: plugin equality by name rests on Bukkit's `PluginBase.equals`, which is not part of this model; only the name comparison it makes is modelled.
- Concurrency: the slot is a plain variable driven from one thread, as in the source.
- `WorldUtil.kt`, `VectorUtil.kt`, `ItemStackUtil.kt`, `InventoryUtil.kt`, `AttributeUtil.kt`, `ConfigUtil.kt` and `CommandUtil.kt`: one-line forwards to Bukkit, often over floating point, with no logic of their own.
