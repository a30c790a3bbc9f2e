/** The plugin's lifecycle: the process-wide slot `_kotlinBukkit`, the
    host's enable and disable calls, the `kotlinBukkit` accessor, and the
    update check that runs during enabling. */
module Lifecycle {
  import opened Wrappers
  import opened Versions
  import opened Updater

  /** The exceptions that leave `onEnable` or the accessor. */
  datatype Exception =
    | IllegalState          // a second enable, or the accessor on an empty slot
    | ConfigSaveFailed      // raised by `saveDefaultConfig`
    | LookupFailed          // raised by the release lookup; not caught

  /** What one call of `onEnable` does besides writing the slot: whether the
      release lookup was made, the info lines logged, and the exception that
      ended the call, if any. */
  datatype EnableReport = EnableReport(lookedUp: bool, log: seq<string>, thrown: Option<Exception>)

  /** `sub` occurs in `s` starting at index `i`. */
  ghost predicate OccursAt(s: string, sub: string, i: int) {
    0 <= i <= |s| - |sub| && s[i..i + |sub|] == sub
  }

  /** `s` holds `sub` as a contiguous piece. */
  ghost predicate Contains(s: string, sub: string) {
    exists i :: OccursAt(s, sub, i)
  }

  lemma ContainsMiddle(a: string, b: string, c: string)
    ensures Contains(a + b + c, b)
  {
    assert (a + b + c)[|a|..|a| + |b|] == b;
    assert OccursAt(a + b + c, b, |a|);
  }

  /** The two info lines announcing `release`. */
  function NoticeLines(release: ReleaseInfo): (lines: seq<string>)
    ensures |lines| == 2
    ensures Contains(lines[0], release.version)
    ensures Contains(lines[1], release.url)
  {
    ContainsMiddle("A new release(", release.version, ") of kotlinbukkit is found!");
    ContainsMiddle("Update now: ", release.url, "");
    assert "Update now: " + release.url + "" == "Update now: " + release.url;
    ["A new release(" + release.version + ") of kotlinbukkit is found!",
     "Update now: " + release.url]
  }

  /** Everything `onEnable` decides, given whether the slot was already
      occupied, the declared version, whether `saveDefaultConfig` completed,
      the `check-updates` setting and what the lookup would answer. */
  function EnableOutcome(occupied: bool, version: string, configSaved: bool,
                         checkUpdates: bool, latest: LookupResult): (r: EnableReport)
    ensures occupied ==> r == EnableReport(false, [], Some(IllegalState))
    ensures r.lookedUp <==> !occupied && configSaved && !IsSnapshot(version) && checkUpdates
    ensures r.log != [] <==> r.lookedUp && latest.Found? && IsNewRelease(version, latest.info.version)
    ensures r.log != [] ==> |r.log| == 2 && Contains(r.log[0], latest.info.version)
                                         && Contains(r.log[1], latest.info.url)
    ensures r.thrown == None <==> !occupied && configSaved && !(r.lookedUp && latest.Threw?)
    ensures r.thrown == Some(LookupFailed) <==> r.lookedUp && latest.Threw?
    ensures !occupied && !configSaved ==> r == EnableReport(false, [], Some(ConfigSaveFailed))
  {
    if occupied then EnableReport(false, [], Some(IllegalState))
    else if !configSaved then EnableReport(false, [], Some(ConfigSaveFailed))
    else if IsSnapshot(version) || !checkUpdates then EnableReport(false, [], None)
    else match latest
      case NoRelease => EnableReport(true, [], None)
      case Threw => EnableReport(true, [], Some(LookupFailed))
      case Found(info) =>
        if IsNewRelease(version, info.version) then EnableReport(true, NoticeLines(info), None)
        else EnableReport(true, [], None)
  }

  /** A call the host makes on a plugin instance. */
  datatype HostCall = Enable(plugin: KotlinBukkit) | Disable(plugin: KotlinBukkit)

  /** Kotlin's `==` between plugins: Bukkit's plugin base class defines
      `equals` by the plugin's name, so two instances of the same plugin are
      equal. */
  predicate SamePlugin(slot: KotlinBukkit?, p: KotlinBukkit) {
    slot != null && slot.name == p.name
  }

  /** The slot's value after one host call. */
  function SlotAfter(slot: KotlinBukkit?, call: HostCall): KotlinBukkit? {
    match call
    case Enable(p) => if slot == null then p else slot
    case Disable(p) => if SamePlugin(slot, p) then null else slot
  }

  /** The slot's successive values along a sequence of host calls. */
  function SlotHistory(slot: KotlinBukkit?, calls: seq<HostCall>): (h: seq<KotlinBukkit?>)
    ensures |h| == |calls| + 1 && h[0] == slot
    ensures forall i :: 0 <= i < |calls| ==> h[i + 1] == SlotAfter(h[i], calls[i])
    decreases |calls|
  {
    if calls == [] then [slot]
    else [slot] + SlotHistory(SlotAfter(slot, calls[0]), calls[1..])
  }

  /** The slot never passes straight from one instance to another: it must be
      cleared in between. */
  lemma NoDirectHandover(slot: KotlinBukkit?, calls: seq<HostCall>)
    ensures var h := SlotHistory(slot, calls);
            forall i :: 0 <= i < |calls| && h[i] != null && h[i + 1] != null ==> h[i] == h[i + 1]
  {
  }

  /** Starting from an empty slot, whatever the slot holds was enabled by an
      earlier call on an empty slot, and the slot has held it ever since. */
  lemma {:induction false} OccupantWasEnabled(calls: seq<HostCall>, i: nat)
    requires i <= |calls|
    requires SlotHistory(null, calls)[i] != null
    ensures var h := SlotHistory(null, calls);
            exists j :: 0 <= j < i && calls[j] == Enable(h[i]) && h[j] == null
                        && forall k :: j < k <= i ==> h[k] == h[i]
  {
    var h := SlotHistory(null, calls);
    assert i > 0;
    if h[i - 1] == h[i] {
      OccupantWasEnabled(calls, i - 1);
      var j :| 0 <= j < i - 1 && calls[j] == Enable(h[i - 1]) && h[j] == null
               && forall k :: j < k <= i - 1 ==> h[k] == h[i - 1];
      assert forall k :: j < k <= i ==> h[k] == h[i];
    } else {
      assert h[i] == SlotAfter(h[i - 1], calls[i - 1]);
      assert calls[i - 1] == Enable(h[i]) && h[i - 1] == null;
      assert forall k :: i - 1 < k <= i ==> h[k] == h[i];
    }
  }

  /** The top-level `_kotlinBukkit` variable. */
  class Slot {
    var instance: KotlinBukkit?

    constructor ()
      ensures instance == null
    {
      instance := null;
    }

    /** The `kotlinBukkit` accessor. */
    function Get(): (r: Result<KotlinBukkit, Exception>)
      reads this
      ensures r.Success? <==> instance != null
      ensures r.Success? ==> r.value == instance
      ensures r.Failure? ==> r.error == IllegalState
    {
      if instance == null then Failure(IllegalState) else Success(instance)
    }
  }

  /** The plugin class; `name` and `version` are the name and the version
      its plugin description declares. */
  class KotlinBukkit {
    const name: string
    const version: string

    constructor (name: string, version: string)
      ensures this.name == name && this.version == version
    {
      this.name := name;
      this.version := version;
    }

    /** `onEnable`. `configSaved` says whether `saveDefaultConfig` returned
        normally, `checkUpdates` is the configured `check-updates` value and
        `latest` is what the release lookup answers if it is made. */
    method OnEnable(slot: Slot, configSaved: bool, checkUpdates: bool, latest: LookupResult)
      returns (r: EnableReport)
      modifies slot
      ensures slot.instance == SlotAfter(old(slot.instance), Enable(this))
      ensures r == EnableOutcome(old(slot.instance) != null, version, configSaved, checkUpdates, latest)
    {
      if slot.instance != null {
        return EnableReport(false, [], Some(IllegalState));
      }
      slot.instance := this;
      if !configSaved {
        return EnableReport(false, [], Some(ConfigSaveFailed));
      }
      r := EnableReport(false, [], None);
      if !IsSnapshot(version) && checkUpdates {
        r := r.(lookedUp := true);
        match latest {
          case NoRelease =>
          case Threw =>
            return r.(thrown := Some(LookupFailed));
          case Found(info) =>
            if IsNewRelease(version, info.version) {
              r := r.(log := r.log + NoticeLines(info));
            }
        }
      }
    }

    /** `onDisable`: clears the slot when it holds a plugin equal to this
        one, that is, one with the same name. */
    method OnDisable(slot: Slot)
      modifies slot
      ensures slot.instance == SlotAfter(old(slot.instance), Disable(this))
      ensures old(slot.instance) != null && old(slot.instance).name == name ==> slot.instance == null
      ensures (old(slot.instance) == null || old(slot.instance).name != name) ==> slot.instance == old(slot.instance)
    {
      if slot.instance != null && slot.instance.name == name {
        slot.instance := null;
      }
    }
  }

  /** A host that enables one instance, enables a second instance of the
      same plugin without disabling the first, and then disables that second
      instance: the second enable fails, and since the two instances are equal
      plugins, the disable clears the slot. */
  method ReloadWithoutDisable(name: string, version: string)
    returns (first: KotlinBukkit, second: KotlinBukkit, slot: Slot)
    ensures fresh(slot) && first != second && slot.instance == null
  {
    slot := new Slot();
    first := new KotlinBukkit(name, version);
    second := new KotlinBukkit(name, version);
    var r1 := first.OnEnable(slot, true, false, NoRelease);
    assert r1.thrown == None && slot.instance == first;
    var r2 := second.OnEnable(slot, true, true, Found(ReleaseInfo("https://example.org/release", "v99")));
    assert r2.thrown == Some(IllegalState) && !r2.lookedUp && slot.instance == first;
    second.OnDisable(slot);
    var got := slot.Get();
    assert got == Failure(IllegalState);
  }

  /** Disabling a plugin with another name leaves the slot's instance in
      place. */
  method DisableOtherPlugin(version: string) returns (enabled: KotlinBukkit, other: KotlinBukkit, slot: Slot)
    ensures fresh(slot) && slot.instance == enabled
  {
    slot := new Slot();
    enabled := new KotlinBukkit("kotlinbukkit", version);
    other := new KotlinBukkit("other", version);
    var r := enabled.OnEnable(slot, true, false, NoRelease);
    other.OnDisable(slot);
    var got := slot.Get();
    assert got == Success(enabled);
  }
}
