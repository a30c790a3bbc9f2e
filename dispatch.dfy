/** The dispatch adapters of `Util.kt`: registering an event executor on the
    plugin manager, registering a command on the command map, and the
    adapters that the host calls when an event is delivered or a command is
    run. The plugin manager and the command map belong to the host; here
    they are tables that registration appends one entry to. */
module Dispatch {
  import opened Wrappers
  import Lifecycle

  /** Exceptions that can unwind an executor. */
  datatype Throwable =
    | SimpleCommandFailException    // thrown by `CommandReceiver.fail`
    | ClassCastException            // the adapter's cast to the event class failed
    | OtherException(name: string)  // anything else the executor raises

  /** One step of an executor's trace: an observable action, or an
      uncaught call of `fail()` or `throw`. A trace holds what the executor
      does up to its first uncaught exception; `try`, `catch` and `finally`
      inside the executor are not represented. */
  datatype Step = Act(effect: string) | Fail | Throw(thrown: Throwable)

  /** How a trace ended. */
  datatype Completion = Completed | Abrupt(thrown: Throwable)

  /** The actions a trace performed, in order, and how it ended. */
  datatype Run = Run(effects: seq<string>, completion: Completion)

  /** Runs a trace step by step. `fail()` has type `Nothing`: it throws
      `SimpleCommandFailException`, so like any uncaught `throw` it ends the
      executor and no later step runs. */
  function Exec(trace: seq<Step>): Run
    decreases |trace|
  {
    if trace == [] then Run([], Completed)
    else match trace[0]
      case Act(effect) =>
        var rest := Exec(trace[1..]);
        Run([effect] + rest.effects, rest.completion)
      case Fail => Run([], Abrupt(SimpleCommandFailException))
      case Throw(e) => Run([], Abrupt(e))
  }

  /** A run performs the trace's leading actions and stops at the first
      `fail()` or `throw`, with the exception that statement raises; it
      completes normally exactly when the trace holds actions only. */
  lemma {:induction false} ExecStopsAtFirstThrow(trace: seq<Step>)
    ensures var r := Exec(trace);
            |r.effects| <= |trace|
            && (forall i :: 0 <= i < |r.effects| ==> trace[i] == Act(r.effects[i]))
            && (r.completion.Completed? <==> |r.effects| == |trace|)
            && (r.completion.Abrupt? ==>
                  (trace[|r.effects|] == Fail && r.completion.thrown == SimpleCommandFailException)
                  || trace[|r.effects|] == Throw(r.completion.thrown))
    decreases |trace|
  {
    if trace != [] && trace[0].Act? {
      ExecStopsAtFirstThrow(trace[1..]);
    }
  }

  /** Running two traces one after the other: the second runs only when the
      first completes normally. */
  lemma {:induction false} ExecAppend(first: seq<Step>, second: seq<Step>)
    ensures Exec(first + second)
            == if Exec(first).completion.Completed?
               then Run(Exec(first).effects + Exec(second).effects, Exec(second).completion)
               else Exec(first)
  {
    if first == [] {
      assert first + second == second;
    } else {
      assert (first + second)[0] == first[0];
      assert (first + second)[1..] == first[1..] + second;
      match first[0]
      case Act(_) => ExecAppend(first[1..], second);
      case Fail =>
      case Throw(_) =>
    }
  }

  /** Nothing after an uncaught call of `fail()` runs: the trace ends there with
      `SimpleCommandFailException`, having done only what came before. */
  lemma FailSkipsRest(before: seq<Step>, after: seq<Step>)
    requires Exec(before).completion.Completed?
    ensures Exec(before + [Fail] + after)
            == Run(Exec(before).effects, Abrupt(SimpleCommandFailException))
  {
    ExecAppend(before, [Fail] + after);
    assert before + [Fail] + after == before + ([Fail] + after);
  }

  // ---------------------------------------------------------------- commands

  /** The host's command sender; only its identity matters here. */
  datatype CommandSender = CommandSender(id: nat)

  /** What the command executor receives: the sender, the label actually
      typed (the command's name or one of its aliases) and the arguments. */
  datatype CommandReceiver = CommandReceiver(sender: CommandSender, commandLabel: string, args: seq<string>)

  /** The command object `onCommand` builds. */
  datatype Command = Command(name: string, description: string, usageMessage: string,
                             aliases: seq<string>, executor: CommandReceiver -> seq<Step>)

  /** What the host sees when it runs a command: a boolean result, or an
      exception escaping `execute`; in both cases after the actions done. */
  datatype Reply = Returned(success: bool, effects: seq<string>)
                 | Propagated(thrown: Throwable, effects: seq<string>)

  /** `Command.execute` of the command built by `onCommand`. */
  function Execute(command: Command, sender: CommandSender, commandLabel: string, args: seq<string>)
    : (r: Reply)
    ensures var run := Exec(command.executor(CommandReceiver(sender, commandLabel, args)));
            r.effects == run.effects
            && (r == Returned(true, run.effects) <==> run.completion.Completed?)
            && (r == Returned(false, run.effects) <==> run.completion == Abrupt(SimpleCommandFailException))
            && (r.Propagated? <==> run.completion.Abrupt? && run.completion.thrown != SimpleCommandFailException)
            && (r.Propagated? ==> run.completion == Abrupt(r.thrown))
  {
    var run := Exec(command.executor(CommandReceiver(sender, commandLabel, args)));
    match run.completion
    case Completed => Returned(true, run.effects)
    case Abrupt(SimpleCommandFailException) => Returned(false, run.effects)
    case Abrupt(e) => Propagated(e, run.effects)
  }

  /** An executor that calls `fail()` makes `execute` return false, after
      doing only what preceded the call. */
  lemma ExecuteFailReturnsFalse(command: Command, sender: CommandSender, commandLabel: string,
                                args: seq<string>, before: seq<Step>, after: seq<Step>)
    requires command.executor(CommandReceiver(sender, commandLabel, args)) == before + [Fail] + after
    requires Exec(before).completion.Completed?
    ensures Execute(command, sender, commandLabel, args) == Returned(false, Exec(before).effects)
  {
    FailSkipsRest(before, after);
  }

  /** An executor whose trace is actions only makes `execute` return true. */
  lemma ExecuteActionsReturnsTrue(command: Command, sender: CommandSender, commandLabel: string,
                                  args: seq<string>, effects: seq<string>)
    requires command.executor(CommandReceiver(sender, commandLabel, args))
             == seq(|effects|, i requires 0 <= i < |effects| => Act(effects[i]))
    ensures Execute(command, sender, commandLabel, args) == Returned(true, effects)
  {
    var trace := command.executor(CommandReceiver(sender, commandLabel, args));
    ExecStopsAtFirstThrow(trace);
    var run := Exec(trace);
    assert |run.effects| == |effects|;
    assert forall i :: 0 <= i < |effects| ==> trace[i] == Act(run.effects[i]) == Act(effects[i]);
    assert run.effects == effects;
  }

  /** The executor is given exactly the sender, label and arguments passed
      to `execute`: two invocations that agree on them agree on the reply,
      whatever alias was used to register the command. */
  lemma ExecuteSeesItsInvocation(c1: Command, c2: Command, sender: CommandSender,
                                 commandLabel: string, args: seq<string>)
    requires c1.executor == c2.executor
    ensures Execute(c1, sender, commandLabel, args) == Execute(c2, sender, commandLabel, args)
  {
  }

  /** The host's command map; `Register`'s own result (whether the label was
      free) is not observed by `onCommand`, so it is not modelled. */
  class CommandMap {
    var entries: seq<(string, Command)>

    constructor ()
      ensures entries == []
    {
      entries := [];
    }

    method Register(fallbackPrefix: string, command: Command)
      modifies this
      ensures entries == old(entries) + [(fallbackPrefix, command)]
    {
      entries := entries + [(fallbackPrefix, command)];
    }
  }

  /** `onCommand`; its `label` parameter is `name` here. The defaults are
      those of the source. */
  method OnCommand(commandMap: CommandMap, name: string, executor: CommandReceiver -> seq<Step>,
                   description: string := "", usageMessage: string := "/" + name,
                   aliases: seq<string> := [], fallbackPrefix: string := "kb")
    modifies commandMap
    ensures commandMap.entries
            == old(commandMap.entries) + [(fallbackPrefix, Command(name, description, usageMessage, aliases, executor))]
  {
    commandMap.Register(fallbackPrefix, Command(name, description, usageMessage, aliases, executor));
  }

  /** A registration that names only the label and the executor. */
  method OnCommandWithDefaults(commandMap: CommandMap, name: string, executor: CommandReceiver -> seq<Step>)
    modifies commandMap
    ensures commandMap.entries
            == old(commandMap.entries) + [("kb", Command(name, "", "/" + name, [], executor))]
  {
    OnCommand(commandMap, name, executor);
  }

  // ------------------------------------------------------------------ events

  /** The name of an event class. */
  type EventClass = string

  /** A delivered event: its identity and every class it is an instance of
      (its own class and its superclasses). */
  datatype Event = Event(id: nat, classes: set<EventClass>)

  /** What the event executor receives. */
  datatype EventReceiver = EventReceiver(event: Event)

  datatype EventPriority = Lowest | Low | Normal | High | Highest | Monitor

  datatype Listener = SharedListener | OtherListener(id: nat)

  datatype Plugin = KotlinBukkitPlugin(instance: Lifecycle.KotlinBukkit) | OtherPlugin(name: string)

  /** One `registerEvent` call on the plugin manager. The manager invokes
      the registration through `Deliver`. */
  datatype Registration = Registration(eventClass: EventClass, listener: Listener, priority: EventPriority,
                                       executor: EventReceiver -> seq<Step>, plugin: Plugin)

  /** The adapter `on` hands to the manager: cast the delivered event to the
      registered class and run the executor on a receiver wrapping it. */
  function Deliver(registration: Registration, event: Event): (r: Run)
    ensures registration.eventClass in event.classes
            ==> r == Exec(registration.executor(EventReceiver(event)))
    ensures registration.eventClass !in event.classes
            ==> r == Run([], Abrupt(ClassCastException))
  {
    if registration.eventClass in event.classes then Exec(registration.executor(EventReceiver(event)))
    else Run([], Abrupt(ClassCastException))
  }

  /** The host's plugin manager. */
  class PluginManager {
    var registrations: seq<Registration>

    constructor ()
      ensures registrations == []
    {
      registrations := [];
    }

    method RegisterEvent(eventClass: EventClass, listener: Listener, priority: EventPriority,
                         executor: EventReceiver -> seq<Step>, plugin: Plugin)
      modifies this
      ensures registrations == old(registrations) + [Registration(eventClass, listener, priority, executor, plugin)]
    {
      registrations := registrations + [Registration(eventClass, listener, priority, executor, plugin)];
    }
  }

  /** `on`, both overloads: the event class is passed explicitly. When no
      plugin is given, the default `kotlinBukkit` is read from the slot; an
      empty slot makes the call throw before anything is registered. */
  method On(manager: PluginManager, slot: Lifecycle.Slot, eventClass: EventClass,
            executor: EventReceiver -> seq<Step>, priority: EventPriority := Normal,
            listener: Listener := SharedListener, plugin: Option<Plugin> := None)
    returns (r: Result<(), Lifecycle.Exception>)
    modifies manager
    ensures r.Failure? <==> plugin.None? && slot.instance == null
    ensures r.Failure? ==> r.error == Lifecycle.IllegalState && manager.registrations == old(manager.registrations)
    ensures r.Success? ==>
              manager.registrations == old(manager.registrations)
                + [Registration(eventClass, listener, priority, executor,
                                if plugin.Some? then plugin.value else KotlinBukkitPlugin(slot.instance))]
  {
    var owner: Plugin;
    if plugin.Some? {
      owner := plugin.value;
    } else {
      var current := slot.Get();
      if current.Failure? {
        return Failure(current.error);
      }
      owner := KotlinBukkitPlugin(current.value);
    }
    manager.RegisterEvent(eventClass, listener, priority, executor, owner);
    r := Success(());
  }

  /** Registering with every default, then delivering an event of the class:
      the executor runs on the event itself. */
  method OnWithDefaults(manager: PluginManager, slot: Lifecycle.Slot, eventClass: EventClass,
                        executor: EventReceiver -> seq<Step>, event: Event)
    returns (r: Result<(), Lifecycle.Exception>)
    requires slot.instance != null
    requires eventClass in event.classes
    modifies manager
    ensures r.Success?
    ensures manager.registrations
            == old(manager.registrations)
               + [Registration(eventClass, SharedListener, Normal, executor, KotlinBukkitPlugin(slot.instance))]
    ensures Deliver(Registration(eventClass, SharedListener, Normal, executor, KotlinBukkitPlugin(slot.instance)), event)
            == Exec(executor(EventReceiver(event)))
  {
    r := On(manager, slot, eventClass, executor);
  }
}
