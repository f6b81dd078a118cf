/** The factory for the chat commands of one instance. It is built from
    five dependencies, is wired once with the instance's watchdog, and from
    then on produces the instance's command list. */
module Commands {
  import opened Wrappers

  /** An opaque service object handed to the factory; the handle stands for
      its identity. `None` in an argument position stands for `null`. */
  datatype Dependency = Dependency(handle: nat)

  datatype Exception =
    | ArgumentNullException(paramName: string)
    | InvalidOperationException(message: string)

  /** The chat commands, each with the dependencies it is built from. */
  datatype Command =
    | VersionCommand(application: Dependency)
    | ByondCommand(byondManager: Dependency)
    | PullRequestsCommand(watchdog: Dependency, repositoryManager: Dependency,
                          databaseContextFactory: Dependency, instance: Dependency)
    | KekCommand

  datatype CommandKind = Version | Byond | PullRequests | Kek

  function Kind(c: Command): CommandKind {
    match c
    case VersionCommand(_) => Version
    case ByondCommand(_) => Byond
    case PullRequestsCommand(_, _, _, _) => PullRequests
    case KekCommand => Kek
  }

  function Kinds(cs: seq<Command>): (r: seq<CommandKind>)
    ensures |r| == |cs| && forall i :: 0 <= i < |cs| ==> r[i] == Kind(cs[i])
  {
    seq(|cs|, i requires 0 <= i < |cs| => Kind(cs[i]))
  }

  /** The five constructor dependencies, once none of them is null. */
  datatype Dependencies = Dependencies(application: Dependency, byondManager: Dependency,
                                       repositoryManager: Dependency,
                                       databaseContextFactory: Dependency, instance: Dependency)

  /** The constructor's null checks, in parameter order: the first null
      argument is the one reported. */
  function ConstructorError(application: Option<Dependency>, byondManager: Option<Dependency>,
                            repositoryManager: Option<Dependency>,
                            databaseContextFactory: Option<Dependency>,
                            instance: Option<Dependency>): (r: Option<Exception>)
    ensures r.None? <==> && application.Some? && byondManager.Some? && repositoryManager.Some?
                         && databaseContextFactory.Some? && instance.Some?
    ensures r == Some(ArgumentNullException("application")) <==> application.None?
    ensures r == Some(ArgumentNullException("byondManager")) <==> application.Some? && byondManager.None?
    ensures r == Some(ArgumentNullException("repositoryManager")) <==>
              application.Some? && byondManager.Some? && repositoryManager.None?
    ensures r == Some(ArgumentNullException("databaseContextFactory")) <==>
              application.Some? && byondManager.Some? && repositoryManager.Some? && databaseContextFactory.None?
    ensures r == Some(ArgumentNullException("instance")) <==>
              && application.Some? && byondManager.Some? && repositoryManager.Some?
              && databaseContextFactory.Some? && instance.None?
  {
    if application.None? then Some(ArgumentNullException("application"))
    else if byondManager.None? then Some(ArgumentNullException("byondManager"))
    else if repositoryManager.None? then Some(ArgumentNullException("repositoryManager"))
    else if databaseContextFactory.None? then Some(ArgumentNullException("databaseContextFactory"))
    else if instance.None? then Some(ArgumentNullException("instance"))
    else None
  }

  /** The command list of a wired factory: Version, Byond, PullRequests
      and Kek, in that order, each built from the factory's own
      dependencies, with the wired watchdog in the pull-request command. */
  function CommandList(deps: Dependencies, watchdog: Dependency): (cs: seq<Command>)
    ensures Kinds(cs) == [Version, Byond, PullRequests, Kek]
    ensures && cs[0].application == deps.application
            && cs[1].byondManager == deps.byondManager
            && cs[2].watchdog == watchdog && cs[2].repositoryManager == deps.repositoryManager
            && cs[2].databaseContextFactory == deps.databaseContextFactory && cs[2].instance == deps.instance
  {
    var cs := [VersionCommand(deps.application),
               ByondCommand(deps.byondManager),
               PullRequestsCommand(watchdog, deps.repositoryManager, deps.databaseContextFactory, deps.instance),
               KekCommand];
    var ks := Kinds(cs);
    assert ks[0] == Version && ks[1] == Byond && ks[2] == PullRequests && ks[3] == Kek;
    cs
  }

  class CommandFactory {
    const dependencies: Dependencies
    /** The watchdog; `None` until `SetWatchdog` succeeds. */
    var watchdog: Option<Dependency>

    /** A factory whose dependencies have passed the null checks; it starts
        unwired. */
    constructor (dependencies: Dependencies)
      ensures this.dependencies == dependencies && watchdog.None?
    {
      this.dependencies := dependencies;
      watchdog := None;
    }

    /** The constructor with its null checks: the first null argument is
        reported, otherwise a fresh unwired factory holds the arguments. */
    static method Construct(application: Option<Dependency>, byondManager: Option<Dependency>,
                            repositoryManager: Option<Dependency>,
                            databaseContextFactory: Option<Dependency>,
                            instance: Option<Dependency>)
      returns (r: Result<CommandFactory, Exception>)
      ensures var e := ConstructorError(application, byondManager, repositoryManager,
                                        databaseContextFactory, instance);
        && (e.Some? <==> r.Failure?)
        && (e.Some? ==> r.error == e.value)
      ensures r.Success? ==>
        && fresh(r.value) && r.value.watchdog.None?
        && r.value.dependencies == Dependencies(application.value, byondManager.value, repositoryManager.value,
                                                databaseContextFactory.value, instance.value)
    {
      var e := ConstructorError(application, byondManager, repositoryManager, databaseContextFactory, instance);
      if e.Some? {
        return Failure(e.value);
      }
      var factory := new CommandFactory(Dependencies(application.value, byondManager.value, repositoryManager.value,
                                                     databaseContextFactory.value, instance.value));
      r := Success(factory);
    }

    predicate Wired()
      reads this
    {
      watchdog.Some?
    }

    /** `SetWatchdog`: a second call fails whatever its argument and keeps
        the first watchdog; a null watchdog fails and leaves the factory
        unwired; otherwise the factory is wired with it. */
    method SetWatchdog(w: Option<Dependency>) returns (error: Option<Exception>)
      modifies this`watchdog
      ensures old(watchdog).Some? ==>
                error == Some(InvalidOperationException("SetWatchdog has already been called!"))
                && watchdog == old(watchdog)
      ensures old(watchdog).None? && w.None? ==> error == Some(ArgumentNullException("watchdog")) && watchdog.None?
      ensures old(watchdog).None? && w.Some? ==> error.None? && watchdog == w
      ensures error.None? <==> !old(Wired()) && Wired()
    {
      if watchdog.Some? {
        return Some(InvalidOperationException("SetWatchdog has already been called!"));
      }
      if w.None? {
        return Some(ArgumentNullException("watchdog"));
      }
      watchdog := w;
      error := None;
    }

    /** `GenerateCommands`: refused before the factory is wired, and the
        command list for its dependencies and watchdog afterwards. It changes
        nothing. */
    method GenerateCommands() returns (r: Result<seq<Command>, Exception>)
      ensures r.Failure? <==> !Wired()
      ensures r.Failure? ==> r.error == InvalidOperationException("SetWatchdog has not been called!")
      ensures r.Success? ==> r.value == CommandList(dependencies, watchdog.value)
    {
      if watchdog.None? {
        return Failure(InvalidOperationException("SetWatchdog has not been called!"));
      }
      r := Success(CommandList(dependencies, watchdog.value));
    }
  }

  /** The lifecycle of one factory: commands are refused before wiring; a
      null watchdog is refused and changes nothing; the first watchdog wires
      the factory; a second one is refused; and from then on every call
      gives the same four commands, built with the first watchdog. */
  method WiringLifecycle(deps: Dependencies, first: Dependency, second: Dependency)
    returns (early: Result<seq<Command>, Exception>, nullSet: Option<Exception>,
             afterNull: Result<seq<Command>, Exception>, firstSet: Option<Exception>,
             secondSet: Option<Exception>, once: Result<seq<Command>, Exception>,
             twice: Result<seq<Command>, Exception>)
    ensures early == Failure(InvalidOperationException("SetWatchdog has not been called!"))
    ensures nullSet == Some(ArgumentNullException("watchdog")) && afterNull == early
    ensures firstSet.None?
    ensures secondSet == Some(InvalidOperationException("SetWatchdog has already been called!"))
    ensures once.Success? && once == twice
    ensures Kinds(once.value) == [Version, Byond, PullRequests, Kek] && once.value[2].watchdog == first
  {
    var factory := new CommandFactory(deps);
    early := factory.GenerateCommands();
    nullSet := factory.SetWatchdog(None);
    afterNull := factory.GenerateCommands();
    firstSet := factory.SetWatchdog(Some(first));
    secondSet := factory.SetWatchdog(Some(second));
    once := factory.GenerateCommands();
    twice := factory.GenerateCommands();
  }
}
