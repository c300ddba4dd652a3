/**
 * The Esper engine as an abstract collaborator of the template: which provider
 * lookups succeed, which EPL texts compile, and which lifecycle state a statement
 * reaches when it is started, stopped or destroyed. Nothing of the engine's query
 * semantics is modelled; only the outcomes the template branches on.
 */
module Esper {
  import opened Wrappers

  /** The text of an EPL statement. */
  type Epl = string

  /** An opaque reference to a statement compiled by the engine's administrator. */
  type Handle = nat

  /** An event object handed to the runtime. */
  type Event = nat

  /** A listener for events that no statement matched. */
  type Listener = nat

  /** The lifecycle state of a statement. */
  datatype StatementState = Unassociated | Started | Stopped | Destroyed

  /** A lifecycle command delegated to the engine-side statement. */
  datatype Command = Start | Stop | Destroy

  /** The configuration resource of a template; `present` is what `Resource.exists()` reports. */
  datatype Resource = Resource(present: bool)

  /** The service provider obtained by name, with or without a user-supplied configuration. */
  datatype Provider = Provider(name: Option<string>, userConfigured: bool)

  /** The runtime of a provider, with the unmatched-event listener installed on it, if any. */
  datatype Runtime = Runtime(provider: Provider, unmatchedListener: Option<Listener>)

  /**
   * The engine's behaviour, left open:
   * - `providerAvailable`: the configuration resource is read and the provider is obtained without an exception;
   * - `accepts(history, epl)`: `createEPL(epl)` compiles the text instead of throwing,
   *   once the administrator has compiled the texts `history`, in that order (so a
   *   text may depend on what was compiled before it, or clash with it);
   * - `delivers(e)`: `sendEvent(e)` returns instead of throwing;
   * - `transition(cmd, s)`: the state an engine statement in state `s` reports after `cmd`, or `None` when it throws.
   */
  datatype Engine = Engine(
    providerAvailable: bool,
    accepts: (seq<Epl>, Epl) -> bool,
    delivers: Event -> bool,
    transition: (Command, StatementState) -> Option<StatementState>)

  /** Why an engine call failed. */
  datatype Cause =
    | ProviderUnavailable        // reading the configuration or obtaining the provider threw
    | SendFailed(event: Event)   // the runtime threw while processing this event
    | Rejected(epl: Epl)         // createEPL threw for this text
    | NotAssociated              // a lifecycle command on a statement that was never given an engine handle
    | CommandFailed(cmd: Command) // the engine-side statement threw on this command

  /** The exceptions the template's operations throw. */
  datatype Error =
    | AlreadyInitialised              // InvalidEsperConfigurationException: initialize called a second time
    | NullRuntime                     // InvalidEsperConfigurationException: sendEvent with no runtime
    | SetupFailed(cause: Cause)       // InvalidEsperConfigurationException wrapping a failure inside initialize
    | EngineFailure(cause: Cause)     // an engine exception propagated unwrapped
    | NullProvider                    // NullPointerException: the provider reference is still null
    | UnknownStatement(id: string)    // IllegalArgumentException: no statement with this id
    | DestroyNotConfirmed(id: string) // IllegalArgumentException from Assert.isTrue: destroy did not reach DESTROYED

  /** An engine whose statements follow the lifecycle the template relies on: every command succeeds and destroy reaches DESTROYED. */
  predicate Cooperative(e: Engine) {
    forall s: StatementState ::
      e.transition(Start, s) == Some(Started) &&
      e.transition(Stop, s) == Some(Stopped) &&
      e.transition(Destroy, s) == Some(Destroyed)
  }

  /** An engine that obtains its provider, compiles every EPL text, processes every event and follows the lifecycle. */
  function CooperativeEngine(): (e: Engine)
    ensures Cooperative(e) && e.providerAvailable
    ensures forall history, epl :: e.accepts(history, epl)
    ensures forall ev :: e.delivers(ev)
  {
    Engine(true, (history: seq<Epl>, epl: Epl) => true, (ev: Event) => true,
      (cmd: Command, s: StatementState) =>
        match cmd
        case Start => Some(Started)
        case Stop => Some(Stopped)
        case Destroy => Some(Destroyed))
  }
}
