/**
 * An EPL statement as the template holds it: an object with a fixed id and EPL
 * text, a handle to its engine-side statement once associated, and the lifecycle
 * state that engine statement reports. The template mutates statements in place.
 */
module Statements {
  import opened Wrappers
  import opened Esper

  /**
   * The outcome of a lifecycle command on a statement with this handle and state,
   * and the state it leaves the statement in. A statement that was never
   * associated cannot change state; otherwise it takes the state the engine
   * reports, or keeps its state when the engine throws.
   */
  function Transition(handle: Option<Handle>, state: StatementState, cmd: Command, engine: Engine)
    : (r: (Outcome<Error>, StatementState))
    ensures r.0.Fail? ==> r.1 == state
    ensures r.0.Pass? <==> handle.Some? && engine.transition(cmd, state).Some?
    ensures r.0.Pass? ==> engine.transition(cmd, state) == Some(r.1)
  {
    if handle.None? then (Fail(EngineFailure(NotAssociated)), state)
    else match engine.transition(cmd, state)
      case None => (Fail(EngineFailure(CommandFailed(cmd))), state)
      case Some(next) => (Pass, next)
  }

  class Statement {
    const id: string
    const epl: Epl
    var handle: Option<Handle>
    var state: StatementState

    /** A new statement, not yet associated with an engine. */
    constructor (id: string, epl: Epl)
      ensures this.id == id && this.epl == epl
      ensures handle == None && state == Unassociated
    {
      this.id := id;
      this.epl := epl;
      handle := None;
      state := Unassociated;
    }

    /** Binds the statement to the engine statement `h` that `createEPL` returned; a freshly created engine statement is started. */
    method SetEPStatement(h: Handle)
      modifies this
      ensures handle == Some(h) && state == Started
    {
      handle := Some(h);
      state := Started;
    }

    /** Delegates a lifecycle command to the engine-side statement, with the effect `Transition` describes. */
    method Run(cmd: Command, engine: Engine) returns (r: Outcome<Error>)
      modifies this
      ensures handle == old(handle)
      ensures (r, state) == Transition(old(handle), old(state), cmd, engine)
    {
      if handle == None {
        return Fail(EngineFailure(NotAssociated));
      }
      match engine.transition(cmd, state)
      case None =>
        r := Fail(EngineFailure(CommandFailed(cmd)));
      case Some(next) =>
        state := next;
        r := Pass;
    }
  }
}
