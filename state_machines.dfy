/** States, transitions and state machines (src/Model/State.php, StateMachine.php, Transition.php). */
module StateMachines {
  import opened Wrappers
  import opened OrderedMap

  /** The message of the InvalidArgumentException State.addTransition throws. */
  const ForeignTransition := "Transition fromState must the same as the State to which it is being added"

  class State {
    var name: string
    var description: string
    var initial: bool
    var final: bool
    /** Keyed by transition name. */
    var transitions: seq<(string, Transition)>

    constructor (name: string, description: string := "", initial: bool := false, final: bool := false)
      ensures this.name == name && this.description == description
      ensures this.initial == initial && this.final == final
      ensures transitions == []
    {
      this.name := name;
      this.description := description;
      this.initial := initial;
      this.final := final;
      transitions := [];
    }

    method SetName(name: string)
      modifies this
      ensures this.name == name
      ensures description == old(description) && initial == old(initial) && final == old(final)
      ensures transitions == old(transitions)
    {
      this.name := name;
    }

    method SetDescription(description: string)
      modifies this
      ensures this.description == description
      ensures name == old(name) && initial == old(initial) && final == old(final)
      ensures transitions == old(transitions)
    {
      this.description := description;
    }

    method SetInitial(initial: bool)
      modifies this
      ensures this.initial == initial
      ensures name == old(name) && description == old(description) && final == old(final)
      ensures transitions == old(transitions)
    {
      this.initial := initial;
    }

    method SetFinal(final: bool)
      modifies this
      ensures this.final == final
      ensures name == old(name) && description == old(description) && initial == old(initial)
      ensures transitions == old(transitions)
    {
      this.final := final;
    }

    /**
     * Only a transition leaving a state of this state's name is accepted; it is keyed by
     * its own name, replacing an earlier transition of that name. The names are compared
     * as strings.
     */
    method AddTransition(transition: Transition) returns (r: Outcome)
      modifies this
      ensures r.Fail? <==> transition.fromState.name != old(name)
      ensures r.Fail? ==> r.error == Error(InvalidArgument,
                                           ForeignTransition)
      ensures transitions == if r.Fail? then old(transitions)
        else Put(old(transitions), transition.name, transition)
      ensures name == old(name) && description == old(description)
      ensures initial == old(initial) && final == old(final)
    {
      if transition.fromState.name != name {
        return Fail(Error(InvalidArgument, ForeignTransition));
      }
      transitions := Put(transitions, transition.name, transition);
      return Done;
    }
  }

  class Transition {
    var name: string
    var description: string
    var fromState: State
    var toState: State
    var condition: Option<string>

    /** Nothing ties the transition to its states' transition lists. */
    constructor (name: string, description: string, fromState: State, toState: State,
                 condition: Option<string> := None)
      ensures this.name == name && this.description == description
      ensures this.fromState == fromState && this.toState == toState
      ensures this.condition == condition
    {
      this.name := name;
      this.description := description;
      this.fromState := fromState;
      this.toState := toState;
      this.condition := condition;
    }

    method SetName(name: string)
      modifies this
      ensures this.name == name
      ensures description == old(description) && fromState == old(fromState)
      ensures toState == old(toState) && condition == old(condition)
    {
      this.name := name;
    }

    method SetDescription(description: string)
      modifies this
      ensures this.description == description
      ensures name == old(name) && fromState == old(fromState)
      ensures toState == old(toState) && condition == old(condition)
    {
      this.description := description;
    }

    method SetFromState(fromState: State)
      modifies this
      ensures this.fromState == fromState
      ensures name == old(name) && description == old(description)
      ensures toState == old(toState) && condition == old(condition)
    {
      this.fromState := fromState;
    }

    method SetToState(toState: State)
      modifies this
      ensures this.toState == toState
      ensures name == old(name) && description == old(description)
      ensures fromState == old(fromState) && condition == old(condition)
    {
      this.toState := toState;
    }

    method SetCondition(condition: Option<string>)
      modifies this
      ensures this.condition == condition
      ensures name == old(name) && description == old(description)
      ensures fromState == old(fromState) && toState == old(toState)
    {
      this.condition := condition;
    }
  }

  class StateMachine {
    const name: string
    /** Keyed by state name. */
    var states: seq<(string, State)>
    /** Keyed by transition name; the transition's states need not be registered. */
    var transitions: seq<(string, Transition)>

    constructor (name: string)
      ensures this.name == name && states == [] && transitions == []
    {
      this.name := name;
      states := [];
      transitions := [];
    }

    method AddState(state: State)
      modifies this
      ensures states == Put(old(states), state.name, state)
      ensures transitions == old(transitions)
    {
      states := Put(states, state.name, state);
    }

    method AddTransition(transition: Transition)
      modifies this
      ensures transitions == Put(old(transitions), transition.name, transition)
      ensures states == old(states)
    {
      transitions := Put(transitions, transition.name, transition);
    }
  }
}
