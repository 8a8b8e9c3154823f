/**
 * The declaration vocabulary user scripts import (ucscript.py): parameter
 * declarations, wait durations a program function yields, and the
 * ProgramFunction record with the decorators that fill in its fields.
 */
module UcScript {
  import opened Common

  /** The types a parameter may be declared with. */
  datatype ParameterType =
    | IntType
    | FloatType
    | StrType
    | BoolType
    | ValveType
    | ProgramType
    | OptionsParameterType(options: seq<string>)
    | ListParameterType(listType: ParameterType)

  datatype Parameter = Parameter(
    parameterType: ParameterType,
    displayName: Option<string>,
    defaultValue: Value,
    minimum: Value,
    maximum: Value)

  /** Parameter.__init__, with Python's None defaults. */
  function NewParameter(parameterType: ParameterType, displayName: Option<string> := None,
                        defaultValue: Value := NoneValue, minimum: Value := NoneValue,
                        maximum: Value := NoneValue): (p: Parameter)
    ensures p.parameterType == parameterType && p.displayName == displayName
    ensures p.defaultValue == defaultValue && p.minimum == minimum && p.maximum == maximum
  {
    Parameter(parameterType, displayName, defaultValue, minimum, maximum)
  }

  /** A choice among named options; the default value is the index of the preselected option. */
  function OptionsParameter(options: seq<string>, displayName: Option<string> := None, defaultIndex: int := 0): (p: Parameter)
    ensures p.parameterType.OptionsParameterType? && p.parameterType.options == options
    ensures p.displayName == displayName && p.defaultValue == IntValue(defaultIndex)
    ensures p.minimum == NoneValue && p.maximum == NoneValue
  {
    NewParameter(OptionsParameterType(options), displayName, IntValue(defaultIndex))
  }

  /** A list of values of one element type; it has no default. */
  function ListParameter(listType: ParameterType, displayName: Option<string> := None): (p: Parameter)
    ensures p.parameterType.ListParameterType? && p.parameterType.listType == listType
    ensures p.displayName == displayName
    ensures p.defaultValue == NoneValue && p.minimum == NoneValue && p.maximum == NoneValue
  {
    NewParameter(ListParameterType(listType), displayName)
  }

  lemma OptionsParameterDefaults(options: seq<string>)
    ensures OptionsParameter(options).defaultValue == IntValue(0)
    ensures OptionsParameter(options).displayName == None
  {
  }

  /** A pause a program function yields, held in seconds whatever unit it was written in. */
  datatype Wait = Wait(seconds: real)

  function WaitForSeconds(seconds: real): (w: Wait)
    ensures w.seconds == seconds
  {
    Wait(seconds)
  }

  function WaitForMinutes(minutes: real): (w: Wait)
    ensures w.seconds == 60.0 * minutes
  {
    WaitForSeconds(60.0 * minutes)
  }

  function WaitForHours(hours: real): (w: Wait)
    ensures w.seconds == 3600.0 * hours
  {
    WaitForSeconds(60.0 * 60.0 * hours)
  }

  /** The three units agree: an hour is sixty minutes, a minute sixty seconds, and longer arguments wait longer. */
  lemma WaitUnitsAgree(x: real, y: real)
    ensures WaitForHours(x) == WaitForMinutes(60.0 * x)
    ensures WaitForMinutes(x) == WaitForSeconds(60.0 * x)
    ensures x <= y ==> WaitForHours(x).seconds <= WaitForHours(y).seconds
  {
  }

  /** A script function, identified but not interpreted. */
  datatype Callable = Callable(id: nat)

  /** A callback slot: the default `lambda: None`, or a script function. */
  datatype Callback = NoOp | CallbackTo(f: Callable)

  datatype CallbackSlot = OnStopSlot | OnPauseSlot | OnResumeSlot

  /** The fields of a ProgramFunction as a value. */
  datatype PfState = PfState(
    functionName: Option<string>,
    func: Callable,
    canAsync: bool,
    onStop: Callback,
    onPause: Callback,
    onResume: Callback,
    hidden: bool)
  {
    function CallbackAt(slot: CallbackSlot): Callback {
      match slot
      case OnStopSlot => onStop
      case OnPauseSlot => onPause
      case OnResumeSlot => onResume
    }
  }

  /** ProgramFunction.__init__: unnamed, may run asynchronously, no-op callbacks, hidden from the UI. */
  function Wrap(f: Callable): (s: PfState)
    ensures s.func == f && s.functionName == None && s.canAsync && s.hidden
    ensures forall slot :: s.CallbackAt(slot) == NoOp
  {
    PfState(None, f, true, NoOp, NoOp, NoOp, true)
  }

  /** The effect of a `display` decorator: shown in the UI, renamed only when a name is given. */
  function Displayed(s: PfState, displayName: Option<string>): (r: PfState)
    ensures !r.hidden
    ensures r.functionName == if displayName.Some? then displayName else s.functionName
    ensures r.(hidden := s.hidden, functionName := s.functionName) == s
  {
    s.(functionName := if displayName.Some? then displayName else s.functionName, hidden := false)
  }

  /** The effect of onStop/onPause/onResume: that one callback is replaced. */
  function WithCallback(s: PfState, slot: CallbackSlot, f: Callable): (r: PfState)
    ensures r.CallbackAt(slot) == CallbackTo(f)
    ensures forall other :: other != slot ==> r.CallbackAt(other) == s.CallbackAt(other)
    ensures r.functionName == s.functionName && r.hidden == s.hidden
    ensures r.func == s.func && r.canAsync == s.canAsync
  {
    match slot
    case OnStopSlot => s.(onStop := CallbackTo(f))
    case OnPauseSlot => s.(onPause := CallbackTo(f))
    case OnResumeSlot => s.(onResume := CallbackTo(f))
  }

  /** Decorators stack in any order: display and callback decorators touch disjoint fields. */
  lemma DecoratorsCommute(s: PfState, displayName: Option<string>, slot: CallbackSlot, other: CallbackSlot, f: Callable, g: Callable)
    ensures WithCallback(Displayed(s, displayName), slot, f) == Displayed(WithCallback(s, slot, f), displayName)
    ensures slot != other ==>
      WithCallback(WithCallback(s, slot, f), other, g) == WithCallback(WithCallback(s, other, g), slot, f)
  {
  }

  /** Applying the same display decorator twice is the same as once. */
  lemma DisplayedIdempotent(s: PfState, displayName: Option<string>)
    ensures Displayed(Displayed(s, displayName), displayName) == Displayed(s, displayName)
  {
  }

  class ProgramFunction {
    var functionName: Option<string>
    var func: Callable
    var canAsync: bool
    var onStop: Callback
    var onPause: Callback
    var onResume: Callback
    var hidden: bool

    function View(): PfState
      reads this
    {
      PfState(functionName, func, canAsync, onStop, onPause, onResume, hidden)
    }

    constructor (f: Callable)
      ensures View() == Wrap(f)
    {
      functionName := None;
      func := f;
      canAsync := true;
      onStop := NoOp;
      onPause := NoOp;
      onResume := NoOp;
      hidden := true;
    }
  }

  /** What a decorator receives: a plain script function or one already wrapped. */
  datatype Decoratable = Plain(f: Callable) | Wrapped(pf: ProgramFunction)

  /** The record `Pf(f)` starts from before the decorator's own change. */
  ghost function Initial(f: Decoratable): PfState
    reads if f.Wrapped? then {f.pf} else {}
  {
    if f.Wrapped? then f.pf.View() else Wrap(f.f)
  }

  /** _pf: a wrapped function is returned as is; a plain one gets a fresh wrapper. */
  method Pf(f: Decoratable) returns (pf: ProgramFunction)
    ensures f.Wrapped? ==> pf == f.pf
    ensures f.Plain? ==> fresh(pf)
    ensures pf.View() == Initial(f)
  {
    if f.Wrapped? {
      pf := f.pf;
    } else {
      pf := new ProgramFunction(f.f);
    }
  }

  /** The decorator `display(displayName)` applied to `f`; `displayName` None is `display(None)`. */
  method Display(displayName: Option<string>, f: Decoratable) returns (pf: ProgramFunction)
    modifies if f.Wrapped? then {f.pf} else {}
    ensures f.Wrapped? ==> pf == f.pf
    ensures f.Plain? ==> fresh(pf)
    ensures pf.View() == Displayed(old(Initial(f)), displayName)
  {
    pf := Pf(f);
    if displayName.Some? {
      pf.functionName := displayName;
    }
    pf.hidden := false;
  }

  /** Bare `@display`: the callable is the argument itself, so no name is set. */
  method DisplayBare(f: Decoratable) returns (pf: ProgramFunction)
    modifies if f.Wrapped? then {f.pf} else {}
    ensures f.Wrapped? ==> pf == f.pf
    ensures f.Plain? ==> fresh(pf) && pf.functionName == None
    ensures pf.View() == Displayed(old(Initial(f)), None)
  {
    pf := Display(None, f);
  }

  /** The decorators onStop(g), onPause(g) and onResume(g), applied to `f`. */
  method SetCallback(slot: CallbackSlot, funcToCall: Callable, f: Decoratable) returns (pf: ProgramFunction)
    modifies if f.Wrapped? then {f.pf} else {}
    ensures f.Wrapped? ==> pf == f.pf
    ensures f.Plain? ==> fresh(pf)
    ensures pf.View() == WithCallback(old(Initial(f)), slot, funcToCall)
  {
    pf := Pf(f);
    match slot
    case OnStopSlot => pf.onStop := CallbackTo(funcToCall);
    case OnPauseSlot => pf.onPause := CallbackTo(funcToCall);
    case OnResumeSlot => pf.onResume := CallbackTo(funcToCall);
  }
}
