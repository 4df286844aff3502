/**
 * The editor store: the state the drawing canvas is built from, the actions
 * the canvas and the classifier send, and the reducer that applies one
 * action at a time to the state in place.
 */
module Editor {
  import opened Wrappers
  import opened Geometry
  import opened CircleFit
  import opened ArrowFit

  type Id = string

  /** An automaton state as the editor stores it: its label and its circle stroke. */
  datatype AutomatonState = AutomatonState(id: Id, symbol: string, scribblePosition: Point, stroke: Stroke)

  /** A transition: the state it starts from (if one was found), its end state, label and arrow stroke. */
  datatype Transition = Transition(
    id: Id,
    startState: Option<AutomatonState>,
    endState: Option<AutomatonState>,
    symbol: string,
    scribblePosition: Point,
    stroke: Stroke)

  /** What the classifier recognised in a stroke, with the stroke's control points. */
  datatype AutomatonShape = StateShape(stroke: Stroke) | TransitionShape(stroke: Stroke)

  /** The classifier's answer; the error it reports carries nothing the reducer reads. */
  datatype ClassifierResult = Success(shape: AutomatonShape) | Failure

  datatype EditorAction =
    | Clear
    | StateSymbolChanged(automatonState: AutomatonState, symbol: string)
    | TransitionSymbolChanged(transition: Transition, symbol: string)
    | StrokesChanged(strokes: seq<Stroke>)
    | ShouldDeleteLastStrokeChanged(shouldDeleteLastStroke: bool)
    | AutomataShapeClassified(result: ClassifierResult)

  /** The effect the reducer hands back: nothing, or a request to classify a stroke. */
  datatype Effect = NoEffect | RecognizeStroke(stroke: Stroke)

  /**
   * What the reducer takes from outside the model: the polyline `.circle`
   * samples for a centre and radius, and a fresh identifier for the record
   * it creates.
   */
  datatype Environment = Environment(circle: (Point, real) -> seq<Point>, freshId: Id)

  /** `firstIndex(where:)`: the first position whose element satisfies `p`. */
  function FirstIndex<T>(xs: seq<T>, p: T -> bool): (r: Option<nat>)
    ensures r.None? <==> forall i :: 0 <= i < |xs| ==> !p(xs[i])
    ensures r.Some? ==> r.value < |xs| && p(xs[r.value]) && forall i :: 0 <= i < r.value ==> !p(xs[i])
    decreases |xs|
  {
    if xs == [] then None
    else if p(xs[0]) then Some(0)
    else
      match FirstIndex(xs[1..], p)
      case None => None
      case Some(i) => Some(i + 1)
  }

  /** The squared distance from `p` to the nearest control point of the state's stroke. */
  function StateDistance(p: Point, s: AutomatonState): real {
    SqDist(p, ClosestPoint(p, s.stroke.controlPoints))
  }

  /** The state whose stroke passes nearest to `p`, the first one on a tie. */
  function ClosestStartState(p: Point, states: seq<AutomatonState>): Option<AutomatonState> {
    FirstNearest(states, s => StateDistance(p, s))
  }

  lemma ClosestStartStateIsFirstNearest(p: Point, states: seq<AutomatonState>) returns (k: nat)
    ensures ClosestStartState(p, states).None? <==> states == []
    ensures states != [] ==> k < |states| && ClosestStartState(p, states) == Some(states[k])
    ensures states != [] ==> forall j :: 0 <= j < |states| ==> StateDistance(p, states[k]) <= StateDistance(p, states[j])
    ensures states != [] ==> forall j :: 0 <= j < k ==> StateDistance(p, states[k]) < StateDistance(p, states[j])
  {
    var dist := s => StateDistance(p, s);
    k := FirstNearestIsFirstMinimum(states, dist);
    if states != [] {
      forall j | 0 <= j < |states| ensures dist(states[j]) == StateDistance(p, states[j]) { }
    }
  }

  /** Where the arrow starts: on the chosen state's stroke, or at the first stroke point when there is none. */
  function ArrowStart(strokeStart: Point, closest: Option<AutomatonState>): Point {
    match closest
    case Some(s) => ClosestPoint(strokeStart, s.stroke.controlPoints)
    case None => strokeStart
  }

  /**
   * The state appended for a circle whose control points are `pts`. The
   * record's default symbol is not part of this model; the model gives it
   * an empty one.
   */
  function NewState(pts: seq<Point>, env: Environment): AutomatonState
    requires pts != []
  {
    var center := Center(pts);
    AutomatonState(env.freshId, "", center, Stroke(env.circle(center, Radius(pts))))
  }

  /**
   * The transition appended for an arrow whose control points are `pts`,
   * given an empty symbol by the model as `NewState` is.
   */
  function NewTransition(states: seq<AutomatonState>, pts: seq<Point>, id: Id): Transition
    requires pts != []
  {
    var closest := ClosestStartState(pts[0], states);
    var startPoint := ArrowStart(pts[0], closest);
    var tipPoint := TipPoint(startPoint, pts);
    Transition(id, closest, None, "", LabelPosition(startPoint, tipPoint), Stroke(Arrow(startPoint, tipPoint)))
  }

  /**
   * The appended state carries the fresh identifier and sits at the balance
   * point of the circle's control points (their mean); its stroke is the
   * circle sampled around it at the non-negative mean L1 radius.
   */
  lemma NewStateShape(pts: seq<Point>, env: Environment)
    requires pts != []
    ensures NewState(pts, env).id == env.freshId
    ensures Deviation(pts, NewState(pts, env).scribblePosition, X) == 0.0
    ensures Deviation(pts, NewState(pts, env).scribblePosition, Y) == 0.0
    ensures NewState(pts, env).stroke.controlPoints == env.circle(NewState(pts, env).scribblePosition, Radius(pts))
    ensures Radius(pts) >= 0.0
  {
    CenterIsBalancePoint(pts, Center(pts));
  }

  /**
   * The appended transition never has an end state. It has a start state
   * exactly when some state exists, and that state is the first whose
   * stroke passes nearest to the arrow's first point. The arrow starts on
   * that state's stroke (or at the first point), runs to the control point
   * furthest from that start, and is labelled at its lifted midpoint.
   */
  lemma NewTransitionShape(states: seq<AutomatonState>, pts: seq<Point>, id: Id) returns (k: nat)
    requires pts != []
    ensures var t := NewTransition(states, pts, id);
      t.id == id && t.endState == None && t.symbol == "" &&
      (t.startState.None? <==> states == []) &&
      |t.stroke.controlPoints| == 11 &&
      t.stroke.controlPoints[0] == ArrowStart(pts[0], t.startState) &&
      t.stroke.controlPoints[1] == TipPoint(t.stroke.controlPoints[0], pts) &&
      t.scribblePosition == LabelPosition(t.stroke.controlPoints[0], t.stroke.controlPoints[1])
    ensures states == [] ==> NewTransition(states, pts, id).stroke.controlPoints[0] == pts[0]
    ensures states != [] ==>
      k < |states| && NewTransition(states, pts, id).startState == Some(states[k]) &&
      (forall j :: 0 <= j < |states| ==> StateDistance(pts[0], states[k]) <= StateDistance(pts[0], states[j])) &&
      (forall j :: 0 <= j < k ==> StateDistance(pts[0], states[k]) < StateDistance(pts[0], states[j]))
  {
    k := ClosestStartStateIsFirstNearest(pts[0], states);
  }

  class EditorState {
    var automatonStates: seq<AutomatonState>
    var transitions: seq<Transition>
    var shouldDeleteLastStroke: bool

    constructor ()
      ensures automatonStates == [] && transitions == [] && !shouldDeleteLastStroke
    {
      automatonStates := [];
      transitions := [];
      shouldDeleteLastStroke := false;
    }

    /** Every stroke on the canvas: the states' strokes, then the transitions'. */
    function Strokes(): (r: seq<Stroke>)
      reads this
      ensures |r| == |automatonStates| + |transitions|
      ensures forall i :: 0 <= i < |automatonStates| ==> r[i] == automatonStates[i].stroke
      ensures forall i :: 0 <= i < |transitions| ==> r[|automatonStates| + i] == transitions[i].stroke
    {
      seq(|automatonStates|, i requires 0 <= i < |automatonStates| reads this => automatonStates[i].stroke) +
      seq(|transitions|, i requires 0 <= i < |transitions| reads this => transitions[i].stroke)
    }

    /** Every label position: the states' first, then the transitions'. */
    function ScribblePositions(): (r: seq<Point>)
      reads this
      ensures |r| == |automatonStates| + |transitions|
      ensures forall i :: 0 <= i < |automatonStates| ==> r[i] == automatonStates[i].scribblePosition
      ensures forall i :: 0 <= i < |transitions| ==> r[|automatonStates| + i] == transitions[i].scribblePosition
    {
      seq(|automatonStates|, i requires 0 <= i < |automatonStates| reads this => automatonStates[i].scribblePosition) +
      seq(|transitions|, i requires 0 <= i < |transitions| reads this => transitions[i].scribblePosition)
    }

    /** `clear`: both lists emptied, the flag untouched. */
    twostate predicate Cleared()
      reads this
    {
      automatonStates == [] && transitions == [] &&
      shouldDeleteLastStroke == old(shouldDeleteLastStroke)
    }

    /** Only the first state with identifier `id`, if any, is relabelled. */
    twostate predicate StateRelabelled(id: Id, symbol: string)
      reads this
    {
      transitions == old(transitions) &&
      shouldDeleteLastStroke == old(shouldDeleteLastStroke) &&
      match FirstIndex(old(automatonStates), (s: AutomatonState) => s.id == id)
      case None => automatonStates == old(automatonStates)
      case Some(i) =>
        i < |old(automatonStates)| &&
        automatonStates == old(automatonStates)[i := old(automatonStates)[i].(symbol := symbol)]
    }

    /** Only the first transition with identifier `id`, if any, is relabelled. */
    twostate predicate TransitionRelabelled(id: Id, symbol: string)
      reads this
    {
      automatonStates == old(automatonStates) &&
      shouldDeleteLastStroke == old(shouldDeleteLastStroke) &&
      match FirstIndex(old(transitions), (t: Transition) => t.id == id)
      case None => transitions == old(transitions)
      case Some(i) =>
        i < |old(transitions)| &&
        transitions == old(transitions)[i := old(transitions)[i].(symbol := symbol)]
    }

    /** Only the flag changes, to `b`. */
    twostate predicate FlagSet(b: bool)
      reads this
    {
      automatonStates == old(automatonStates) && transitions == old(transitions) &&
      shouldDeleteLastStroke == b
    }

    /** One state is appended for the classified circle `pts`; nothing else changes. */
    twostate predicate StateAppended(pts: seq<Point>, env: Environment)
      reads this
    {
      pts != [] &&
      automatonStates == old(automatonStates) + [NewState(pts, env)] &&
      transitions == old(transitions) &&
      shouldDeleteLastStroke == old(shouldDeleteLastStroke)
    }

    /** One transition is appended for the classified arrow `pts`, none when `pts` is empty. */
    twostate predicate TransitionAppended(pts: seq<Point>, id: Id)
      reads this
    {
      automatonStates == old(automatonStates) &&
      shouldDeleteLastStroke == old(shouldDeleteLastStroke) &&
      if pts == [] then transitions == old(transitions)
      else transitions == old(transitions) + [NewTransition(old(automatonStates), pts, id)]
    }

    /**
     * `editorReducer`: applies one action to the state and returns the
     * effect to run. A classified circle must carry control points.
     */
    method Reduce(action: EditorAction, env: Environment) returns (effect: Effect)
      requires CircleHasPoints(action)
      modifies this
      ensures action.StrokesChanged? && action.strokes != [] ==>
        effect == RecognizeStroke(action.strokes[|action.strokes| - 1])
      ensures !(action.StrokesChanged? && action.strokes != []) ==> effect == NoEffect
      ensures match action
        case Clear => Cleared()
        case StateSymbolChanged(s, symbol) => StateRelabelled(s.id, symbol)
        case TransitionSymbolChanged(t, symbol) => TransitionRelabelled(t.id, symbol)
        case StrokesChanged(_) => FlagSet(old(shouldDeleteLastStroke))
        case ShouldDeleteLastStrokeChanged(b) => FlagSet(b)
        case AutomataShapeClassified(Failure) => FlagSet(true)
        case AutomataShapeClassified(Success(StateShape(stroke))) => StateAppended(stroke.controlPoints, env)
        case AutomataShapeClassified(Success(TransitionShape(stroke))) =>
          TransitionAppended(stroke.controlPoints, env.freshId)
    {
      effect := NoEffect;
      match action {
        case Clear =>
          automatonStates := [];
          transitions := [];
        case StateSymbolChanged(s, symbol) =>
          var found := FirstIndex(automatonStates, (st: AutomatonState) => st.id == s.id);
          if found.Some? {
            var i := found.value;
            automatonStates := automatonStates[i := automatonStates[i].(symbol := symbol)];
          }
        case TransitionSymbolChanged(t, symbol) =>
          var found := FirstIndex(transitions, (tr: Transition) => tr.id == t.id);
          if found.Some? {
            var i := found.value;
            transitions := transitions[i := transitions[i].(symbol := symbol)];
          }
        case AutomataShapeClassified(Success(StateShape(stroke))) =>
          automatonStates := automatonStates + [NewState(stroke.controlPoints, env)];
        case AutomataShapeClassified(Success(TransitionShape(stroke))) =>
          if stroke.controlPoints != [] {
            transitions := transitions + [NewTransition(automatonStates, stroke.controlPoints, env.freshId)];
          }
        case AutomataShapeClassified(Failure) =>
          shouldDeleteLastStroke := true;
        case StrokesChanged(strokes) =>
          if strokes != [] {
            effect := RecognizeStroke(strokes[|strokes| - 1]);
          }
        case ShouldDeleteLastStrokeChanged(b) =>
          shouldDeleteLastStroke := b;
      }
    }
  }

  /** A classified circle comes with at least one control point. */
  predicate CircleHasPoints(action: EditorAction) {
    action.AutomataShapeClassified? && action.result.Success? && action.result.shape.StateShape? ==>
      action.result.shape.stroke.controlPoints != []
  }
}
