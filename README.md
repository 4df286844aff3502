# Automata editor: the editor store and the automaton state

This project models the core of a sketch-based automaton editor, together with
proofs about that model. On the canvas the user draws strokes. A classifier
tells the editor whether a stroke is a circle (an automaton state) or an arrow
(a transition). The editor store's reducer then updates the editor state in
place:

- `clear` empties the lists of states and transitions.
- `stateSymbolChanged` and `transitionSymbolChanged` relabel the first element
  with the given id.
- A classified circle appends a state. The state sits at the mean of the
  circle's control points, and its circle is drawn at the mean L1 distance
  from that centre.
- A classified arrow appends a transition. The transition starts at the state
  whose stroke passes nearest to the arrow's first point. Its tip is the
  control point furthest from that start.
- A classifier failure asks the canvas to delete the last stroke.
- `strokesChanged` asks for the last stroke to be classified.

Separately, `AutomatonState` is a circle with a name, an end-state flag and a
drag handle. Moving the handle moves the centre.

The modules are:

- `Geometry`: points, strokes and squared distance.
- `CircleFit`: the centre and radius folds.
- `ArrowFit`: the nearest-point and furthest-point folds, the arrow polyline
  and the label position.
- `Editor`: the records, the actions, and the `EditorState` class with its
  `Reduce` method.
- `Automaton`: the `AutomatonState` class.

Coordinates (`CGFloat`) are exact reals. Each fold is written as the left fold
the code performs, from the code's own seed. The centre and radius sums start
at 0. The tip search starts at `(CGPoint.zero, 0)`. The two nearest-point
folds (over the states, and over each state's control points) are seeded with
an infinite distance; the model replaces that seed with "no element yet"
(`None`).

The editor store builds its states as records with an id, a symbol, a label
position and a stroke. That record has a different shape from the
`AutomatonState` struct in `AutomataEditor/AutomatonState.swift`, which has a
name, a centre, a radius and an end-state flag. The two are therefore modelled
separately: `Editor.AutomatonState` is a value record kept in the editor's
list, and `Automaton.AutomatonState` is a class whose drag-handle setter
updates its centre in place.

The modelled code contains no final-state marking, no attachment of dangling
transitions, no moving of transition ends when a state is dragged and no
automaton simulation; none of these is modelled.

## Model

| member | source | states |
|---|---|---|
| `Editor.EditorState.constructor` | AutomataEditor/Editor/EditorStore.swift:14-24 | A new editor state has no states, no transitions and the delete-last-stroke flag off. |
| `Editor.EditorState.Strokes` | AutomataEditor/Editor/EditorStore.swift:17-19 | The derived stroke list has one entry per state and per transition: the states' strokes in order, then the transitions'. |
| `Editor.EditorState.ScribblePositions` | AutomataEditor/Editor/EditorStore.swift:20-22 | The derived label positions are likewise the states' positions in order, then the transitions'. |
| `Editor.EditorState.Reduce` | AutomataEditor/Editor/EditorStore.swift:35-134 | See the list after this table. |
| `Editor.FirstIndex` | AutomataEditor/Editor/EditorStore.swift:41-43 | The result is none exactly when no element satisfies the predicate. Otherwise it is an index whose element satisfies it and before which no element does. |
| `CircleFit.SumL1` | AutomataEditor/Editor/EditorStore.swift:57-60 | The summed L1 distance of the control points from a point is never negative. |
| `CircleFit.Radius` | AutomataEditor/Editor/EditorStore.swift:57-61 | The radius of a classified circle is non-negative. |
| `CircleFit.CenterIsBalancePoint` | AutomataEditor/Editor/EditorStore.swift:51-55 | The signed offsets of the control points from q cancel on both axes if and only if q is the computed centre, so the centre is the arithmetic mean. |
| `CircleFit.CenterWithinSpread` | AutomataEditor/Editor/EditorStore.swift:51-55 | On each axis some control point is at or below the centre and some is at or above it. |
| `CircleFit.RadiusZeroIff` | AutomataEditor/Editor/EditorStore.swift:57-61 | The radius is zero if and only if every control point coincides with the centre. |
| `CircleFit.ShiftMovesCenter` | AutomataEditor/Editor/EditorStore.swift:51-61 | Translating every control point by v translates the centre by v and leaves the radius unchanged. |
| `ArrowFit.FirstNearestIsFirstMinimum` | AutomataEditor/Editor/EditorStore.swift:79-87 | The strict `<` fold seeded with "none yet" yields nothing only on an empty list. Otherwise it yields the element of least distance that comes first among equals. |
| `ArrowFit.ClosestPointIsFirstNearest` | AutomataEditor/Editor/EditorStore.swift:80-84 | The closest control point of a stroke is the first one at least squared distance from the point. For an empty stroke it is `CGPoint.zero`. |
| `Editor.ClosestStartStateIsFirstNearest` | AutomataEditor/Editor/EditorStore.swift:79-87 | No start state is chosen exactly when there are no states. Otherwise the chosen state is the first whose stroke passes at least squared distance from the arrow's first point. |
| `ArrowFit.FurthestSoFarIsFirstMaximum` | AutomataEditor/Editor/EditorStore.swift:97-101 | The strict `>` fold from the seed (zero, 0) bounds every distance. If its distance is still 0, its point is zero. Otherwise it holds the first control point of greatest distance. |
| `ArrowFit.TipIsFirstFurthest` | AutomataEditor/Editor/EditorStore.swift:97-101 | The tip is `CGPoint.zero` when every control point is at distance 0 from the start point. Otherwise it is the first control point furthest from the start point. |
| `ArrowFit.LabelPosition` | AutomataEditor/Editor/EditorStore.swift:107-110 | The label sits 50 above the point halfway between the arrow's start and tip. |
| `ArrowFit.Arrow` | AutomataEditor/Editor/EditorStore.swift:151-168 | The arrow has 11 points. Point 0 is the start, and points 1 and 6 are the tip. The other points lie left of the tip. The lower barb (points 2-5) mirrors the upper barb (points 7-10) about the tip's horizontal line. |
| `Editor.NewStateShape` | AutomataEditor/Editor/EditorStore.swift:50-73 | The appended state has the fresh id and sits at the balance point (the mean) of the circle's control points. Its stroke is the circle sampled around it at the non-negative radius. |
| `Editor.NewTransitionShape` | AutomataEditor/Editor/EditorStore.swift:74-118 | The appended transition has no end state and has a start state exactly when states exist; the chosen state is the first nearest. The arrow runs from its start point (the first stroke point when there is no state) to the tip, and the label sits at the lifted midpoint. |
| `Automaton.AutomatonState.constructor` | AutomataEditor/AutomatonState.swift:4-23 | A new state has the given id, centre and radius, an empty name and no end flag. Its stored drag point is the top of its circle, (center.x, center.y - radius). |
| `Automaton.AutomatonState.DragPoint` | AutomataEditor/AutomatonState.swift:25-31 | The drag handle has the centre's x and lies radius above the centre. Placing the centre back below the handle gives the centre again. |
| `Automaton.AutomatonState.SetDragPoint` | AutomataEditor/AutomatonState.swift:32-35 | Afterwards, reading the handle returns p, and writing back the handle just read leaves the centre unchanged. Name, end flag and stored drag point are unchanged; radius and id are constants. |
| `Automaton.DragPointRoundTrip` | AutomataEditor/AutomatonState.swift:25-35 | Read after write and write after read of the handle are both identities. |
| `Automaton.AutomatonState.EndStroke` | AutomataEditor/AutomatonState.swift:38-46 | The end stroke is absent if and only if the state is not an end state. When present, it is the circle sampled at 0.9 of the radius. |
| `Automaton.AutomatonState.ScribblePosition` | AutomataEditor/AutomatonState.swift:48-50 | The label position of a state is its centre. |

`Editor.EditorState.Reduce` states the following, action by action:

- `clear` empties both lists and keeps the flag.
- Relabelling with an id that is absent changes nothing. Otherwise only the
  first element with that id gets the new symbol; the other list and the flag
  are untouched.
- A classified circle appends exactly one state (`NewState`).
- A classified arrow with no points changes nothing. Otherwise it appends
  exactly one transition (`NewTransition`).
- A classifier failure sets the flag.
- `shouldDeleteLastStrokeChanged(b)` sets the flag to b.
- `strokesChanged` changes nothing. It returns a request to classify the last
  stroke, or no effect when the list is empty.

## Left out

- `Array.circle` samples a circle with `cos` and `sin` (floating-point trigonometry), so it is not modelled. Wherever the code calls it, the model takes the sampled polyline as a parameter: `Environment.circle` in the reducer and the `circle` argument of `EndStroke`.
- `AutomataEditor/CGPoint+Shape.swift` (vector arithmetic with `sqrt`, normalisation and rotation) is not part of this model.
- `Editor.EditorState.Reduce`: requires a classified circle to carry at least one control point. For an empty circle the code divides by a zero count and would append a state with NaN coordinates, which exact reals cannot represent.
- `strokesChanged`: the model returns the classification request as a value (`RecognizeStroke`). The asynchronous classifier call, the scheduler hop and the later `automataShapeClassified` action are outside the model.
- `CGFloat` is read as an exact real: no rounding, no NaN and no infinities. The infinite seeds of the nearest-point folds become "none yet".
- Identifiers are generated by the record initialisers, which are not part of this model. The reducer takes the fresh id as a parameter (`Environment.freshId`). The default symbol of a new record is likewise not visible, so the model gives a new state or transition an empty symbol; `Editor.NewTransitionShape` states that choice (`t.symbol == ""`), not a promise of the code.
- `ArrowFit.TipIsFirstFurthest`: its condition for the zero tip is "every control point is at squared distance 0 from the start point", which is the code's own test. The model does not prove that this is the same as "every control point equals the start point".
- The SwiftUI and PencilKit views, image preprocessing, the CoreML classifier and the iCloud document service are user interface and I/O, so they are not part of this model.
