/**
 * The pipeline view's bookkeeping: three child lists (source views, step views,
 * and the connection layer) kept in step with the pipeline's add, remove and
 * move events. Every JavaFX node is reduced to the model object it shows.
 */
module PipelineUi {
  import opened Outcomes
  import opened JavaLists
  import opened PipelineModel

  datatype SourceView = SourceView(source: Source)

  datatype StepView = StepView(step: Step)

  datatype ConnectionView = ConnectionView(connection: Connection)

  /**
   * A child of the connection layer: the 1x1 rectangle added when the view is
   * initialised, or the view of a connection.
   */
  datatype ConnectionsChild = Anchor | Drawn(view: ConnectionView)

  /** Where a socket view sits: socket `slot` of the `view`-th step view or source view. */
  datatype SocketViewAt = StepSlot(view: nat, slot: nat) | SourceSlot(view: nat, slot: nat)

  function SourceOf(v: SourceView): Source { v.source }

  function StepOf(v: StepView): Step { v.step }

  function ConnectionOf(v: ConnectionView): Connection { v.connection }

  /** The input sockets of each step view, in view order. */
  function StepInputRows(views: seq<StepView>): seq<seq<InputSocket>>
  {
    seq(|views|, i requires 0 <= i < |views| => views[i].step.inputs)
  }

  /** The output sockets of each step view, in view order. */
  function StepOutputRows(views: seq<StepView>): seq<seq<OutputSocket>>
  {
    seq(|views|, i requires 0 <= i < |views| => views[i].step.outputs)
  }

  /** The output sockets of each source view, in view order. */
  function SourceOutputRows(views: seq<SourceView>): seq<seq<OutputSocket>>
  {
    seq(|views|, i requires 0 <= i < |views| => views[i].source.outputs)
  }

  /**
   * `getConnections`: the connection layer's children that are connection
   * views, in order, leaving out the anchor rectangle.
   */
  function DrawnViews(children: seq<ConnectionsChild>): (r: seq<ConnectionView>)
    ensures |r| <= |children|
    ensures forall v :: v in r <==> Drawn(v) in children
    decreases |children|
  {
    if |children| == 0 then []
    else
      assert children == [children[0]] + children[1..];
      match children[0]
      case Anchor => DrawnViews(children[1..])
      case Drawn(v) => [v] + DrawnViews(children[1..])
  }

  lemma {:induction false} DrawnViewsAppend(a: seq<ConnectionsChild>, b: seq<ConnectionsChild>)
    ensures DrawnViews(a + b) == DrawnViews(a) + DrawnViews(b)
    decreases |a|
  {
    if |a| == 0 {
      assert a + b == b;
    } else {
      assert (a + b)[0] == a[0] && (a + b)[1..] == a[1..] + b;
      DrawnViewsAppend(a[1..], b);
    }
  }

  /** The anchor rectangle that `initialize` adds is never listed as a connection view. */
  lemma AnchorIsNotListed(children: seq<ConnectionsChild>)
    ensures DrawnViews(children + [Anchor]) == DrawnViews(children)
  {
    DrawnViewsAppend(children, [Anchor]);
  }

  /** Removing a connection view from the layer removes it from the listing and nothing else. */
  lemma {:induction false} DrawnViewsRemoveFirst(children: seq<ConnectionsChild>, v: ConnectionView)
    ensures DrawnViews(RemoveFirst(children, Drawn(v))) == RemoveFirst(DrawnViews(children), v)
    decreases |children|
  {
    if |children| > 0 && children[0] != Drawn(v) {
      DrawnViewsRemoveFirst(children[1..], v);
      assert ([children[0]] + RemoveFirst(children[1..], Drawn(v)))[1..] == RemoveFirst(children[1..], Drawn(v));
    }
  }

  // Java's 32-bit `int`.
  const IntMin: int := -0x8000_0000
  const IntMax: int := 0x7fff_ffff

  predicate IsJavaInt(n: int) { IntMin <= n <= IntMax }

  /** Java `int` addition: the true sum wrapped into the 32-bit range. */
  function JavaIntAdd(a: int, b: int): (r: int)
    requires IsJavaInt(a) && IsJavaInt(b)
    ensures IsJavaInt(r)
    ensures (a + b - r) % 0x1_0000_0000 == 0
  {
    var sum := a + b;
    if sum > IntMax then sum - 0x1_0000_0000
    else if sum < IntMin then sum + 0x1_0000_0000
    else sum
  }

  /**
   * `Math.min(Math.max(target, 0), size - 1)`: the position a moved step view
   * goes to. It is always a position of the list, and it is the target itself
   * when the target is one.
   */
  function ClampedIndex(target: int, size: nat): (r: nat)
    requires size > 0
    ensures r < size
    ensures 0 <= target < size ==> r == target
  {
    var atLeastZero := if target < 0 then 0 else target;
    if atLeastZero < size - 1 then atLeastZero else size - 1
  }

  function Distance(a: int, b: int): nat { if a < b then b - a else a - b }

  /** The clamped index is the position of the list nearest to the requested one. */
  lemma ClampedIndexIsNearest(target: int, size: nat, j: int)
    requires size > 0 && 0 <= j < size
    ensures Distance(ClampedIndex(target, size), target) <= Distance(j, target)
  {
  }

  /**
   * `onStepMoved`'s new index as the code computes it, with `oldIndex + distance`
   * in `int` arithmetic: a position of the list, but the front of the list
   * whenever the sum overflows upwards.
   */
  function MovedIndexAsWritten(oldIndex: int, distance: int, size: nat): (r: nat)
    requires size > 0 && IsJavaInt(oldIndex) && IsJavaInt(distance)
    ensures r < size
    ensures oldIndex + distance > IntMax ==> r == 0
  {
    ClampedIndex(JavaIntAdd(oldIndex, distance), size)
  }

  /**
   * A distance large enough to overflow `oldIndex + distance` sends the step
   * to the front instead of the end: in a list of three, moving the second step
   * by Integer.MAX_VALUE gives index 0, while the clamp asks for index 2.
   */
  lemma MovedIndexOverflows()
    ensures MovedIndexAsWritten(1, IntMax, 3) == 0
    ensures ClampedIndex(1 + IntMax, 3) == 2
  {
  }

  /** Without overflow the code as written and the clamp agree. */
  lemma MovedIndexAsWrittenAgrees(oldIndex: int, distance: int, size: nat)
    requires size > 0 && IsJavaInt(oldIndex) && IsJavaInt(distance) && IsJavaInt(oldIndex + distance)
    ensures MovedIndexAsWritten(oldIndex, distance, size) == ClampedIndex(oldIndex + distance, size)
  {
  }

  /** Some step view shows `socket` among its inputs. */
  ghost predicate ShowsInputSocket(steps: seq<StepView>, socket: InputSocket)
  {
    exists i :: 0 <= i < |steps| && socket in steps[i].step.inputs
  }

  /** Some step view or source view shows `socket` among its outputs. */
  ghost predicate ShowsOutputSocket(steps: seq<StepView>, sources: seq<SourceView>, socket: OutputSocket)
  {
    (exists i :: 0 <= i < |steps| && socket in steps[i].step.outputs) ||
    (exists i :: 0 <= i < |sources| && socket in sources[i].source.outputs)
  }

  class PipelineController {
    /** The children of the `sources` box. */
    var sources: seq<SourceView>
    /** The children of the `steps` box. */
    var steps: seq<StepView>
    /** The children of the `connections` group. */
    var connections: seq<ConnectionsChild>

    /** The controller as the view loader hands it over: empty containers. */
    constructor ()
      ensures sources == [] && steps == [] && connections == []
    {
      sources, steps, connections := [], [], [];
    }

    /** One view per source and per step already in the pipeline, in pipeline order, then the anchor. */
    method Initialize(pipelineSources: seq<Source>, pipelineSteps: seq<Step>)
      modifies this
      ensures |sources| == |old(sources)| + |pipelineSources| && sources[..|old(sources)|] == old(sources)
      ensures forall i :: 0 <= i < |pipelineSources| ==> sources[|old(sources)| + i] == SourceView(pipelineSources[i])
      ensures |steps| == |old(steps)| + |pipelineSteps| && steps[..|old(steps)|] == old(steps)
      ensures forall i :: 0 <= i < |pipelineSteps| ==> steps[|old(steps)| + i] == StepView(pipelineSteps[i])
      ensures connections == old(connections) + [Anchor]
      ensures DrawnViews(connections) == DrawnViews(old(connections))
    {
      var i := 0;
      while i < |pipelineSources|
        invariant 0 <= i <= |pipelineSources|
        invariant |sources| == |old(sources)| + i && sources[..|old(sources)|] == old(sources)
        invariant forall k :: 0 <= k < i ==> sources[|old(sources)| + k] == SourceView(pipelineSources[k])
        invariant steps == old(steps) && connections == old(connections)
      {
        sources := sources + [SourceView(pipelineSources[i])];
        i := i + 1;
      }
      i := 0;
      while i < |pipelineSteps|
        invariant 0 <= i <= |pipelineSteps|
        invariant |steps| == |old(steps)| + i && steps[..|old(steps)|] == old(steps)
        invariant forall k :: 0 <= k < i ==> steps[|old(steps)| + k] == StepView(pipelineSteps[k])
        invariant |sources| == |old(sources)| + |pipelineSources| && sources[..|old(sources)|] == old(sources)
        invariant forall k :: 0 <= k < |pipelineSources| ==> sources[|old(sources)| + k] == SourceView(pipelineSources[k])
        invariant connections == old(connections)
      {
        steps := steps + [StepView(pipelineSteps[i])];
        i := i + 1;
      }
      AnchorIsNotListed(connections);
      connections := connections + [Anchor];
    }

    /** `findInputSocketView`: the first step view, and in it the first slot, showing `socket`. */
    method FindInputSocketView(socket: InputSocket) returns (r: Result<SocketViewAt>)
      ensures r.Err? <==> !ShowsInputSocket(steps, socket)
      ensures r.Err? ==> r.error == IllegalArgument
      ensures match FirstInRows(StepInputRows(steps), socket)
        case Some(p) => r == Ok(StepSlot(p.0, p.1))
        case None => r.Err?
    {
      var at := IndexInRows(StepInputRows(steps), socket);
      match at {
        case Some(p) => r := Ok(StepSlot(p.0, p.1));
        case None =>
          assert forall i :: 0 <= i < |steps| ==> StepInputRows(steps)[i] == steps[i].step.inputs;
          r := Err(IllegalArgument);
      }
    }

    /**
     * `findOutputSocketView`: the step views are searched first, then the
     * source views; it fails when neither shows `socket`.
     */
    method FindOutputSocketView(socket: OutputSocket) returns (r: Result<SocketViewAt>)
      ensures r.Err? <==> !ShowsOutputSocket(steps, sources, socket)
      ensures r.Err? ==> r.error == IllegalArgument
      ensures match FirstInRows(StepOutputRows(steps), socket)
        case Some(p) => r == Ok(StepSlot(p.0, p.1))
        case None =>
          match FirstInRows(SourceOutputRows(sources), socket)
          case Some(p) => r == Ok(SourceSlot(p.0, p.1))
          case None => r.Err?
    {
      var inSteps := IndexInRows(StepOutputRows(steps), socket);
      if inSteps.Some? {
        return Ok(StepSlot(inSteps.value.0, inSteps.value.1));
      }
      assert forall i :: 0 <= i < |steps| ==> StepOutputRows(steps)[i] == steps[i].step.outputs;
      var inSources := IndexInRows(SourceOutputRows(sources), socket);
      if inSources.Some? {
        return Ok(SourceSlot(inSources.value.0, inSources.value.1));
      }
      assert forall i :: 0 <= i < |sources| ==> SourceOutputRows(sources)[i] == sources[i].source.outputs;
      r := Err(IllegalArgument);
    }

    /** `findSourceView`: the first source view showing `source`. */
    method FindSourceView(source: Source) returns (r: Result<SourceView>)
      ensures r.Ok? ==> r.value in sources && r.value.source == source
      ensures match FirstMatch(sources, source, SourceOf)
        case Some(i) => r == Ok(sources[i])
        case None => r == Err(IllegalArgument)
    {
      var at := IndexWhere(sources, source, SourceOf);
      r := if at.Some? then Ok(sources[at.value]) else Err(IllegalArgument);
    }

    /** `findStepView`: the first step view showing `step`. */
    method FindStepView(step: Step) returns (r: Result<StepView>)
      ensures r.Ok? ==> r.value in steps && r.value.step == step
      ensures match FirstMatch(steps, step, StepOf)
        case Some(i) => r == Ok(steps[i])
        case None => r == Err(IllegalArgument)
    {
      var at := IndexWhere(steps, step, StepOf);
      r := if at.Some? then Ok(steps[at.value]) else Err(IllegalArgument);
    }

    /** `findConnectionView`: the first listed connection view showing `connection`. */
    method FindConnectionView(connection: Connection) returns (r: Result<ConnectionView>)
      ensures r.Ok? ==> Drawn(r.value) in connections && r.value.connection == connection
      ensures match FirstMatch(DrawnViews(connections), connection, ConnectionOf)
        case Some(i) => r == Ok(DrawnViews(connections)[i])
        case None => r == Err(IllegalArgument)
    {
      var listed := DrawnViews(connections);
      var at := IndexWhere(listed, connection, ConnectionOf);
      r := if at.Some? then Ok(listed[at.value]) else Err(IllegalArgument);
    }

    /** `onSourceAdded`: a view for the new source goes at the end. */
    method OnSourceAdded(source: Source)
      modifies this
      ensures sources == old(sources) + [SourceView(source)]
      ensures steps == old(steps) && connections == old(connections)
    {
      sources := sources + [SourceView(source)];
    }

    /** `onSourceRemoved`: the view found for the source is removed; it fails when there is none. */
    method OnSourceRemoved(source: Source) returns (r: Outcome)
      modifies this
      ensures match FirstMatch(old(sources), source, SourceOf)
        case Some(i) => r == Done && sources == RemoveAt(old(sources), i)
        case None => r == Thrown(IllegalArgument) && sources == old(sources)
      ensures steps == old(steps) && connections == old(connections)
    {
      var found := FindSourceView(source);
      match found {
        case Err(e) => r := Thrown(e);
        case Ok(view) =>
          FoundElementIsFirstEqual(sources, source, SourceOf, FirstMatch(sources, source, SourceOf).value);
          sources := RemoveFirst(sources, view);
          r := Done;
      }
    }

    /**
     * `onStepAdded`: the new step's view goes at the event's index when it
     * carries one, at the end otherwise. An index outside the list makes
     * `add(index, view)` throw.
     */
    method OnStepAdded(step: Step, index: Option<int>) returns (r: Outcome)
      modifies this
      ensures var at := if index.Some? then index.value else |old(steps)|;
        if 0 <= at <= |old(steps)| then r == Done && steps == Insert(old(steps), at, StepView(step))
        else r == Thrown(IndexOutOfBounds) && steps == old(steps)
      ensures sources == old(sources) && connections == old(connections)
    {
      var at := if index.Some? then index.value else |steps|;
      if 0 <= at <= |steps| {
        steps := Insert(steps, at, StepView(step));
        r := Done;
      } else {
        r := Thrown(IndexOutOfBounds);
      }
    }

    /** `onStepRemoved`: the view found for the step is removed; it fails when there is none. */
    method OnStepRemoved(step: Step) returns (r: Outcome)
      modifies this
      ensures match FirstMatch(old(steps), step, StepOf)
        case Some(i) => r == Done && steps == RemoveAt(old(steps), i)
        case None => r == Thrown(IllegalArgument) && steps == old(steps)
      ensures sources == old(sources) && connections == old(connections)
    {
      var found := FindStepView(step);
      match found {
        case Err(e) => r := Thrown(e);
        case Ok(view) =>
          FoundElementIsFirstEqual(steps, step, StepOf, FirstMatch(steps, step, StepOf).value);
          steps := RemoveFirst(steps, view);
          r := Done;
      }
    }

    /**
     * `onStepMoved`: the step's view moves by `distance` places, clamped to the
     * list; when the clamped place is its own the list is left as it is.
     */
    method OnStepMoved(step: Step, distance: int) returns (r: Outcome)
      modifies this
      ensures match FirstMatch(old(steps), step, StepOf)
        case Some(i) => r == Done && steps == Move(old(steps), i, ClampedIndex(i + distance, |old(steps)|))
        case None => r == Thrown(IllegalArgument) && steps == old(steps)
      ensures sources == old(sources) && connections == old(connections)
    {
      var found := FindStepView(step);
      match found {
        case Err(e) => r := Thrown(e);
        case Ok(view) =>
          var views := steps;
          FoundElementIsFirstEqual(views, step, StepOf, FirstMatch(views, step, StepOf).value);
          var at := IndexWhere(views, view, Self);
          var oldIndex := at.value;
          var newIndex := ClampedIndex(oldIndex + distance, |views|);
          if newIndex != oldIndex {
            steps := Insert(RemoveAt(views, oldIndex), newIndex, view);
          } else {
            MoveInPlace(views, oldIndex);
          }
          r := Done;
      }
    }

    /**
     * `onConnectionAdded`: both ends of the connection must already be shown;
     * then a view for it goes at the end of the connection layer.
     */
    method OnConnectionAdded(connection: Connection) returns (r: Outcome)
      modifies this
      ensures r == Done <==> ShowsOutputSocket(steps, sources, connection.output) && ShowsInputSocket(steps, connection.input)
      ensures r == Done ==> connections == old(connections) + [Drawn(ConnectionView(connection))]
      ensures r != Done ==> r == Thrown(IllegalArgument) && connections == old(connections)
      ensures sources == old(sources) && steps == old(steps)
    {
      var output := FindOutputSocketView(connection.output);
      if output.Err? {
        return Thrown(output.error);
      }
      var input := FindInputSocketView(connection.input);
      if input.Err? {
        return Thrown(input.error);
      }
      connections := connections + [Drawn(ConnectionView(connection))];
      r := Done;
    }

    /**
     * `onConnectionRemoved`: the listed view found for the connection is removed
     * from the layer; the listing loses exactly that view.
     */
    method OnConnectionRemoved(connection: Connection) returns (r: Outcome)
      modifies this
      ensures match FirstMatch(DrawnViews(old(connections)), connection, ConnectionOf)
        case Some(i) =>
          r == Done &&
          connections == RemoveFirst(old(connections), Drawn(DrawnViews(old(connections))[i])) &&
          DrawnViews(connections) == RemoveAt(DrawnViews(old(connections)), i)
        case None => r == Thrown(IllegalArgument) && connections == old(connections)
      ensures sources == old(sources) && steps == old(steps)
    {
      var found := FindConnectionView(connection);
      match found {
        case Err(e) => r := Thrown(e);
        case Ok(view) =>
          ghost var listed := DrawnViews(connections);
          FoundElementIsFirstEqual(listed, connection, ConnectionOf, FirstMatch(listed, connection, ConnectionOf).value);
          DrawnViewsRemoveFirst(connections, view);
          connections := RemoveFirst(connections, Drawn(view));
          r := Done;
      }
    }
  }
}
