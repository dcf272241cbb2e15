/**
 * The pipeline objects the controllers display. The controllers compare them by
 * reference (`==` in Java); each value carries an `id` standing for its identity.
 * The model assumes that one `id` always comes with the same sockets. Under that
 * assumption two values are equal exactly when they stand for the same object.
 * `Step(1, [a], [])` and `Step(1, [b], [])` share an id but are different
 * values, so a pipeline holding both is outside what the model describes.
 */
module PipelineModel {

  datatype InputSocket = InputSocket(id: nat)

  datatype OutputSocket = OutputSocket(id: nat)

  /** A source and its output sockets, in order. */
  datatype Source = Source(id: nat, outputs: seq<OutputSocket>)

  /** A step and its input and output sockets, in order. */
  datatype Step = Step(id: nat, inputs: seq<InputSocket>, outputs: seq<OutputSocket>)

  /** An edge from an output socket to an input socket. */
  datatype Connection = Connection(id: nat, output: OutputSocket, input: InputSocket)
}
