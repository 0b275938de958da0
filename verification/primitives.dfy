/**
 * The numeric primitives the kernels call and the activation selector.
 *
 * sigmoid, the four activations of inline_ops.h and their derivatives are
 * transcendental and their source is not part of this model: they are fields of
 * a `Pointwise` value that every kernel receives, so every result holds for
 * every choice of them. The layer-normalisation sub-kernel is likewise a
 * parameter of type `NormFn`.
 */
module Primitives {

  datatype Option<T> = None | Some(value: T)

  /** The activation a pointwise kernel is specialised for. */
  datatype Activation = ReLU | LeakyReLU | Sin | Tanh

  /** The scalar primitives: sigmoid, each activation and each activation's derivative. */
  datatype Scalar = SigmoidOf | ActOf(act: Activation) | DActOf(act: Activation)

  /** A primitive applied to one argument. */
  datatype Call = Call(fn: Scalar, x: real)

  /** Uninterpreted scalar functions: the value of every primitive at every point. */
  datatype Pointwise = Pointwise(eval: Call -> real)

  /** `sigmoid(a)`. */
  function Sigmoid(p: Pointwise, x: real): real
  {
    p.eval(Call(SigmoidOf, x))
  }

  /** `relu(a)`, `leaky_relu(a)`, `sin(a)` or `tanh(a)`, as the kernel's name says. */
  function Act(p: Pointwise, act: Activation, x: real): real
  {
    p.eval(Call(ActOf(act), x))
  }

  /** `d_relu(a)`, `d_leaky_relu(a)`, `d_sin(a)` or `d_tanh(a)`. */
  function DAct(p: Pointwise, act: Activation, x: real): real
  {
    p.eval(Call(DActOf(act), x))
  }

  /** The selector code of each activation: 0 relu, 1 leaky_relu, 2 sin, 3 tanh. */
  function Code(act: Activation): (code: int)
    ensures 0 <= code <= 3
  {
    match act
    case ReLU => 0
    case LeakyReLU => 1
    case Sin => 2
    case Tanh => 3
  }

  /**
   * The kernel a backward IterateInternal launches for an activation code (both
   * backward variants dispatch alike): codes 0 to 3 each launch their kernel and
   * every other code launches none.
   */
  function BackwardKernelFor(code: int): (r: Option<Activation>)
    ensures r.Some? <==> 0 <= code <= 3
    ensures r.Some? ==> Code(r.value) == code
  {
    if code == 0 then Some(ReLU)
    else if code == 1 then Some(LeakyReLU)
    else if code == 2 then Some(Sin)
    else if code == 3 then Some(Tanh)
    else None
  }

  /**
   * The kernel the normalised forward IterateInternal launches: in training codes
   * 0 to 3, in inference only 0, 1 and 3; sin in inference and every unknown code
   * launch nothing.
   */
  function ForwardKernelFor(training: bool, code: int): (r: Option<Activation>)
    ensures r.Some? <==> (0 <= code <= 3 && (training || code != 2))
    ensures r.Some? ==> Code(r.value) == code
  {
    if training then
      if code == 0 then Some(ReLU)
      else if code == 1 then Some(LeakyReLU)
      else if code == 2 then Some(Sin)
      else if code == 3 then Some(Tanh)
      else None
    else
      if code == 0 then Some(ReLU)
      else if code == 1 then Some(LeakyReLU)
      else if code == 3 then Some(Tanh)
      else None
  }

  /**
   * Dispatch is the inverse of Code: the code of an activation selects that
   * activation's kernel in every mode that supports it, and the forward pass in
   * inference launches a subset of what it launches in training.
   */
  lemma {:induction false} DispatchInvertsCode(act: Activation, code: int)
    ensures BackwardKernelFor(Code(act)) == Some(act)
    ensures ForwardKernelFor(true, Code(act)) == Some(act)
    ensures ForwardKernelFor(false, Code(act)) == if act == Sin then None else Some(act)
    ensures ForwardKernelFor(false, code).Some? ==> ForwardKernelFor(false, code) == ForwardKernelFor(true, code)
    ensures ForwardKernelFor(true, code) == BackwardKernelFor(code)
  {
  }

  /**
   * The layer-normalisation sub-kernel `RunPartial(stream, batch, in, out)`: a black
   * box from an N x 2H buffer to an N x 2H buffer. The step number is an argument
   * because the sub-kernel keeps per-step statistics between calls.
   */
  type NormFn = f: (nat, seq<real>) -> seq<real> | forall t: nat, x: seq<real> :: |f(t, x)| == |x|
    witness (t: nat, x: seq<real>) => x
}
