/** How the inference adapter fills the model's declared inputs (`run_detection`, the input
    loop): the image goes to the first declared input, each further input gets a value chosen
    from its declared shape and element type. */
module InferenceInputs {
  import opened Wrappers
  import opened Tensors

  /** Side of the square the image is resized to; auxiliary size inputs are given this value. */
  const InputSide: real := 640.0

  /** Message of the `IndexError` raised when the model declares no input at all. */
  const NoInputError: string := "list index out of range"

  /** A declared dimension: a fixed size, a symbolic name, or unknown (`None`). */
  datatype Dim = Fixed(size: nat) | Symbolic(dimName: string) | Unknown

  /** One entry of the model's declared input signature; `elementType` is the runtime's type
      string such as `"tensor(float)"`. */
  datatype DeclaredInput = DeclaredInput(name: string, shape: seq<Dim>, elementType: string)

  /** The value supplied to an auxiliary (non-first) declared input. */
  function AuxFeed(d: DeclaredInput): (r: Tensor)
    ensures r.shape == [1, 2] || r.shape == [2] || r.shape == []
    ensures r.shape != [] ==> r.dtype == Int && r.data == [InputSide, InputSide]
    ensures r.shape == [] ==> r.data == [1.0]
  {
    if |d.shape| == 2 && d.shape[1] == Fixed(2) then
      NdArray([1, 2], Int, [InputSide, InputSide])
    else if |d.shape| == 1 && (d.shape[0] == Fixed(2) || d.shape[0] == Unknown) then
      NdArray([2], Int, [InputSide, InputSide])
    else
      NdArray([], if d.elementType == "tensor(float)" then Float else Int, [1.0])
  }

  /** The auxiliary-input policy, rule by rule. */
  lemma AuxFeedPolicy(d: DeclaredInput)
    ensures var f := AuxFeed(d);
      (f.shape == [1, 2] <==> |d.shape| == 2 && d.shape[1] == Fixed(2)) &&
      (f.shape == [2] <==>
         !(|d.shape| == 2 && d.shape[1] == Fixed(2)) &&
         |d.shape| == 1 && (d.shape[0] == Fixed(2) || d.shape[0] == Unknown)) &&
      (f.shape == [] <==> f.shape != [1, 2] && f.shape != [2]) &&
      (f.shape != [] ==> f.dtype == Int && f.data == [InputSide, InputSide]) &&
      (f.shape == [] ==> f.data == [1.0] && (f.dtype == Float <==> d.elementType == "tensor(float)"))
  {
  }

  /** What the `k`-th declared input receives. */
  function FeedFor(declared: seq<DeclaredInput>, image: Tensor, k: nat): Tensor
    requires k < |declared|
  {
    if k == 0 then image else AuxFeed(declared[k])
  }

  /** The input mapping after the first `n` declared inputs have been assigned, in order (a later
      input with a repeated name overwrites an earlier one, as a dictionary store does). */
  function FeedsUpTo(declared: seq<DeclaredInput>, image: Tensor, n: nat): map<string, Tensor>
    requires n <= |declared|
  {
    if n == 0 then map[]
    else FeedsUpTo(declared, image, n - 1)[declared[n - 1].name := FeedFor(declared, image, n - 1)]
  }

  /** The complete input mapping, or the `IndexError` when nothing is declared. */
  function Feeds(declared: seq<DeclaredInput>, image: Tensor): (r: Result<map<string, Tensor>>)
    ensures r.Failure? <==> |declared| == 0
    ensures r.Failure? ==> r.error == NoInputError
    ensures r.Success? ==> r.value.Keys == set k | 0 <= k < |declared| :: declared[k].name
  {
    if |declared| == 0 then Failure(NoInputError)
    else
      FeedsKeys(declared, image, |declared|);
      Success(FeedsUpTo(declared, image, |declared|))
  }

  /** The mapping holds exactly the declared names. */
  lemma {:induction false} FeedsKeys(declared: seq<DeclaredInput>, image: Tensor, n: nat)
    requires n <= |declared|
    ensures forall name :: name in FeedsUpTo(declared, image, n) <==>
      exists k :: 0 <= k < n && declared[k].name == name
  {
    if n > 0 {
      FeedsKeys(declared, image, n - 1);
      var prev := FeedsUpTo(declared, image, n - 1);
      var m := FeedsUpTo(declared, image, n);
      assert m == prev[declared[n - 1].name := FeedFor(declared, image, n - 1)];
      forall name ensures name in m <==> exists k :: 0 <= k < n && declared[k].name == name {
        if name != declared[n - 1].name {
          assert name in m <==> name in prev;
        }
      }
    }
  }

  /** Each declared name holds the value of the LAST declared input that carries it. */
  lemma {:induction false} FeedsValueAt(declared: seq<DeclaredInput>, image: Tensor, n: nat, k: nat)
    requires k < n <= |declared|
    requires forall j :: k < j < n ==> declared[j].name != declared[k].name
    ensures declared[k].name in FeedsUpTo(declared, image, n)
    ensures FeedsUpTo(declared, image, n)[declared[k].name] == FeedFor(declared, image, k)
  {
    if k < n - 1 {
      FeedsValueAt(declared, image, n - 1, k);
      assert declared[n - 1].name != declared[k].name;
    }
  }

  /** With a name of its own, the first declared input always receives the image. */
  lemma FirstInputGetsImage(declared: seq<DeclaredInput>, image: Tensor)
    requires |declared| > 0
    requires forall j :: 0 < j < |declared| ==> declared[j].name != declared[0].name
    ensures Feeds(declared, image).Success?
    ensures declared[0].name in Feeds(declared, image).value
    ensures Feeds(declared, image).value[declared[0].name] == image
  {
    FeedsValueAt(declared, image, |declared|, 0);
  }

  /** Builds the input mapping as the adapter does: image first, then one pass over the extra
      declared inputs. */
  method BuildInputs(declared: seq<DeclaredInput>, image: Tensor) returns (r: Result<map<string, Tensor>>)
    ensures r == Feeds(declared, image)
  {
    if |declared| == 0 {
      return Failure(NoInputError);
    }
    var inputs := map[declared[0].name := image];
    assert inputs == FeedsUpTo(declared, image, 1);
    if |declared| > 1 {
      for i := 1 to |declared|
        invariant inputs == FeedsUpTo(declared, image, i)
      {
        var extra := declared[i];
        var shape := extra.shape;
        assert FeedFor(declared, image, i) == AuxFeed(extra);
        if |shape| == 2 && shape[1] == Fixed(2) {
          inputs := inputs[extra.name := NdArray([1, 2], Int, [InputSide, InputSide])];
        } else if |shape| == 1 && (shape[0] == Fixed(2) || shape[0] == Unknown) {
          inputs := inputs[extra.name := NdArray([2], Int, [InputSide, InputSide])];
        } else {
          var dt := if extra.elementType == "tensor(float)" then Float else Int;
          inputs := inputs[extra.name := NdArray([], dt, [1.0])];
        }
      }
    }
    r := Success(inputs);
  }
}
