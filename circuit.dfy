/**
  The witness and input layout of the rings-snark circuit layer.

  Field elements are left abstract as the type parameter `F`: the modelled code
  only moves, slices and reshapes them, it never computes with them.
  A Rust panic is modelled as the `Panicked` failure, an `Err` returned by `?`
  as `WitnessError`.
 */
module SnarkCircuit {
  import opened Wrappers

  // ---------------------------------------------------------------------------
  // Inputs: `TyInput<F> = Vec<(String, Vec<F>)>`
  // ---------------------------------------------------------------------------

  /** A witness input: named vectors of values, in order. */
  type TyInput<F> = seq<(string, seq<F>)>

  /** A witness: the values of all wires, `<1> <Outputs> <Inputs> <Auxs>`. */
  type TyWitness<F> = seq<F>

  /** `input_len`: how many values the entries hold together; none exactly when every vector is empty. */
  function InputLen<F>(input: TyInput<F>): (n: nat)
    ensures n == 0 <==> forall j :: 0 <= j < |input| ==> input[j].1 == []
    decreases |input|
  {
    if input == [] then 0
    else
      var rest := InputLen(input[1..]);
      assert forall j :: 1 <= j < |input| ==> input[j] == input[1..][j - 1];
      |input[0].1| + rest
  }

  /** `flat_input`: the values of every entry, in order, with the names dropped; `input_len` of them. */
  function FlatInput<F>(input: TyInput<F>): (r: seq<F>)
    ensures |r| == InputLen(input)
    decreases |input|
  {
    if input == [] then [] else input[0].1 + FlatInput(input[1..])
  }

  /** Where the values of entry `j` start in the flattened input. */
  function Offset<F>(input: TyInput<F>, j: nat): nat
    requires j <= |input|
  {
    InputLen(input[..j])
  }

  /** Two inputs have the same shape: the same names in the same order, and vectors of the same lengths. */
  predicate SameShape<F>(x: TyInput<F>, input: TyInput<F>)
  {
    && |x| == |input|
    && forall j :: 0 <= j < |x| ==> x[j].0 == input[j].0 && |x[j].1| == |input[j].1|
  }

  lemma {:induction false} InputLenAppend<F>(a: TyInput<F>, b: TyInput<F>)
    ensures InputLen(a + b) == InputLen(a) + InputLen(b)
    decreases |a|
  {
    if a == [] {
      assert a + b == b;
    } else {
      assert (a + b)[1..] == a[1..] + b;
      InputLenAppend(a[1..], b);
    }
  }

  lemma {:induction false} FlatInputAppend<F>(a: TyInput<F>, b: TyInput<F>)
    ensures FlatInput(a + b) == FlatInput(a) + FlatInput(b)
    decreases |a|
  {
    if a == [] {
      assert a + b == b;
    } else {
      assert (a + b)[1..] == a[1..] + b;
      FlatInputAppend(a[1..], b);
    }
  }

  /** The flattened input is the in-order concatenation: value `k` of entry `j` sits at `Offset(input, j) + k`. */
  lemma FlatInputAt<F>(input: TyInput<F>, j: nat, k: nat)
    requires j < |input| && k < |input[j].1|
    ensures Offset(input, j) + k < |FlatInput(input)|
    ensures FlatInput(input)[Offset(input, j) + k] == input[j].1[k]
  {
    var front, back := input[..j], input[j..];
    assert input == front + back;
    FlatInputAppend(front, back);
    assert back[0] == input[j];
    assert FlatInput(back) == input[j].1 + FlatInput(back[1..]);
  }

  // ---------------------------------------------------------------------------
  // reshape: cut a flat output back into the shape of a named input list
  // ---------------------------------------------------------------------------

  /**
    What `reshape(input, output)` returns: entry by entry, the next `|vec|`
    values of `output` under the entry's name; `None` where the source panics
    because `output` ran out.
   */
  function Reshaped<F>(input: TyInput<F>, output: seq<F>): (r: Option<TyInput<F>>)
    ensures r.Some? ==> SameShape(r.value, input)
    decreases |input|
  {
    if input == [] then Some([])
    else
      var size := |input[0].1|;
      if |output| < size then None
      else
        match Reshaped(input[1..], output[size..])
        case None => None
        case Some(rest) =>
          var x := [(input[0].0, output[..size])] + rest;
          assert forall j :: 1 <= j < |x| ==> x[j] == rest[j - 1] && input[j] == input[1..][j - 1];
          Some(x)
  }

  /** `reshape` panics exactly when `output` holds fewer than `input_len(input)` values. */
  lemma {:induction false} ReshapedFailsExactly<F>(input: TyInput<F>, output: seq<F>)
    ensures Reshaped(input, output).None? <==> |output| < InputLen(input)
    decreases |input|
  {
    if input != [] {
      var size := |input[0].1|;
      if |output| >= size {
        ReshapedFailsExactly(input[1..], output[size..]);
      }
    }
  }

  /**
    A successful `reshape` keeps the shape of `input`, and its values, read in
    order, are the first `input_len(input)` values of `output`.
   */
  lemma {:induction false} ReshapedShape<F>(input: TyInput<F>, output: seq<F>)
    requires Reshaped(input, output).Some?
    ensures InputLen(input) <= |output|
    ensures SameShape(Reshaped(input, output).value, input)
    ensures FlatInput(Reshaped(input, output).value) == output[..InputLen(input)]
    decreases |input|
  {
    if input != [] {
      var size := |input[0].1|;
      var tail := output[size..];
      ReshapedShape(input[1..], tail);
      var rest := Reshaped(input[1..], tail).value;
      var r := Reshaped(input, output).value;
      assert r == [(input[0].0, output[..size])] + rest;
      assert r[1..] == rest;
      assert output[..size] + tail[..InputLen(input[1..])] == output[..InputLen(input)];
    }
  }

  /**
    The shape of `input` and the prefix of `output` determine the reshaped
    value: any `x` shaped like `input` whose values are that prefix is it.
   */
  lemma {:induction false} ReshapedUnique<F>(input: TyInput<F>, output: seq<F>, x: TyInput<F>)
    requires SameShape(x, input)
    requires InputLen(input) <= |output|
    requires FlatInput(x) == output[..InputLen(input)]
    ensures Reshaped(input, output) == Some(x)
    decreases |input|
  {
    if input != [] {
      var size := |input[0].1|;
      var n := InputLen(input);
      assert FlatInput(x) == x[0].1 + FlatInput(x[1..]);
      assert x[0].1 == FlatInput(x)[..size] == output[..size];
      assert FlatInput(x[1..]) == FlatInput(x)[size..] == output[size..][..InputLen(input[1..])];
      assert SameShape(x[1..], input[1..]);
      ReshapedUnique(input[1..], output[size..], x[1..]);
      assert x == [(input[0].0, output[..size])] + x[1..];
    }
  }

  /** Reshaping an input's own flattening gives the input back. */
  lemma ReshapedFlatRoundTrip<F>(input: TyInput<F>)
    ensures Reshaped(input, FlatInput(input)) == Some(input)
  {
    ReshapedUnique(input, FlatInput(input), input);
  }

  /** Values of `output` beyond the first `input_len(input)` are ignored. */
  lemma ReshapedIgnoresTail<F>(input: TyInput<F>, output: seq<F>, extra: seq<F>)
    requires InputLen(input) <= |output|
    ensures Reshaped(input, output + extra) == Reshaped(input, output)
  {
    ReshapedFailsExactly(input, output);
    ReshapedShape(input, output);
    var x := Reshaped(input, output).value;
    assert (output + extra)[..InputLen(input)] == output[..InputLen(input)];
    ReshapedUnique(input, output + extra, x);
  }

  /** `reshape`, the inner function of `gen_recursive_circuit`: two loops advancing one iterator over `output`. */
  method Reshape<F>(input: TyInput<F>, output: seq<F>) returns (r: Option<TyInput<F>>)
    ensures r == Reshaped(input, output)
  {
    var ret: TyInput<F> := [];
    var pos := 0;  // how far `iter` has advanced over `output`
    assert input[0..] == input && output[0..] == output;
    assert Prepend(ret, Reshaped(input, output)) == Reshaped(input, output) by {
      match Reshaped(input, output) {
        case None =>
        case Some(all) => assert ret + all == all;
      }
    }
    for j := 0 to |input|
      invariant pos <= |output|
      invariant Reshaped(input, output) == Prepend(ret, Reshaped(input[j..], output[pos..]))
    {
      var (val, vec) := input[j];
      var size := |vec|;
      var start := pos;
      var newVec: seq<F> := [];
      assert input[j..][0] == input[j] && input[j..][1..] == input[j + 1..];
      for k := 0 to size
        invariant pos == start + k <= |output|
        invariant newVec == output[start..pos]
      {
        if pos < |output| {
          newVec := newVec + [output[pos]];
          pos := pos + 1;
        } else {
          // `iter.next()` is `None`: the source panics
          assert Reshaped(input[j..], output[start..]) == None;
          return None;
        }
      }
      assert output[start..][size..] == output[pos..];
      assert output[start..][..size] == newVec;
      assert Reshaped(input[j..], output[start..])
          == Prepend([(val, newVec)], Reshaped(input[j + 1..], output[pos..]));
      PrependTwice(ret, [(val, newVec)], Reshaped(input[j + 1..], output[pos..]));
      ret := ret + [(val, newVec)];
    }
    assert input[|input|..] == [] && ret + [] == ret;
    r := Some(ret);
  }

  /** The outcome of reshaping the remaining entries, behind the entries already built. */
  function Prepend<F>(done: TyInput<F>, rest: Option<TyInput<F>>): Option<TyInput<F>>
  {
    match rest
    case None => None
    case Some(r) => Some(done + r)
  }

  lemma PrependTwice<F>(a: TyInput<F>, b: TyInput<F>, rest: Option<TyInput<F>>)
    ensures Prepend(a, Prepend(b, rest)) == Prepend(a + b, rest)
  {
    if rest.Some? {
      assert a + (b + rest.value) == (a + b) + rest.value;
    }
  }

  // ---------------------------------------------------------------------------
  // R1CS and circuits
  // ---------------------------------------------------------------------------

  /** A linear combination as the R1CS file stores it: `(wire index, coefficient)` pairs. */
  type LcData<F> = seq<(nat, F)>

  /** One R1CS constraint `A * B = C`. */
  datatype Constraint<F> = Constraint(a: LcData<F>, b: LcData<F>, c: LcData<F>)

  /**
    The parts of `R1CS<F>` the circuit reads. `numInputs` counts the constant
    wire 0 and the public outputs and inputs; `numAux` the private wires.
   */
  datatype R1cs<F> = R1cs(numInputs: nat, numAux: nat, constraints: seq<Constraint<F>>)

  /** `Circuit<F>`: a shared R1CS and one witness for it (the source's `witness` field; `witness` is a Dafny keyword). */
  datatype Circuit<F> = Circuit(r1cs: R1cs<F>, wires: TyWitness<F>)
  {
    /**
      `arity`: the number of public outputs, on the assumption that exactly
      half of the public wires after the constant one are outputs.
     */
    function Arity(): (a: nat)
      requires r1cs.numInputs >= 1
      ensures r1cs.numInputs == 2 * a + 1 || r1cs.numInputs == 2 * a + 2
    {
      (r1cs.numInputs - 1) / 2
    }

    /**
      `get_public_outputs`: the `numInputs - inputSize - 1` values after the
      constant wire. `None` where the source panics: the `usize` subtraction
      underflows (with overflow checks on), or the slice is invalid: it lies
      beyond the witness, or, with the subtraction wrapped when
      `inputSize == numInputs`, it is the inverted range `1..0`.
     */
    function GetPublicOutputs(inputSize: nat): (r: Option<seq<F>>)
      ensures r.Some? <==> inputSize < r1cs.numInputs && r1cs.numInputs - inputSize <= |wires|
      ensures r.Some? ==> |r.value| == r1cs.numInputs - inputSize - 1
      ensures r.Some? ==> forall k :: 0 <= k < |r.value| ==> r.value[k] == wires[k + 1]
    {
      if inputSize + 1 <= r1cs.numInputs then
        var outputCount := r1cs.numInputs - inputSize - 1;
        if outputCount + 1 <= |wires| then Some(wires[1..outputCount + 1]) else None
      else
        None
    }
  }

  // ---------------------------------------------------------------------------
  // gen_recursive_circuit
  // ---------------------------------------------------------------------------

  /** Where the source panics while chaining rounds. */
  datatype PanicSite = PublicOutputsSlice | ReshapeShortOutput

  /** How generating circuits stops short: the calculator's `Err`, passed on by `?`, or a panic. */
  datatype Failure = WitnessError(message: string) | Panicked(site: PanicSite)

  /**
    `WasmCircuitGenerator<F>`: an R1CS and a witness calculator. The wasm
    calculator is a foreign call; here it is any function from an input and the
    sanity-check flag to a witness or an error message.
   */
  datatype WasmCircuitGenerator<!F> = WasmCircuitGenerator(
    r1cs: R1cs<F>,
    calculator: (TyInput<F>, bool) -> Result<TyWitness<F>, string>)

  /** Private input `i`, or nothing when `private_inputs.get(i)` is `None`. */
  function PrivateAt<F>(privateInputs: seq<TyInput<F>>, i: nat): TyInput<F>
  {
    if i < |privateInputs| then privateInputs[i] else []
  }

  /** What round `i` feeds the calculator: the latest reshaped output, or the public input while that is empty, then private input `i`. */
  function Feed<F>(publicInput: TyInput<F>, privateInputs: seq<TyInput<F>>, i: nat, latestOutput: TyInput<F>): TyInput<F>
  {
    (if latestOutput == [] then publicInput else latestOutput) + PrivateAt(privateInputs, i)
  }

  /** The next `latest_output`: the circuit's public outputs reshaped like the public input. */
  function NextInput<F>(publicInput: TyInput<F>, circom: Circuit<F>): Result<TyInput<F>, Failure>
  {
    match circom.GetPublicOutputs(InputLen(publicInput))
    case None => Err(Panicked(PublicOutputsSlice))
    case Some(outputs) =>
      match Reshaped(publicInput, outputs)
      case None => Err(Panicked(ReshapeShortOutput))
      case Some(next) => Ok(next)
  }

  /** The state of `gen_recursive_circuit` after `k` rounds: the circuits built and `latest_output`, or how it stopped. */
  function Rounds<F>(g: WasmCircuitGenerator<F>, publicInput: TyInput<F>, privateInputs: seq<TyInput<F>>,
                     sanityCheck: bool, k: nat): (r: Result<(seq<Circuit<F>>, TyInput<F>), Failure>)
    ensures r.Ok? ==> |r.value.0| == k
    decreases k
  {
    if k == 0 then Ok(([], []))
    else
      match Rounds(g, publicInput, privateInputs, sanityCheck, k - 1)
      case Err(e) => Err(e)
      case Ok((circuits, latestOutput)) =>
        match g.calculator(Feed(publicInput, privateInputs, k - 1, latestOutput), sanityCheck)
        case Err(message) => Err(WitnessError(message))
        case Ok(w) =>
          var circom := Circuit(g.r1cs, w);
          match NextInput(publicInput, circom)
          case Err(e) => Err(e)
          case Ok(next) => Ok((circuits + [circom], next))
  }

  /** One successful round: it extends the circuits by the one built from what `Feed` gave the calculator. */
  lemma RoundsStep<F>(g: WasmCircuitGenerator<F>, publicInput: TyInput<F>,
                      privateInputs: seq<TyInput<F>>, sanityCheck: bool, k: nat)
    requires Rounds(g, publicInput, privateInputs, sanityCheck, k + 1).Ok?
    ensures Rounds(g, publicInput, privateInputs, sanityCheck, k).Ok?
    ensures var (before, latestOutput) := Rounds(g, publicInput, privateInputs, sanityCheck, k).value;
      var (after, next) := Rounds(g, publicInput, privateInputs, sanityCheck, k + 1).value;
      && after == before + [after[|after| - 1]]
      && after[|after| - 1].r1cs == g.r1cs
      && g.calculator(Feed(publicInput, privateInputs, k, latestOutput), sanityCheck) == Ok(after[|after| - 1].wires)
      && NextInput(publicInput, after[|after| - 1]) == Ok(next)
  {
  }

  /** Once a round fails, later rounds never run: the failure is final. */
  lemma {:induction false} RoundsFailureIsFinal<F>(g: WasmCircuitGenerator<F>, publicInput: TyInput<F>,
                                                   privateInputs: seq<TyInput<F>>, sanityCheck: bool, k: nat, m: nat)
    requires k <= m
    requires Rounds(g, publicInput, privateInputs, sanityCheck, k).Err?
    ensures Rounds(g, publicInput, privateInputs, sanityCheck, m) == Rounds(g, publicInput, privateInputs, sanityCheck, k)
    decreases m
  {
    if k < m {
      RoundsFailureIsFinal(g, publicInput, privateInputs, sanityCheck, k, m - 1);
    }
  }

  /** A failed run reports the failure of the first round that failed; every round before it succeeded. */
  lemma {:induction false} RoundsFirstFailure<F>(g: WasmCircuitGenerator<F>, publicInput: TyInput<F>,
                                                 privateInputs: seq<TyInput<F>>, sanityCheck: bool, k: nat)
    requires Rounds(g, publicInput, privateInputs, sanityCheck, k).Err?
    ensures exists j :: (0 <= j < k
      && Rounds(g, publicInput, privateInputs, sanityCheck, j).Ok?
      && Rounds(g, publicInput, privateInputs, sanityCheck, j + 1) == Rounds(g, publicInput, privateInputs, sanityCheck, k))
    decreases k
  {
    if Rounds(g, publicInput, privateInputs, sanityCheck, k - 1).Ok? {
      assert k - 1 + 1 == k;
    } else {
      RoundsFirstFailure(g, publicInput, privateInputs, sanityCheck, k - 1);
    }
  }

  /**
    After `k` successful rounds there are exactly `k` circuits, all on the
    generator's R1CS, each with outputs that reshape; `latest_output` is empty
    before the first round and afterwards the last circuit's reshaped outputs.
   */
  lemma {:induction false} RoundsShape<F>(g: WasmCircuitGenerator<F>, publicInput: TyInput<F>,
                                          privateInputs: seq<TyInput<F>>, sanityCheck: bool, k: nat)
    requires Rounds(g, publicInput, privateInputs, sanityCheck, k).Ok?
    ensures var (circuits, latestOutput) := Rounds(g, publicInput, privateInputs, sanityCheck, k).value;
      && |circuits| == k
      && (forall j :: 0 <= j < k ==> circuits[j].r1cs == g.r1cs && NextInput(publicInput, circuits[j]).Ok?)
      && (k == 0 ==> latestOutput == [])
      && (k > 0 ==> latestOutput == NextInput(publicInput, circuits[k - 1]).value)
    decreases k
  {
    if k > 0 {
      RoundsStep(g, publicInput, privateInputs, sanityCheck, k - 1);
      RoundsShape(g, publicInput, privateInputs, sanityCheck, k - 1);
    }
  }

  /** The reshaped outputs have as many entries as the public input, so they are empty only when it is. */
  lemma NextInputEmpty<F>(publicInput: TyInput<F>, circom: Circuit<F>)
    requires NextInput(publicInput, circom).Ok?
    ensures NextInput(publicInput, circom).value == [] <==> publicInput == []
  {
    ReshapedShape(publicInput, circom.GetPublicOutputs(InputLen(publicInput)).value);
  }

  /**
    What the chaining rule says round `j` is fed, given the circuits of the
    earlier rounds: the public input for round 0, and for round `j > 0` the
    public outputs of circuit `j - 1` reshaped like the public input; then
    private input `j` when there is one. (The empty fallback is never used on a
    successful run: there every circuit's outputs reshape, by `RoundsShape`.)
   */
  function ChainedInput<F>(publicInput: TyInput<F>, privateInputs: seq<TyInput<F>>,
                           circuits: seq<Circuit<F>>, j: nat): TyInput<F>
    requires j <= |circuits|
  {
    var base :=
      if j == 0 then publicInput
      else match NextInput(publicInput, circuits[j - 1])
        case Ok(next) => next
        case Err(_) => [];
    base + PrivateAt(privateInputs, j)
  }

  /** What round `j` is fed depends only on the circuits before it. */
  lemma ChainedInputExtend<F>(publicInput: TyInput<F>, privateInputs: seq<TyInput<F>>,
                              circuits: seq<Circuit<F>>, next: Circuit<F>, j: nat)
    requires j <= |circuits|
    ensures ChainedInput(publicInput, privateInputs, circuits + [next], j) == ChainedInput(publicInput, privateInputs, circuits, j)
  {
    if j > 0 {
      assert (circuits + [next])[j - 1] == circuits[j - 1];
    }
  }

  /** The last round of a successful run was fed what the chaining rule says. */
  lemma RoundsLastFeed<F>(g: WasmCircuitGenerator<F>, publicInput: TyInput<F>,
                          privateInputs: seq<TyInput<F>>, sanityCheck: bool, k: nat)
    requires k > 0 && Rounds(g, publicInput, privateInputs, sanityCheck, k).Ok?
    ensures var circuits := Rounds(g, publicInput, privateInputs, sanityCheck, k).value.0;
      g.calculator(ChainedInput(publicInput, privateInputs, circuits, k - 1), sanityCheck) == Ok(circuits[k - 1].wires)
  {
    RoundsStep(g, publicInput, privateInputs, sanityCheck, k - 1);
    RoundsShape(g, publicInput, privateInputs, sanityCheck, k - 1);
    var before := Rounds(g, publicInput, privateInputs, sanityCheck, k - 1).value.0;
    var latestOutput := Rounds(g, publicInput, privateInputs, sanityCheck, k - 1).value.1;
    var circuits := Rounds(g, publicInput, privateInputs, sanityCheck, k).value.0;
    if k > 1 {
      assert circuits[k - 2] == before[k - 2];
      NextInputEmpty(publicInput, before[k - 2]);
    }
    assert Feed(publicInput, privateInputs, k - 1, latestOutput) == ChainedInput(publicInput, privateInputs, circuits, k - 1);
  }

  /**
    The chaining rule holds of every successful run: circuit `j` carries the
    witness the calculator computed from `ChainedInput(.., j)`. The source
    switches on the emptiness of `latest_output`, not on the round number; the
    two agree because reshaped outputs are empty only when the public input is.
   */
  lemma {:induction false} RoundsChain<F>(g: WasmCircuitGenerator<F>, publicInput: TyInput<F>,
                                          privateInputs: seq<TyInput<F>>, sanityCheck: bool, k: nat)
    requires Rounds(g, publicInput, privateInputs, sanityCheck, k).Ok?
    ensures var circuits := Rounds(g, publicInput, privateInputs, sanityCheck, k).value.0;
      && |circuits| == k
      && forall j :: 0 <= j < k ==>
           g.calculator(ChainedInput(publicInput, privateInputs, circuits, j), sanityCheck) == Ok(circuits[j].wires)
    decreases k
  {
    if k > 0 {
      RoundsStep(g, publicInput, privateInputs, sanityCheck, k - 1);
      RoundsChain(g, publicInput, privateInputs, sanityCheck, k - 1);
      RoundsLastFeed(g, publicInput, privateInputs, sanityCheck, k);
      var before := Rounds(g, publicInput, privateInputs, sanityCheck, k - 1).value.0;
      var circuits := Rounds(g, publicInput, privateInputs, sanityCheck, k).value.0;
      forall j | 0 <= j < k - 1
        ensures g.calculator(ChainedInput(publicInput, privateInputs, circuits, j), sanityCheck) == Ok(circuits[j].wires)
      {
        ChainedInputExtend(publicInput, privateInputs, before, circuits[k - 1], j);
        assert circuits[j] == before[j];
      }
    }
  }

  /**
    `gen_recursive_circuit`: runs `times` rounds, feeding each round's reshaped
    public outputs to the next, and returns the circuits or the first failure.
   */
  method GenRecursiveCircuit<F>(g: WasmCircuitGenerator<F>, publicInput: TyInput<F>,
                                privateInputs: seq<TyInput<F>>, times: nat, sanityCheck: bool)
    returns (r: Result<seq<Circuit<F>>, Failure>)
    ensures r.Ok? <==> Rounds(g, publicInput, privateInputs, sanityCheck, times).Ok?
    ensures r.Ok? ==> r.value == Rounds(g, publicInput, privateInputs, sanityCheck, times).value.0
    ensures r.Err? ==> Rounds(g, publicInput, privateInputs, sanityCheck, times) == Err(r.error)
    ensures r.Ok? ==> |r.value| == times && forall j :: 0 <= j < times ==> r.value[j].r1cs == g.r1cs
    ensures r.Ok? ==> forall j :: 0 <= j < times ==>
      g.calculator(ChainedInput(publicInput, privateInputs, r.value, j), sanityCheck) == Ok(r.value[j].wires)
  {
    var ret: seq<Circuit<F>> := [];
    var latestOutput: TyInput<F> := [];
    var inputLen := InputLen(publicInput);
    for i := 0 to times
      invariant Rounds(g, publicInput, privateInputs, sanityCheck, i) == Ok((ret, latestOutput))
    {
      var input := if latestOutput == [] then publicInput else latestOutput;
      if i < |privateInputs| {
        input := input + privateInputs[i];
      }
      assert input == Feed(publicInput, privateInputs, i, latestOutput);
      var computed := g.calculator(input, sanityCheck);
      if computed.Err? {
        RoundsFailureIsFinal(g, publicInput, privateInputs, sanityCheck, i + 1, times);
        return Err(WitnessError(computed.error));
      }
      var circom := Circuit(g.r1cs, computed.value);
      var outputs := circom.GetPublicOutputs(inputLen);
      if outputs.None? {
        RoundsFailureIsFinal(g, publicInput, privateInputs, sanityCheck, i + 1, times);
        return Err(Panicked(PublicOutputsSlice));
      }
      var next := Reshape(publicInput, outputs.value);
      if next.None? {
        RoundsFailureIsFinal(g, publicInput, privateInputs, sanityCheck, i + 1, times);
        return Err(Panicked(ReshapeShortOutput));
      }
      latestOutput := next.value;
      ret := ret + [circom];
    }
    RoundsShape(g, publicInput, privateInputs, sanityCheck, times);
    RoundsChain(g, publicInput, privateInputs, sanityCheck, times);
    r := Ok(ret);
  }

  // ---------------------------------------------------------------------------
  // synthesize: the variable and constraint layout
  // ---------------------------------------------------------------------------

  /** A constraint-system variable: the constant one (`CS::one()`) or the `index`-th allocated variable. */
  datatype Variable = One | Allocated(index: nat)

  /** A term of a linear combination: `(coeff, var)`, or a bare variable (coefficient one). */
  datatype Addend<F> = Term(coeff: F, v: Variable) | Unit(v: Variable)

  /** The namespace an allocation is made under: `public_{i}` or `aux_{i}`. */
  datatype AllocName = Public(i: nat) | Aux(i: nat)

  /** The name an enforcement is made under: `constraint {i}` or `pub input enforce {i}`. */
  datatype EnforceName = ConstraintNo(i: nat) | PubInputEnforce(i: nat)

  /** One `cs.enforce` call: the constraint `a * b = c`. */
  datatype Enforcement<F> = Enforcement(name: EnforceName, a: seq<Addend<F>>, b: seq<Addend<F>>, c: seq<Addend<F>>)

  /**
    The effect of `synthesize` on a `ConstraintSystem`: every allocation, with
    its name and value, and every enforcement, in call order.
   */
  class ConstraintLog<F> {
    var allocations: seq<(AllocName, F)>
    var enforcements: seq<Enforcement<F>>

    constructor ()
      ensures allocations == [] && enforcements == []
    {
      allocations := [];
      enforcements := [];
    }

    /** `AllocatedNum::alloc`: a fresh variable holding `value`. */
    method Alloc(name: AllocName, value: F) returns (v: Variable)
      modifies this
      ensures v == Allocated(|old(allocations)|)
      ensures allocations == old(allocations) + [(name, value)]
      ensures enforcements == old(enforcements)
    {
      v := Allocated(|allocations|);
      allocations := allocations + [(name, value)];
    }

    /** `cs.enforce`. */
    method Enforce(e: Enforcement<F>)
      modifies this
      ensures enforcements == old(enforcements) + [e]
      ensures allocations == old(allocations)
    {
      enforcements := enforcements + [e];
    }
  }

  /** Every wire index of `data` names the constant or one of `count` variables. */
  predicate IndicesWithin<F>(data: LcData<F>, count: nat)
  {
    forall t :: 0 <= t < |data| ==> data[t].0 <= count
  }

  /** The term `make_lc` adds for one `(index, coeff)` pair. */
  function AddendOf<F>(vars: seq<Variable>, entry: (nat, F)): Addend<F>
    requires entry.0 <= |vars|
  {
    if entry.0 > 0 then Term(entry.1, vars[entry.0 - 1]) else Term(entry.1, One)
  }

  /**
    `make_lc`: folds the pairs of `data`, left to right, into a linear
    combination. Wire index 0 stands for the constant one and index `k > 0` for
    `vars[k - 1]`.
   */
  function MakeLc<F>(vars: seq<Variable>, data: LcData<F>): (lc: seq<Addend<F>>)
    requires IndicesWithin(data, |vars|)
    ensures |lc| == |data|
    ensures forall t :: 0 <= t < |data| ==>
      lc[t] == Term(data[t].1, if data[t].0 == 0 then One else vars[data[t].0 - 1])
    decreases |data|
  {
    if data == [] then []
    else MakeLc(vars, data[..|data| - 1]) + [AddendOf(vars, data[|data| - 1])]
  }

  /** The variables allocated at log positions `base`, `base + 1`, ..., `base + count - 1`. */
  function VarRange(base: nat, count: nat): seq<Variable>
  {
    seq(count, k requires 0 <= k < count => Allocated(base + k))
  }

  /** What `synthesize` needs in order not to panic on an index. */
  predicate Synthesizable<F>(c: Circuit<F>, z: seq<Variable>)
  {
    var n := c.r1cs.numInputs;
    && n >= 1
    && n + c.r1cs.numAux <= |c.wires|
    && n - 1 - c.Arity() <= |z|
    && forall i :: 0 <= i < |c.r1cs.constraints| ==>
         var con := c.r1cs.constraints[i];
         IndicesWithin(con.a, n - 1 + c.r1cs.numAux)
         && IndicesWithin(con.b, n - 1 + c.r1cs.numAux)
         && IndicesWithin(con.c, n - 1 + c.r1cs.numAux)
  }

  /** The first loop's allocations: wires `1 .. numInputs - 1`, named `public_{i}`. */
  function PublicAllocations<F>(c: Circuit<F>): seq<(AllocName, F)>
    requires 1 <= c.r1cs.numInputs <= |c.wires|
  {
    seq(c.r1cs.numInputs - 1, k requires 0 <= k < c.r1cs.numInputs - 1 => (Public(k + 1), c.wires[k + 1]))
  }

  /** The second loop's allocations: wires `numInputs + j` for `j < numAux`, named `aux_{j}`. */
  function AuxAllocations<F>(c: Circuit<F>): seq<(AllocName, F)>
    requires c.r1cs.numInputs + c.r1cs.numAux <= |c.wires|
  {
    seq(c.r1cs.numAux, j requires 0 <= j < c.r1cs.numAux => (Aux(j), c.wires[c.r1cs.numInputs + j]))
  }

  /** The R1CS constraints, each with its wire indices resolved against `vars`. */
  function ConstraintEnforcements<F>(c: Circuit<F>, vars: seq<Variable>): seq<Enforcement<F>>
    requires forall i :: 0 <= i < |c.r1cs.constraints| ==>
      var con := c.r1cs.constraints[i];
      IndicesWithin(con.a, |vars|) && IndicesWithin(con.b, |vars|) && IndicesWithin(con.c, |vars|)
  {
    var cons := c.r1cs.constraints;
    seq(|cons|, i requires 0 <= i < |cons| =>
      Enforcement(ConstraintNo(i), MakeLc(vars, cons[i].a), MakeLc(vars, cons[i].b), MakeLc(vars, cons[i].c)))
  }

  /** For each public input `i` in `arity + 1 .. numInputs - 1`: `z[i - 1 - arity] * 1 = vars[i - 1]`. */
  function PublicInputEnforcements<F>(c: Circuit<F>, vars: seq<Variable>, z: seq<Variable>): seq<Enforcement<F>>
    requires c.r1cs.numInputs >= 1
    requires c.r1cs.numInputs - 1 <= |vars|
    requires c.r1cs.numInputs - 1 - c.Arity() <= |z|
  {
    var a := c.Arity();
    seq(c.r1cs.numInputs - 1 - a, t requires 0 <= t < c.r1cs.numInputs - 1 - a =>
      Enforcement(PubInputEnforce(a + 1 + t), [Unit(z[t])], [Unit(One)], [Unit(vars[a + t])]))
  }

  /**
    `synthesize`: allocates one variable per public wire and then one per
    private wire, enforces every R1CS constraint over them, ties each public
    input to its `z` entry, and returns the public-output variables.
   */
  method Synthesize<F>(c: Circuit<F>, cs: ConstraintLog<F>, z: seq<Variable>) returns (zOut: seq<Variable>)
    requires Synthesizable(c, z)
    modifies cs
    ensures cs.allocations == old(cs.allocations) + PublicAllocations(c) + AuxAllocations(c)
    ensures var vars := VarRange(|old(cs.allocations)|, c.r1cs.numInputs - 1 + c.r1cs.numAux);
      cs.enforcements == old(cs.enforcements) + ConstraintEnforcements(c, vars) + PublicInputEnforcements(c, vars, z)
    ensures zOut == VarRange(|old(cs.allocations)|, c.Arity())
  {
    var base := |cs.allocations|;
    var vars;
    vars, zOut := AllocPublic(c, cs);
    vars := AllocAux(c, cs, vars);
    assert vars == VarRange(base, c.r1cs.numInputs - 1 + c.r1cs.numAux);
    EnforceConstraints(c, cs, vars);
    EnforcePublicInputs(c, cs, vars, z);
  }

  /** The first loop of `synthesize`: `public_{i}` holds wire `i`; the first `arity` of them are the outputs. */
  method AllocPublic<F>(c: Circuit<F>, cs: ConstraintLog<F>) returns (vars: seq<Variable>, zOut: seq<Variable>)
    requires 1 <= c.r1cs.numInputs <= |c.wires|
    modifies cs
    ensures cs.allocations == old(cs.allocations) + PublicAllocations(c)
    ensures cs.enforcements == old(cs.enforcements)
    ensures vars == VarRange(|old(cs.allocations)|, c.r1cs.numInputs - 1)
    ensures zOut == VarRange(|old(cs.allocations)|, c.Arity())
  {
    var n := c.r1cs.numInputs;
    var base := |cs.allocations|;
    vars, zOut := [], [];
    var pubOutputCount := (n - 1) / 2;
    for i := 1 to n
      invariant vars == VarRange(base, i - 1)
      invariant zOut == VarRange(base, if i - 1 < pubOutputCount then i - 1 else pubOutputCount)
      invariant cs.allocations == old(cs.allocations) + PublicAllocations(c)[..i - 1]
      invariant cs.enforcements == old(cs.enforcements)
    {
      var v := cs.Alloc(Public(i), c.wires[i]);
      vars := vars + [v];
      if i <= pubOutputCount {
        zOut := zOut + [v];
      }
    }
    assert PublicAllocations(c)[..n - 1] == PublicAllocations(c);
  }

  /** The second loop of `synthesize`: `aux_{j}` holds wire `numInputs + j`. */
  method AllocAux<F>(c: Circuit<F>, cs: ConstraintLog<F>, vars0: seq<Variable>) returns (vars: seq<Variable>)
    requires c.r1cs.numInputs + c.r1cs.numAux <= |c.wires|
    modifies cs
    ensures cs.allocations == old(cs.allocations) + AuxAllocations(c)
    ensures cs.enforcements == old(cs.enforcements)
    ensures vars == vars0 + VarRange(|old(cs.allocations)|, c.r1cs.numAux)
  {
    var n := c.r1cs.numInputs;
    var base := |cs.allocations|;
    vars := vars0;
    for i := 0 to c.r1cs.numAux
      invariant vars == vars0 + VarRange(base, i)
      invariant cs.allocations == old(cs.allocations) + AuxAllocations(c)[..i]
      invariant cs.enforcements == old(cs.enforcements)
    {
      var v := cs.Alloc(Aux(i), c.wires[i + n]);
      vars := vars + [v];
    }
    assert AuxAllocations(c)[..c.r1cs.numAux] == AuxAllocations(c);
  }

  /** The third loop of `synthesize`: one enforcement per R1CS constraint. */
  method EnforceConstraints<F>(c: Circuit<F>, cs: ConstraintLog<F>, vars: seq<Variable>)
    requires forall i :: 0 <= i < |c.r1cs.constraints| ==>
      var con := c.r1cs.constraints[i];
      IndicesWithin(con.a, |vars|) && IndicesWithin(con.b, |vars|) && IndicesWithin(con.c, |vars|)
    modifies cs
    ensures cs.allocations == old(cs.allocations)
    ensures cs.enforcements == old(cs.enforcements) + ConstraintEnforcements(c, vars)
  {
    var cons := c.r1cs.constraints;
    for i := 0 to |cons|
      invariant cs.allocations == old(cs.allocations)
      invariant cs.enforcements == old(cs.enforcements) + ConstraintEnforcements(c, vars)[..i]
    {
      cs.Enforce(Enforcement(ConstraintNo(i), MakeLc(vars, cons[i].a), MakeLc(vars, cons[i].b), MakeLc(vars, cons[i].c)));
    }
    assert ConstraintEnforcements(c, vars)[..|cons|] == ConstraintEnforcements(c, vars);
  }

  /** The last loop of `synthesize`: each public input is enforced equal to its `z` entry. */
  method EnforcePublicInputs<F>(c: Circuit<F>, cs: ConstraintLog<F>, vars: seq<Variable>, z: seq<Variable>)
    requires c.r1cs.numInputs >= 1
    requires c.r1cs.numInputs - 1 <= |vars|
    requires c.r1cs.numInputs - 1 - c.Arity() <= |z|
    modifies cs
    ensures cs.allocations == old(cs.allocations)
    ensures cs.enforcements == old(cs.enforcements) + PublicInputEnforcements(c, vars, z)
  {
    var n := c.r1cs.numInputs;
    var pubOutputCount := (n - 1) / 2;
    for i := pubOutputCount + 1 to n
      invariant cs.allocations == old(cs.allocations)
      invariant cs.enforcements == old(cs.enforcements) + PublicInputEnforcements(c, vars, z)[..i - 1 - pubOutputCount]
    {
      cs.Enforce(Enforcement(PubInputEnforce(i), [Unit(z[i - 1 - pubOutputCount])], [Unit(One)], [Unit(vars[i - 1])]));
    }
    assert PublicInputEnforcements(c, vars, z)[..n - 1 - pubOutputCount] == PublicInputEnforcements(c, vars, z);
  }

  /**
    The allocation layout: the variable allocated `k`-th by `synthesize` holds
    wire `k + 1`; the first `numInputs - 1` are the public wires, the rest the
    private ones in order.
   */
  lemma AllocationLayout<F>(c: Circuit<F>, k: nat)
    requires 1 <= c.r1cs.numInputs && c.r1cs.numInputs + c.r1cs.numAux <= |c.wires|
    requires k < c.r1cs.numInputs - 1 + c.r1cs.numAux
    ensures |PublicAllocations(c) + AuxAllocations(c)| == c.r1cs.numInputs - 1 + c.r1cs.numAux
    ensures (PublicAllocations(c) + AuxAllocations(c))[k].1 == c.wires[k + 1]
    ensures (PublicAllocations(c) + AuxAllocations(c))[k].0
         == if k < c.r1cs.numInputs - 1 then Public(k + 1) else Aux(k - (c.r1cs.numInputs - 1))
  {
  }

  /**
    Wire index `w > 0` in a constraint's linear combination resolves to the
    variable allocated `(w - 1)`-th, which holds wire `w` of the witness; index 0
    resolves to the constant one. (Used for each of `A`, `B` and `C`.)
   */
  lemma WireIndexResolves<F>(c: Circuit<F>, base: nat, data: LcData<F>, t: nat)
    requires 1 <= c.r1cs.numInputs && c.r1cs.numInputs + c.r1cs.numAux <= |c.wires|
    requires IndicesWithin(data, c.r1cs.numInputs - 1 + c.r1cs.numAux) && t < |data|
    ensures var vars := VarRange(base, c.r1cs.numInputs - 1 + c.r1cs.numAux);
      var w := data[t].0;
      && MakeLc(vars, data)[t] == Term(data[t].1, if w == 0 then One else Allocated(base + w - 1))
      && (w > 0 ==> (PublicAllocations(c) + AuxAllocations(c))[w - 1].1 == c.wires[w])
  {
    var w := data[t].0;
    if w > 0 {
      AllocationLayout(c, w - 1);
    }
  }

  /**
    `synthesize` issues `|constraints| + (numInputs - 1 - arity)` enforcements;
    the one for public input `i` (`arity < i < numInputs`) states that
    `z[i - 1 - arity]` times one equals the variable holding wire `i`.
   */
  lemma PublicInputsTied<F>(c: Circuit<F>, z: seq<Variable>, base: nat, i: nat)
    requires Synthesizable(c, z)
    requires c.Arity() < i < c.r1cs.numInputs
    ensures var vars := VarRange(base, c.r1cs.numInputs - 1 + c.r1cs.numAux);
      var a := c.Arity();
      var es := ConstraintEnforcements(c, vars) + PublicInputEnforcements(c, vars, z);
      && |es| == |c.r1cs.constraints| + (c.r1cs.numInputs - 1 - a)
      && es[|c.r1cs.constraints| + (i - 1 - a)]
         == Enforcement(PubInputEnforce(i), [Unit(z[i - 1 - a])], [Unit(One)], [Unit(Allocated(base + i - 1))])
      && (PublicAllocations(c) + AuxAllocations(c))[i - 1] == (Public(i), c.wires[i])
  {
    AllocationLayout(c, i - 1);
  }

  /**
    The returned `z_out` are the variables of wires `1 ..= arity`. When exactly
    half of the public wires are outputs, they hold exactly the values
    `get_public_outputs(arity)` slices out of the witness.
   */
  lemma OutputsArePublicOutputs<F>(c: Circuit<F>, base: nat)
    requires 1 <= c.r1cs.numInputs && c.r1cs.numInputs + c.r1cs.numAux <= |c.wires|
    ensures var a := c.Arity();
      var allocs := PublicAllocations(c) + AuxAllocations(c);
      && |VarRange(base, a)| == a <= |allocs|
      && (forall k :: 0 <= k < a ==> VarRange(base, a)[k] == Allocated(base + k) && allocs[k] == (Public(k + 1), c.wires[k + 1]))
      && (c.r1cs.numInputs == 2 * a + 1 ==>
            c.GetPublicOutputs(a).Some? && c.GetPublicOutputs(a).value == seq(a, k requires 0 <= k < a => allocs[k].1))
  {
    var a := c.Arity();
    forall k | 0 <= k < a {
      AllocationLayout(c, k);
    }
  }
}
