# rings-node: circuit input layout and TCP tunnel table, in Dafny

This project models two sequential pieces of the rings-node repository and proves properties about them.

- **`SnarkCircuit`** (`circuit.dfy`) models `crates/snark/src/circuit.rs`. This code arranges inputs and witnesses for Nova folding over circom circuits:
  - flattening named input vectors (`flat_input`, `input_len`);
  - cutting a flat output back into the shape of a named input list (`reshape`);
  - slicing the public outputs out of a witness laid out as `<1> <Outputs> <Inputs> <Auxs>` (`get_public_outputs`);
  - the number of outputs (`arity`);
  - chaining rounds in `gen_recursive_circuit`, where each round is fed the reshaped outputs of the round before;
  - the variable and constraint layout that `synthesize` writes into a constraint system.

  Field elements are a type parameter `F`: the code only moves them around. The wasm witness calculator is a function-valued field of the generator that may return an error. The constraint system is the class `ConstraintLog`, which records every allocation (name and value) and every enforcement. A Rust panic is the failure `Panicked(site)`. An `Err` passed on by `?` is `WitnessError`.
- **`TcpServer`** (`tcp_server.dfy`) models `node/src/backend/service/tcp_server.rs`. This is the reverse proxy that serves hidden TCP services to remote peers. The class `TcpServer` holds the configured services and the table `TunnelId -> Tunnel`. `HandleMessage` is `handle_message`, which dispatches on `TcpDial`, `TcpClose` and `TcpPackage`. Three I/O results are parameters of `HandleMessage`: decoding the payload, connecting to the service, and sending the failure report. Whatever the handler does outside the table comes back as a list of `Action`s: connect, report, listen or forward.
- **`Wrappers`** (`wrappers.dfy`) defines `Option` and `Result`.

Where the source works with `usize`, the model uses `nat`. `get_public_outputs` computes `num_inputs - input_size - 1`, and that subtraction can underflow. With overflow checks on, the underflow panics. Without them, the value wraps and the slice that follows is always invalid: either it runs past the end of the witness, or, when `input_size == num_inputs`, it is the inverted range `1..0`. So it panics too. Both cases are modelled as the same `Panicked(PublicOutputsSlice)`. `eq_ignore_ascii_case` compares UTF-8 bytes and lower-cases only ASCII bytes. The model compares characters the same way, which gives the same answer because ASCII bytes occur in UTF-8 only as ASCII characters.

`synthesize`, like its source comment, assumes that exactly half of the public wires after the constant one are outputs. Its caller supplies `arity` entries of `z`. When `num_inputs - 1` is odd, the last public input reads `z[arity]`, which is one entry too far. The model's precondition asks for `|z| >= num_inputs - 1 - arity`, which is exactly the length that avoids that read.

## Model

| member | source | states |
|---|---|---|
| `SnarkCircuit.InputLen` | crates/snark/src/circuit.rs:28-30 | `input_len`: the entries hold no values exactly when every vector is empty |
| `SnarkCircuit.FlatInput` | crates/snark/src/circuit.rs:23-25 | `flat_input(input)` holds exactly `input_len(input)` values; with `FlatInputAt` this fixes it as the in-order concatenation |
| `SnarkCircuit.FlatInputAt` | crates/snark/src/circuit.rs:23-25 | flattening is in-order concatenation with names dropped: value `k` of entry `j` is at position `input_len(input[..j]) + k` |
| `SnarkCircuit.FlatInputAppend` | crates/snark/src/circuit.rs:23-25 | flattening a concatenation of inputs concatenates their flattenings |
| `SnarkCircuit.InputLenAppend` | crates/snark/src/circuit.rs:28-30 | `input_len` of a concatenation is the sum of the two lengths |
| `SnarkCircuit.Reshaped` | crates/snark/src/circuit.rs:85-108 | reference definition of `reshape`: a result always has the input's names in order and vectors of the input's lengths; characterised by the `Reshaped…` lemmas below |
| `SnarkCircuit.Reshape` | crates/snark/src/circuit.rs:85-108 | the two nested loops, with one iterator over `output`, compute `Reshaped(input, output)`, panicking (`None`) where `Reshaped` does |
| `SnarkCircuit.ReshapedFailsExactly` | crates/snark/src/circuit.rs:95-103 | `reshape` panics if and only if `output` has fewer than `input_len(input)` values |
| `SnarkCircuit.ReshapedShape` | crates/snark/src/circuit.rs:85-108 | a successful reshape has the same names in the same order, with vectors of the same lengths, and its flattened values are the first `input_len(input)` values of `output` |
| `SnarkCircuit.ReshapedUnique` | crates/snark/src/circuit.rs:85-108 | any input with that shape whose values are that prefix of `output` is the reshape result: shape and prefix fully determine it |
| `SnarkCircuit.ReshapedFlatRoundTrip` | crates/snark/src/circuit.rs:85-108 | `reshape(input, flat_input(input)) == input` |
| `SnarkCircuit.ReshapedIgnoresTail` | crates/snark/src/circuit.rs:90-107 | output values beyond the first `input_len(input)` do not affect the result |
| `SnarkCircuit.Circuit.GetPublicOutputs` | crates/snark/src/circuit.rs:148-153 | returns a value exactly when `input_size < num_inputs` and the witness holds at least `num_inputs - input_size` values, and otherwise panics; the result has `num_inputs - input_size - 1` values, namely witness slots `1 ..= output_count` |
| `SnarkCircuit.Circuit.Arity` | crates/snark/src/circuit.rs:161-163 | `num_inputs` is `2 * arity + 1` or `2 * arity + 2` |
| `SnarkCircuit.GenRecursiveCircuit` | crates/snark/src/circuit.rs:110-137 | on success, returns exactly `times` circuits, all on the generator's R1CS, where circuit `j` carries the witness computed from the chained input of round `j`; otherwise returns the failure of the round-by-round run |
| `SnarkCircuit.Rounds` | crates/snark/src/circuit.rs:115-136 | the state of `gen_recursive_circuit` after `k` rounds: when no round failed, exactly `k` circuits (that they all share the generator's R1CS is proved in `RoundsShape`) |
| `SnarkCircuit.RoundsStep` | crates/snark/src/circuit.rs:115-135 | a successful round appends one circuit on the generator's R1CS, built from the witness of `Feed(..)`, and sets `latest_output` to that circuit's reshaped outputs |
| `SnarkCircuit.RoundsFailureIsFinal` | crates/snark/src/circuit.rs:115-128 | once a round fails (calculator `Err` or panic), later rounds never run and the failure is the result |
| `SnarkCircuit.RoundsFirstFailure` | crates/snark/src/circuit.rs:115-137 | a failed run reports the failure of the first failing round; every earlier round succeeded |
| `SnarkCircuit.RoundsShape` | crates/snark/src/circuit.rs:129-135 | after `k` successful rounds there are `k` circuits on the generator's R1CS, each with public outputs that reshape; `latest_output` is empty before round 1 and is the last circuit's reshaped outputs after it |
| `SnarkCircuit.NextInputEmpty` | crates/snark/src/circuit.rs:116-134 | the reshaped outputs are empty exactly when the public input has no entries, so the `is_empty` switch matches the round number |
| `SnarkCircuit.RoundsChain` | crates/snark/src/circuit.rs:112-134 | chaining rule: round 0 is fed `public_input`, and round `j > 0` is fed `reshape(public_input, get_public_outputs(circuit j-1, input_len(public_input)))`; either way private input `j` is appended when present |
| `SnarkCircuit.MakeLc` | crates/snark/src/circuit.rs:193-205 | the fold gives one term per `(index, coeff)` pair, in order: index 0 is the constant one and index `k > 0` is `vars[k - 1]` |
| `SnarkCircuit.Synthesize` | crates/snark/src/circuit.rs:166-225 | the log gains the public and then the private allocations, then one enforcement per constraint, then the public-input ties; `z_out` is the first `arity` allocated variables |
| `SnarkCircuit.AllocPublic` | crates/snark/src/circuit.rs:175-185 | allocates `public_i` holding `witness[i]` for `1 <= i < num_inputs`; the outputs are the first `arity` of them |
| `SnarkCircuit.AllocAux` | crates/snark/src/circuit.rs:186-191 | allocates `aux_j` holding `witness[num_inputs + j]` for `j < num_aux` |
| `SnarkCircuit.EnforceConstraints` | crates/snark/src/circuit.rs:206-213 | one enforcement `constraint i` per R1CS constraint, in order, with every linear combination resolved by `make_lc` |
| `SnarkCircuit.EnforcePublicInputs` | crates/snark/src/circuit.rs:215-222 | for each `i` in `arity+1 .. num_inputs`, enforces `z[i-1-arity] * 1 = vars[i-1]` |
| `SnarkCircuit.AllocationLayout` | crates/snark/src/circuit.rs:175-191 | the `k`-th allocated variable holds witness slot `k + 1`; the first `num_inputs - 1` are named `public_{k+1}` and the rest `aux_{k-num_inputs+1}` |
| `SnarkCircuit.WireIndexResolves` | crates/snark/src/circuit.rs:193-205 | a linear-combination index `w > 0` resolves to the variable that holds witness slot `w`, and index 0 resolves to the constant one |
| `SnarkCircuit.PublicInputsTied` | crates/snark/src/circuit.rs:206-222 | there are `|constraints| + (num_inputs - 1 - arity)` enforcements; the tie for public input `i` links `z[i-1-arity]` to the variable holding witness slot `i` |
| `SnarkCircuit.OutputsArePublicOutputs` | crates/snark/src/circuit.rs:181-184 | `z_out` is the variables of witness slots `1 ..= arity`; when exactly half of the public wires are outputs, their values are exactly `get_public_outputs(arity)` |
| `TcpServer.FindService` | node/src/backend/service/tcp_server.rs:71-75 | returns the first service whose name equals the request ignoring ASCII case, or none when no service matches |
| `TcpServer.EqIgnoreAsciiCase` | node/src/backend/service/tcp_server.rs:74 | `eq_ignore_ascii_case`: names are equal ignoring ASCII case exactly when their ASCII lower-casings are equal |
| `TcpServer.FindServiceCaseInsensitive` | node/src/backend/service/tcp_server.rs:71-75 | two requested names with the same ASCII lower case select the same service |
| `TcpServer.TcpServer.constructor` | node/src/backend/service/tcp_server.rs:49-55 | a new server has the given services and an empty tunnel table |
| `TcpServer.TcpServer.HandleMessage` | node/src/backend/service/tcp_server.rs:60-111 | an undecodable payload gives `DecodeError`. `TcpDial` with no matching service gives `InvalidService`. A failed connect reports `TcpClose(tid, reason)` to the sender and gives `TunnelError`, or `SendMessage` if the report fails. A successful connect inserts or replaces the tunnel for `tid`. `TcpClose` removes `tid` and never fails. `TcpPackage` forwards the body to the tunnel for `tid`, or gives `TunnelNotFound`. Every error leaves the table unchanged, every success returns no events, and no entry other than `tid` ever changes |

## Left out

- The Chord ring, stabilization, `join`, `notify` and the storage layer are not part of this model. They live in `crate::dht` and `rings-core/src/storage`. The ring code is not modelled. `core/src/tests/default/test_stabilization.rs` exercises it only through async end-to-end tests, which state no sequential contract to model against.
- The nova wrappers in `crates/snark/src/snark.rs` and the example programs are not part of this model. Their meaning lies in the nova library.
- `gen_circuit` is not part of this model. It makes one calculator call on the given input and then builds a `Circuit` on the shared R1CS. That is the first half of a round of `Rounds`, without the output slice and reshape.
- The witness calculator is any function of its input and the sanity-check flag. The state of the wasm instance across calls, and what the sanity check verifies, are not modelled.
- Prime-field arithmetic is not modelled. Neither are the internals of `ConstraintSystem`, `AllocatedNum` and `LinearCombination`: terms are recorded in order and never merged or simplified.
- `Arc` sharing of the R1CS appears as value equality of the `r1cs` field. `Rc<RefCell>` borrowing and `log::trace!` are left out.
- Synthesize: it requires `Synthesizable`, which asks for a witness of at least `num_inputs + num_aux` values, wire indices within range, enough `z` entries and `num_inputs >= 1`. The model therefore does not cover the panics the source hits when these fail. `AllocatedNum::alloc` is treated as infallible because its value closure always returns `Ok`, so the `?` after it is not modelled.
- Circuit.Arity: it requires `num_inputs >= 1`. The model does not cover the `usize` underflow that `num_inputs == 0` would cause. In circom every R1CS has the constant wire.
- The TCP server's I/O is abstracted: bincode decoding, `tcp_connect_with_timeout` and its timeout, `Tunnel::listen`, `Tunnel::send` and `send_report_message`. Their results are parameters, and their effects are returned as `Action`s.
- The concurrency of `DashMap` and the async scheduling of `handle_message` are left out. The table is a plain map changed by one sequential handler.
- The kinds of `TunnelDefeat` and `MessageHandlerEvent` belong to modules that are not part of this model. They appear as opaque records.
