/** The brain and genes structs of rand-brain-evo, updated in place.

    `Brain` holds the construction fields of `struct brain_t` as the C code
    lays them out: the two stack pointers and their maxima, the MAX_WEIGHTS x
    W_PIN_NUM table `weightConn`, `inputConn`, `outputConn`, the learning rate
    and `initialWeights` (as the integer argument ix, see Construction). Its
    abstract value `Abs()` is a `Construction.Wiring`, and each method is
    proved to move it exactly as `Construction.Step` / `Construction.Build`
    say, so the properties proved there hold of the arrays. */
module Brains {
  import opened Construction

  class Brain {
    var weightStack: int
    var weightStackMax: int
    var sumsiStack: int
    var sumsiStackMax: int
    const weightConn: array2<int>
    const inputConn: array<int>
    var outputConn: int
    var learningRate: real
    const initialWeights: array<int>

    /** The table sizes of struct brain_t. */
    ghost predicate Shaped()
      reads this
    {
      && weightConn.Length0 == MAX_WEIGHTS && weightConn.Length1 == W_PIN_NUM
      && inputConn.Length == NUM_INPUTS
      && initialWeights.Length == MAX_WEIGHTS
      && inputConn != initialWeights
    }

    ghost function Row(u: int): Pins
      reads this, weightConn
      requires Shaped() && 0 <= u < MAX_WEIGHTS
    {
      Pins(weightConn[u, W_PIN_OUT], weightConn[u, W_PIN_OUT_TYPE],
           weightConn[u, W_PIN_IN], weightConn[u, W_PIN_IN_TYPE],
           weightConn[u, W_PIN_CTRL], weightConn[u, W_PIN_CTRL_TYPE])
    }

    /** The brain as a value. Unit 0 never gets an initial weight, and every
        unit from 1 to the maximum got one when it was pushed. */
    ghost function Abs(): Wiring
      reads this, weightConn, inputConn, initialWeights
      requires Shaped()
    {
      Wiring(weightStack, weightStackMax, sumsiStack, sumsiStackMax,
        seq(MAX_WEIGHTS, u requires 0 <= u < MAX_WEIGHTS && Shaped() reads this, weightConn => Row(u)),
        inputConn[..],
        outputConn,
        map k | 1 <= k <= weightStackMax && k < MAX_WEIGHTS :: initialWeights[k],
        learningRate)
    }

    ghost predicate Valid()
      reads this, weightConn, inputConn, initialWeights
    {
      Shaped() && Construction.Valid(Abs())
    }

    /** brain_alloc: the tables exist, their contents are whatever memory held. */
    constructor ()
      ensures Shaped()
      ensures fresh(weightConn) && fresh(inputConn) && fresh(initialWeights)
    {
      weightConn := new int[MAX_WEIGHTS, W_PIN_NUM];
      inputConn := new int[NUM_INPUTS];
      initialWeights := new int[MAX_WEIGHTS];
    }

    /** brain_constr_init: both stacks and maxima at 1, weight 1 at .5, every
        input and every pin unconnected, no output. */
    method ConstrInit()
      requires Shaped()
      modifies this, weightConn, inputConn, initialWeights
      ensures Shaped()
      ensures weightStack == 1 && weightStackMax == 1 && sumsiStack == 1 && sumsiStackMax == 1
      ensures outputConn == 0 && initialWeights[1] == INITIAL_WEIGHT_ONE
      ensures forall i :: 0 <= i < NUM_INPUTS ==> inputConn[i] == 0
      ensures forall u, j :: 0 <= u < MAX_WEIGHTS && 0 <= j < W_PIN_NUM ==> weightConn[u, j] == 0
      ensures learningRate == INITIAL_LEARNING_RATE
      ensures Valid() && Abs() == InitialWiring()
    {
      weightStack := 1;
      initialWeights[1] := INITIAL_WEIGHT_ONE;
      weightStackMax := 1;
      sumsiStack := 1;
      sumsiStackMax := 1;
      for i := 0 to NUM_INPUTS
        modifies inputConn
        invariant forall k :: 0 <= k < i ==> inputConn[k] == 0
      {
        inputConn[i] := 0;
      }
      outputConn := 0;
      for i := 0 to MAX_WEIGHTS
        modifies weightConn
        invariant forall u, j :: 0 <= u < i && 0 <= j < W_PIN_NUM ==> weightConn[u, j] == 0
      {
        for j := 0 to W_PIN_NUM
          modifies weightConn
          invariant forall u, k :: 0 <= u < i && 0 <= k < W_PIN_NUM ==> weightConn[u, k] == 0
          invariant forall k :: 0 <= k < j ==> weightConn[i, k] == 0
        {
          weightConn[i, j] := 0;
        }
      }
      learningRate := INITIAL_LEARNING_RATE;
      assert inputConn[..] == InitialWiring().inputConn;
      assert forall u | 0 <= u < MAX_WEIGHTS :: Row(u) == Unconnected;
      assert Abs().weightConn == InitialWiring().weightConn;
      assert Abs().initialWeights == InitialWiring().initialWeights;
    }

    /** The learning rate copied in by genes_create_brain: nothing else
        changes. */
    method SetLearningRate(rate: real)
      requires Valid()
      modifies this
      ensures Valid() && Abs() == old(Abs()).(learningRate := rate)
    {
      ghost var w := Abs();
      learningRate := rate;
      assert Abs().weightConn == w.weightConn;
    }

    /** brain_constr_process_command: the switch over the command code.
        `ok` is false where the C code calls `die`; otherwise the brain is
        the one `Step` gives. */
    method ProcessCommand(command: int, ix: int) returns (ok: bool)
      requires Valid()
      modifies this, weightConn, inputConn, initialWeights
      ensures Shaped()
      ensures ok == Step(old(Abs()), command, ix).Built?
      ensures ok ==> Valid() && Abs() == Step(old(Abs()), command, ix).w
    {
      if command == CMD_NEW_WEIGHT {
        ok := NewWeight(ix);
      } else if command == CMD_NEW_SUMSI {
        ok := NewSumsi();
      } else if command == CMD_SUMSI_TO_WEIGHT_IN || command == CMD_SUMSI_TO_WEIGHT_CTRL {
        SumsiToWeight(command, ix);
        ok := true;
      } else if command == CMD_WEIGHT_TO_SUMSI_IN {
        WeightToSumsiIn(ix);
        ok := true;
      } else if command == CMD_WEIGHT_TO_WEIGHT_CTRL {
        WeightToWeightCtrl(ix);
        ok := true;
      } else if command == CMD_POP_WEIGHT || command == CMD_POP_SUMSI {
        Pop(command);
        ok := true;
      } else if command == CMD_WEIGHT_TO_INPUT {
        ok := WeightToInput(ix);
      } else if command == CMD_SUMSI_TO_OUT {
        ghost var w := Abs();
        outputConn := sumsiStack;
        assert Abs().weightConn == w.weightConn;
        StepKeepsValid(w, command, ix);
        ok := true;
      } else {
        ok := false;  // "Unknown command"
      }
    }

    /** case CMD_NEW_WEIGHT */
    method NewWeight(ix: int) returns (ok: bool)
      requires Valid()
      modifies this, initialWeights
      ensures Shaped()
      ensures ok == Step(old(Abs()), CMD_NEW_WEIGHT, ix).Built?
      ensures ok ==> Valid() && Abs() == Step(old(Abs()), CMD_NEW_WEIGHT, ix).w
    {
      ghost var w := Abs();
      StepKeepsValid(w, CMD_NEW_WEIGHT, ix);
      if weightStack + 1 >= MAX_WEIGHTS {
        return false;  // "Too many weights", checked before the write (see Findings)
      }
      weightStack := weightStack + 1;
      initialWeights[weightStack] := ix;
      if weightStack > weightStackMax {
        weightStackMax := weightStack;
      }
      assert Abs().weightConn == w.weightConn;
      assert Abs().initialWeights == w.initialWeights[weightStack := ix];
      ok := true;
    }

    /** case CMD_NEW_SUMSI */
    method NewSumsi() returns (ok: bool)
      requires Valid()
      modifies this
      ensures Shaped()
      ensures ok == Step(old(Abs()), CMD_NEW_SUMSI, 0).Built?
      ensures ok ==> Valid() && Abs() == Step(old(Abs()), CMD_NEW_SUMSI, 0).w
    {
      ghost var w := Abs();
      StepKeepsValid(w, CMD_NEW_SUMSI, 0);
      sumsiStack := sumsiStack + 1;
      if sumsiStack >= MAX_SUMSIS {
        return false;  // "Too many sumsis"
      }
      if sumsiStack > sumsiStackMax {
        sumsiStackMax := sumsiStack;
      }
      assert Abs().weightConn == w.weightConn;
      ok := true;
    }

    /** case CMD_SUMSI_TO_WEIGHT_IN and case CMD_SUMSI_TO_WEIGHT_CTRL */
    method SumsiToWeight(command: int, ix: int)
      requires Valid()
      requires command == CMD_SUMSI_TO_WEIGHT_IN || command == CMD_SUMSI_TO_WEIGHT_CTRL
      modifies weightConn
      ensures Valid() && Abs() == Step(old(Abs()), command, ix).w
    {
      ghost var w := Abs();
      StepKeepsValid(w, command, ix);
      var p := weightStack - ix;
      if 0 <= ix && p >= 1 {
        if command == CMD_SUMSI_TO_WEIGHT_IN {
          SetIn(p, sumsiStack, TYPE_SUMSI_OUT);
        } else {
          SetCtrl(p, sumsiStack, TYPE_SUMSI_OUT);
        }
      }
    }

    /** case CMD_WEIGHT_TO_SUMSI_IN */
    method WeightToSumsiIn(ix: int)
      requires Valid()
      modifies weightConn
      ensures Valid() && Abs() == Step(old(Abs()), CMD_WEIGHT_TO_SUMSI_IN, ix).w
    {
      ghost var w := Abs();
      StepKeepsValid(w, CMD_WEIGHT_TO_SUMSI_IN, ix);
      var p := sumsiStack - ix;
      if 0 <= ix && p >= 1 {
        SetOut(weightStack, p, TYPE_SUMSI_IN);
      }
    }

    /** case CMD_WEIGHT_TO_WEIGHT_CTRL */
    method WeightToWeightCtrl(ix: int)
      requires Valid()
      modifies weightConn
      ensures Valid() && Abs() == Step(old(Abs()), CMD_WEIGHT_TO_WEIGHT_CTRL, ix).w
    {
      ghost var w := Abs();
      StepKeepsValid(w, CMD_WEIGHT_TO_WEIGHT_CTRL, ix);
      var p := weightStack - ix;
      if 0 <= ix && p >= 1 {
        SetOut(weightStack, p, TYPE_WEIGHT_CTRL);
        SetCtrl(p, weightStack, TYPE_WEIGHT_OUT);
      }
    }

    /** weight_conn[u][W_PIN_OUT_TYPE] and weight_conn[u][W_PIN_OUT] */
    method SetOut(u: int, to: int, kind: int)
      requires Shaped() && 0 <= u < MAX_WEIGHTS
      modifies weightConn
      ensures Abs() == old(Abs()).(weightConn := old(Abs()).weightConn[u := old(Row(u)).(outType := kind, outTo := to)])
    {
      ghost var before := Abs();
      weightConn[u, W_PIN_OUT_TYPE] := kind;
      weightConn[u, W_PIN_OUT] := to;
      assert forall v | 0 <= v < MAX_WEIGHTS && v != u :: Row(v) == before.weightConn[v];
      RowWritten(before, u, Row(u));
    }

    /** weight_conn[u][W_PIN_IN_TYPE] and weight_conn[u][W_PIN_IN] */
    method SetIn(u: int, from: int, kind: int)
      requires Shaped() && 0 <= u < MAX_WEIGHTS
      modifies weightConn
      ensures Abs() == old(Abs()).(weightConn := old(Abs()).weightConn[u := old(Row(u)).(inType := kind, inFrom := from)])
    {
      ghost var before := Abs();
      weightConn[u, W_PIN_IN_TYPE] := kind;
      weightConn[u, W_PIN_IN] := from;
      assert forall v | 0 <= v < MAX_WEIGHTS && v != u :: Row(v) == before.weightConn[v];
      RowWritten(before, u, Row(u));
    }

    /** weight_conn[u][W_PIN_CTRL_TYPE] and weight_conn[u][W_PIN_CTRL] */
    method SetCtrl(u: int, from: int, kind: int)
      requires Shaped() && 0 <= u < MAX_WEIGHTS
      modifies weightConn
      ensures Abs() == old(Abs()).(weightConn := old(Abs()).weightConn[u := old(Row(u)).(ctrlType := kind, ctrlFrom := from)])
    {
      ghost var before := Abs();
      weightConn[u, W_PIN_CTRL_TYPE] := kind;
      weightConn[u, W_PIN_CTRL] := from;
      assert forall v | 0 <= v < MAX_WEIGHTS && v != u :: Row(v) == before.weightConn[v];
      RowWritten(before, u, Row(u));
    }

    /** case CMD_POP_WEIGHT and case CMD_POP_SUMSI */
    method Pop(command: int)
      requires Valid()
      requires command == CMD_POP_WEIGHT || command == CMD_POP_SUMSI
      modifies this
      ensures Valid() && Abs() == Step(old(Abs()), command, 0).w
    {
      ghost var w := Abs();
      StepKeepsValid(w, command, 0);
      if command == CMD_POP_WEIGHT {
        if weightStack > 1 {
          weightStack := weightStack - 1;
        }
      } else {
        if sumsiStack > 1 {
          sumsiStack := sumsiStack - 1;
        }
      }
      assert Abs().weightConn == w.weightConn;
    }

    /** case CMD_WEIGHT_TO_INPUT */
    method WeightToInput(ix: int) returns (ok: bool)
      requires Valid()
      modifies weightConn, inputConn
      ensures Shaped()
      ensures ok == Step(old(Abs()), CMD_WEIGHT_TO_INPUT, ix).Built?
      ensures ok ==> Valid() && Abs() == Step(old(Abs()), CMD_WEIGHT_TO_INPUT, ix).w
    {
      ghost var w := Abs();
      StepKeepsValid(w, CMD_WEIGHT_TO_INPUT, ix);
      if 0 <= ix < NUM_INPUTS {
        SetIn(weightStack, ix, TYPE_GLOBAL_IN);
        ghost var mid := Abs();
        inputConn[ix] := weightStack;
        assert Abs().weightConn == mid.weightConn;
        assert Abs() == mid.(inputConn := w.inputConn[ix := weightStack]);
        ok := true;
      } else {
        ok := false;  // "Overindexed input"
      }
    }

    /** Once the pins of row t have been overwritten in place and no other
        row has changed, the table reads as `before` with row t replaced. */
    lemma {:induction false} RowWritten(before: Wiring, t: int, row: Pins)
      requires Shaped() && 0 <= t < MAX_WEIGHTS && |before.weightConn| == MAX_WEIGHTS
      requires Row(t) == row
      requires forall u :: 0 <= u < MAX_WEIGHTS && u != t ==> Row(u) == before.weightConn[u]
      ensures Abs().weightConn == before.weightConn[t := row]
    {
    }
  }

  /** struct genes_t: a learning rate and the first `length` commands with
      their arguments. */
  class Genes {
    var learningRate: real
    const commands: array<int>
    const args: array<int>
    var length: int

    ghost predicate Valid()
      reads this
    {
      && commands.Length == MAX_GENES && args.Length == MAX_GENES
      && commands != args
      && 0 <= length <= MAX_GENES
    }

    /** The gene sequence the struct holds. */
    ghost function Sequence(): seq<Gene>
      reads this, commands, args
      requires Valid()
    {
      seq(length, i requires 0 <= i < length && Valid() reads this, commands, args => Gene(commands[i], args[i]))
    }

    /** genes_alloc. The C struct starts uninitialised; here it starts empty. */
    constructor ()
      ensures Valid() && length == 0
      ensures fresh(commands) && fresh(args)
    {
      commands := new int[MAX_GENES];
      args := new int[MAX_GENES];
      length := 0;
      learningRate := 0.0;
    }

    /** genes_init: a learning rate of 1e-2 and the three genes that wire
        the bias input through one weight and one sumsi to the output. */
    method Init()
      requires Valid()
      modifies this, commands, args
      ensures Valid()
      ensures learningRate == GENES_LEARNING_RATE && Sequence() == InitialGenes()
    {
      learningRate := GENES_LEARNING_RATE;
      commands[0] := CMD_WEIGHT_TO_INPUT;
      args[0] := 8;
      commands[1] := CMD_WEIGHT_TO_SUMSI_IN;
      args[1] := 0;
      commands[2] := CMD_SUMSI_TO_OUT;
      args[2] := 0;  // dummy
      length := 3;
    }
  }

  /** genes_create_brain: a fresh brain, initialised, given the genes'
      learning rate, then every gene's command in order. `ok` is false where
      a command dies; otherwise the brain is `Build` of the genes. */
  method CreateBrain(genes: Genes) returns (brain: Brain, ok: bool)
    requires genes.Valid()
    ensures fresh(brain) && brain.Shaped()
    ensures ok == Build(genes.Sequence(), genes.learningRate).Built?
    ensures ok ==> brain.Valid() && brain.Abs() == Build(genes.Sequence(), genes.learningRate).w
  {
    brain := new Brain();
    brain.ConstrInit();
    brain.SetLearningRate(genes.learningRate);
    ghost var start := brain.Abs();
    ghost var all := genes.Sequence();
    assert start == InitialWiring().(learningRate := genes.learningRate);
    assert all[..0] == [];
    var i := 0;
    while i < genes.length
      invariant 0 <= i <= genes.length
      invariant fresh(brain) && fresh(brain.weightConn) && fresh(brain.inputConn) && fresh(brain.initialWeights)
      invariant brain.Valid()
      invariant Run(start, all[..i]) == Built(brain.Abs())
    {
      assert all[i] == Gene(genes.commands[i], genes.args[i]);
      RunPrefixStep(start, all, i, brain.Abs());
      ok := brain.ProcessCommand(genes.commands[i], genes.args[i]);
      if !ok {
        return;
      }
      i := i + 1;
    }
    assert all[..i] == all;
    ok := true;
  }
}
