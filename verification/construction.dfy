/** The gene language of rand-brain-evo and its construction interpreter, as values.

    A brain under construction is a `Wiring`: two stack pointers with their
    high-water marks, the connection table of the weight units, the inputs'
    back references, the output sumsi, the initial weights and the learning
    rate. `Step` is one command of `brain_constr_process_command`, `Run` folds
    a gene sequence through it and `Build` is `genes_create_brain`. The class
    `Brains.Brain` implements the same behaviour in place and is proved equal
    to these functions.

    Three guards of the C code are corrected here (see README, Findings):
    CMD_NEW_WEIGHT checks the stack bound before it writes the initial weight,
    and a negative `ix` is refused by the connection commands (no write) and by
    CMD_WEIGHT_TO_INPUT (which dies). The as-written guards are kept beside the
    corrected ones, with the inputs that tell them apart. */
module Construction {
  import opened Options

  // Commands of the gene sequence
  const CMD_NEW_WEIGHT: int := 901
  const CMD_NEW_SUMSI: int := 902
  const CMD_SUMSI_TO_WEIGHT_IN: int := 903
  const CMD_SUMSI_TO_WEIGHT_CTRL: int := 904
  const CMD_WEIGHT_TO_SUMSI_IN: int := 905
  const CMD_WEIGHT_TO_WEIGHT_CTRL: int := 906
  const CMD_POP_WEIGHT: int := 907
  const CMD_POP_SUMSI: int := 908
  const CMD_WEIGHT_TO_INPUT: int := 909
  const CMD_SUMSI_TO_OUT: int := 910
  const CMD_CALL_THREAD: int := 911  // declared, never handled: it dies as an unknown command

  const NUM_INPUTS: int := 9
  const MAX_WEIGHTS: int := 10000
  const MAX_SUMSIS: int := 100
  const MAX_GENES: int := 10000

  // Pins of a weight unit: columns of a row of weight_conn
  const W_PIN_NUM: int := 6
  const W_PIN_OUT: int := 0
  const W_PIN_OUT_TYPE: int := 1
  const W_PIN_IN: int := 2
  const W_PIN_IN_TYPE: int := 3
  const W_PIN_CTRL: int := 4
  const W_PIN_CTRL_TYPE: int := 5

  // What a pin is connected to
  const TYPE_WEIGHT_CTRL: int := 801
  const TYPE_WEIGHT_OUT: int := 802
  const TYPE_SUMSI_IN: int := 803
  const TYPE_SUMSI_OUT: int := 804
  const TYPE_GLOBAL_IN: int := 805

  /** Initial weights are kept as the integer argument of CMD_NEW_WEIGHT,
      which the C code divides by 100; the .5 given to weight 1 is 50. */
  const INITIAL_WEIGHT_ONE: int := 50
  const INITIAL_LEARNING_RATE: real := 0.00001
  const GENES_LEARNING_RATE: real := 0.01

  /** One row of weight_conn, pin by pin. 0 in a pin means unconnected. */
  datatype Pins = Pins(outTo: int, outType: int, inFrom: int, inType: int, ctrlFrom: int, ctrlType: int)

  const Unconnected: Pins := Pins(0, 0, 0, 0, 0, 0)

  datatype Wiring = Wiring(
    weightStack: int,
    weightStackMax: int,
    sumsiStack: int,
    sumsiStackMax: int,
    weightConn: seq<Pins>,            // MAX_WEIGHTS rows
    inputConn: seq<int>,              // NUM_INPUTS entries
    outputConn: int,
    initialWeights: map<int, int>,    // weight unit -> ix of the command that created it
    learningRate: real)

  /** The reasons `die` is called with during construction. */
  datatype Death = TooManyWeights | TooManySumsis | OverindexedInput | UnknownCommand

  datatype Constr = Built(w: Wiring) | Died(reason: Death)

  datatype Gene = Gene(command: int, arg: int)

  /** Every pin of a row names something that exists: a constructed weight or
      sumsi unit (1 up to its high-water mark) or a real global input. */
  ghost predicate PinsWired(p: Pins, weightMax: int, sumsiMax: int) {
    && ((p.outType == 0 && p.outTo == 0)
        || (p.outType == TYPE_SUMSI_IN && 1 <= p.outTo <= sumsiMax)
        || (p.outType == TYPE_WEIGHT_CTRL && 1 <= p.outTo <= weightMax))
    && ((p.inType == 0 && p.inFrom == 0)
        || (p.inType == TYPE_SUMSI_OUT && 1 <= p.inFrom <= sumsiMax)
        || (p.inType == TYPE_GLOBAL_IN && 0 <= p.inFrom < NUM_INPUTS))
    && ((p.ctrlType == 0 && p.ctrlFrom == 0)
        || (p.ctrlType == TYPE_SUMSI_OUT && 1 <= p.ctrlFrom <= sumsiMax)
        || (p.ctrlType == TYPE_WEIGHT_OUT && 1 <= p.ctrlFrom <= weightMax))
  }

  /** The invariant of a brain under construction: the stacks start at 1 and
      stay below their table sizes, the maxima bound them, unit 0 and every
      unit above the weight maximum are unconnected, and every connection
      names a unit that exists. This is what makes every index taken by
      brain_play_step and brain_get_output lie inside its table. */
  ghost predicate Valid(w: Wiring) {
    && 1 <= w.weightStack <= w.weightStackMax < MAX_WEIGHTS
    && 1 <= w.sumsiStack <= w.sumsiStackMax < MAX_SUMSIS
    && |w.weightConn| == MAX_WEIGHTS
    && |w.inputConn| == NUM_INPUTS
    && 0 <= w.outputConn <= w.sumsiStackMax
    && (forall i :: 0 <= i < NUM_INPUTS ==> 0 <= w.inputConn[i] <= w.weightStackMax)
    && (forall k :: k in w.initialWeights <==> 1 <= k <= w.weightStackMax)
    && w.weightConn[0] == Unconnected
    && (forall u :: 0 <= u < MAX_WEIGHTS ==>
          (w.weightStackMax < u ==> w.weightConn[u] == Unconnected)
          && PinsWired(w.weightConn[u], w.weightStackMax, w.sumsiStackMax))
  }

  /** The state brain_constr_init leaves behind. */
  function InitialWiring(): (w: Wiring)
    ensures Valid(w)
  {
    Wiring(1, 1, 1, 1,
      seq(MAX_WEIGHTS, _ => Unconnected),
      seq(NUM_INPUTS, _ => 0),
      0,
      map[1 := INITIAL_WEIGHT_ONE],
      INITIAL_LEARNING_RATE)
  }

  /** The unit `ix` places below the top of a stack, when a connection
      command may write to it: `ix` counts back from the top, so it must not
      be negative, and unit 0 is not a unit. */
  function ConnectTarget(stack: int, ix: int): (r: Option<int>)
    ensures r.Some? <==> 0 <= ix < stack
    ensures r.Some? ==> 1 <= r.value <= stack && r.value + ix == stack
  {
    if 0 <= ix && stack - ix >= 1 then Some(stack - ix) else None
  }

  /** The global inputs CMD_WEIGHT_TO_INPUT may connect. */
  predicate InputIndex(ix: int) {
    0 <= ix < NUM_INPUTS
  }

  function Larger(a: int, b: int): int {
    if a < b then b else a
  }

  /** One command of brain_constr_process_command (corrected guards). */
  function Step(w: Wiring, command: int, ix: int): (r: Constr)
    requires Valid(w)
    ensures r.Died? <==>
      || (command == CMD_NEW_WEIGHT && w.weightStack + 1 >= MAX_WEIGHTS)
      || (command == CMD_NEW_SUMSI && w.sumsiStack + 1 >= MAX_SUMSIS)
      || (command == CMD_WEIGHT_TO_INPUT && !InputIndex(ix))
      || !(CMD_NEW_WEIGHT <= command <= CMD_SUMSI_TO_OUT)
    ensures r.Built? ==>
      && w.weightStackMax <= r.w.weightStackMax && w.sumsiStackMax <= r.w.sumsiStackMax
      && r.w.learningRate == w.learningRate
  {
    if command == CMD_NEW_WEIGHT then
      var s := w.weightStack + 1;
      if s >= MAX_WEIGHTS then Died(TooManyWeights)
      else Built(w.(weightStack := s, weightStackMax := Larger(w.weightStackMax, s),
                    initialWeights := w.initialWeights[s := ix]))
    else if command == CMD_NEW_SUMSI then
      var s := w.sumsiStack + 1;
      if s >= MAX_SUMSIS then Died(TooManySumsis)
      else Built(w.(sumsiStack := s, sumsiStackMax := Larger(w.sumsiStackMax, s)))
    else if command == CMD_SUMSI_TO_WEIGHT_IN then
      match ConnectTarget(w.weightStack, ix)
      case None => Built(w)
      case Some(p) =>
        Built(w.(weightConn := w.weightConn[p := w.weightConn[p].(inType := TYPE_SUMSI_OUT, inFrom := w.sumsiStack)]))
    else if command == CMD_SUMSI_TO_WEIGHT_CTRL then
      match ConnectTarget(w.weightStack, ix)
      case None => Built(w)
      case Some(p) =>
        Built(w.(weightConn := w.weightConn[p := w.weightConn[p].(ctrlType := TYPE_SUMSI_OUT, ctrlFrom := w.sumsiStack)]))
    else if command == CMD_WEIGHT_TO_SUMSI_IN then
      match ConnectTarget(w.sumsiStack, ix)
      case None => Built(w)
      case Some(p) =>
        var t := w.weightStack;
        Built(w.(weightConn := w.weightConn[t := w.weightConn[t].(outType := TYPE_SUMSI_IN, outTo := p)]))
    else if command == CMD_WEIGHT_TO_WEIGHT_CTRL then
      match ConnectTarget(w.weightStack, ix)
      case None => Built(w)
      case Some(p) =>
        var t := w.weightStack;
        var c1 := w.weightConn[t := w.weightConn[t].(outType := TYPE_WEIGHT_CTRL, outTo := p)];
        Built(w.(weightConn := c1[p := c1[p].(ctrlType := TYPE_WEIGHT_OUT, ctrlFrom := t)]))
    else if command == CMD_POP_WEIGHT then
      Built(if w.weightStack > 1 then w.(weightStack := w.weightStack - 1) else w)
    else if command == CMD_POP_SUMSI then
      Built(if w.sumsiStack > 1 then w.(sumsiStack := w.sumsiStack - 1) else w)
    else if command == CMD_WEIGHT_TO_INPUT then
      if InputIndex(ix) then
        var t := w.weightStack;
        Built(w.(weightConn := w.weightConn[t := w.weightConn[t].(inType := TYPE_GLOBAL_IN, inFrom := ix)],
                 inputConn := w.inputConn[ix := t]))
      else Died(OverindexedInput)
    else if command == CMD_SUMSI_TO_OUT then
      Built(w.(outputConn := w.sumsiStack))
    else
      Died(UnknownCommand)
  }

  /** The commands of a gene sequence applied in order; the first `die` ends it. */
  function Run(w: Wiring, genes: seq<Gene>): (r: Constr)
    requires Valid(w)
    ensures r.Built? ==> Valid(r.w)
    ensures r.Built? ==> w.weightStackMax <= r.w.weightStackMax && w.sumsiStackMax <= r.w.sumsiStackMax
    ensures r.Built? ==> r.w.learningRate == w.learningRate
    decreases |genes|
  {
    if genes == [] then Built(w)
    else
      StepKeepsValid(w, genes[0].command, genes[0].arg);
      match Step(w, genes[0].command, genes[0].arg)
      case Died(why) => Died(why)
      case Built(w1) => Run(w1, genes[1..])
  }

  /** genes_create_brain: init, copy the learning rate, run the genes. */
  function Build(genes: seq<Gene>, learningRate: real): (r: Constr)
    ensures r.Built? ==> Valid(r.w) && r.w.learningRate == learningRate
  {
    Run(InitialWiring().(learningRate := learningRate), genes)
  }

  /** The three genes of genes_init. */
  function InitialGenes(): (g: seq<Gene>)
    ensures |g| == 3 && g[0].command == CMD_WEIGHT_TO_INPUT && g[2].command == CMD_SUMSI_TO_OUT
  {
    [Gene(CMD_WEIGHT_TO_INPUT, 8), Gene(CMD_WEIGHT_TO_SUMSI_IN, 0), Gene(CMD_SUMSI_TO_OUT, 0)]
  }

  /** The sumsi brain_get_output reads, if any: always a constructed sumsi,
      so the read stays inside sumsi_state. */
  function OutputSource(w: Wiring): (r: Option<int>)
    requires Valid(w)
    ensures r.None? <==> w.outputConn == 0
    ensures r.Some? ==> r.value == w.outputConn
    ensures r.Some? ==> 1 <= r.value <= w.sumsiStackMax < MAX_SUMSIS
  {
    if w.outputConn == 0 then None else Some(w.outputConn)
  }

  // ---- Properties of single commands ----

  /** Writing a row whose pins name existing units into a constructed
      weight's slot keeps the invariant. */
  lemma {:induction false} RowWriteKeepsValid(w: Wiring, t: int, row: Pins)
    requires Valid(w)
    requires 1 <= t <= w.weightStackMax
    requires PinsWired(row, w.weightStackMax, w.sumsiStackMax)
    ensures Valid(w.(weightConn := w.weightConn[t := row]))
  {
    var w2 := w.(weightConn := w.weightConn[t := row]);
    forall u | 0 <= u < MAX_WEIGHTS
      ensures (w2.weightStackMax < u ==> w2.weightConn[u] == Unconnected)
        && PinsWired(w2.weightConn[u], w2.weightStackMax, w2.sumsiStackMax)
    {
      if u != t {
        assert w2.weightConn[u] == w.weightConn[u];
      }
    }
  }

  /** Raising the maxima keeps every pin pointing at an existing unit. */
  lemma {:induction false} GrowthKeepsValid(w: Wiring, w2: Wiring)
    requires Valid(w)
    requires w2.weightConn == w.weightConn && w2.inputConn == w.inputConn && w2.outputConn == w.outputConn
    requires 1 <= w2.weightStack <= w2.weightStackMax < MAX_WEIGHTS
    requires 1 <= w2.sumsiStack <= w2.sumsiStackMax < MAX_SUMSIS
    requires w.weightStackMax <= w2.weightStackMax && w.sumsiStackMax <= w2.sumsiStackMax
    requires w2.weightStackMax <= w.weightStackMax + 1
    requires forall k :: k in w2.initialWeights <==> 1 <= k <= w2.weightStackMax
    ensures Valid(w2)
  {
    forall u | 0 <= u < MAX_WEIGHTS
      ensures (w2.weightStackMax < u ==> w2.weightConn[u] == Unconnected)
        && PinsWired(w2.weightConn[u], w2.weightStackMax, w2.sumsiStackMax)
    {
      assert PinsWired(w.weightConn[u], w.weightStackMax, w.sumsiStackMax);
    }
  }

  /** Every command that does not die keeps the invariant, only raises the
      maxima and keeps the learning rate. */
  lemma {:induction false} StepKeepsValid(w: Wiring, command: int, ix: int)
    requires Valid(w)
    ensures var r := Step(w, command, ix);
      r.Built? ==>
        && Valid(r.w)
        && w.weightStackMax <= r.w.weightStackMax && w.sumsiStackMax <= r.w.sumsiStackMax
        && r.w.learningRate == w.learningRate
  {
    if command == CMD_NEW_WEIGHT || command == CMD_NEW_SUMSI {
      PushKeepsValid(w, command, ix);
    } else if command == CMD_SUMSI_TO_WEIGHT_IN || command == CMD_SUMSI_TO_WEIGHT_CTRL {
      SumsiLinkKeepsValid(w, command, ix);
    } else if command == CMD_WEIGHT_TO_SUMSI_IN || command == CMD_WEIGHT_TO_WEIGHT_CTRL {
      WeightLinkKeepsValid(w, command, ix);
    } else if command == CMD_WEIGHT_TO_INPUT {
      InputLinkKeepsValid(w, ix);
    }
  }

  lemma {:induction false} PushKeepsValid(w: Wiring, command: int, ix: int)
    requires Valid(w)
    requires command == CMD_NEW_WEIGHT || command == CMD_NEW_SUMSI
    ensures var r := Step(w, command, ix);
      r.Built? ==>
        && Valid(r.w)
        && w.weightStackMax <= r.w.weightStackMax && w.sumsiStackMax <= r.w.sumsiStackMax
        && r.w.learningRate == w.learningRate
  {
    var r := Step(w, command, ix);
    if r.Built? {
      GrowthKeepsValid(w, r.w);
    }
  }

  lemma {:induction false} SumsiLinkKeepsValid(w: Wiring, command: int, ix: int)
    requires Valid(w)
    requires command == CMD_SUMSI_TO_WEIGHT_IN || command == CMD_SUMSI_TO_WEIGHT_CTRL
    ensures var r := Step(w, command, ix);
      r.Built? && Valid(r.w) && r.w.(weightConn := w.weightConn) == w
  {
    match ConnectTarget(w.weightStack, ix)
    case None =>
    case Some(p) =>
      assert PinsWired(w.weightConn[p], w.weightStackMax, w.sumsiStackMax);
      var row := if command == CMD_SUMSI_TO_WEIGHT_IN
        then w.weightConn[p].(inType := TYPE_SUMSI_OUT, inFrom := w.sumsiStack)
        else w.weightConn[p].(ctrlType := TYPE_SUMSI_OUT, ctrlFrom := w.sumsiStack);
      assert Step(w, command, ix) == Built(w.(weightConn := w.weightConn[p := row]));
      RowWriteKeepsValid(w, p, row);
  }

  lemma {:induction false} WeightLinkKeepsValid(w: Wiring, command: int, ix: int)
    requires Valid(w)
    requires command == CMD_WEIGHT_TO_SUMSI_IN || command == CMD_WEIGHT_TO_WEIGHT_CTRL
    ensures var r := Step(w, command, ix);
      r.Built? && Valid(r.w) && r.w.(weightConn := w.weightConn) == w
  {
    var t := w.weightStack;
    assert PinsWired(w.weightConn[t], w.weightStackMax, w.sumsiStackMax);
    if command == CMD_WEIGHT_TO_SUMSI_IN {
      match ConnectTarget(w.sumsiStack, ix)
      case None =>
      case Some(p) =>
        RowWriteKeepsValid(w, t, w.weightConn[t].(outType := TYPE_SUMSI_IN, outTo := p));
    } else {
      match ConnectTarget(w.weightStack, ix)
      case None =>
      case Some(p) =>
        var row1 := w.weightConn[t].(outType := TYPE_WEIGHT_CTRL, outTo := p);
        RowWriteKeepsValid(w, t, row1);
        var w1 := w.(weightConn := w.weightConn[t := row1]);
        assert PinsWired(w1.weightConn[p], w1.weightStackMax, w1.sumsiStackMax);
        RowWriteKeepsValid(w1, p, w1.weightConn[p].(ctrlType := TYPE_WEIGHT_OUT, ctrlFrom := t));
    }
  }

  lemma {:induction false} InputLinkKeepsValid(w: Wiring, ix: int)
    requires Valid(w)
    ensures var r := Step(w, CMD_WEIGHT_TO_INPUT, ix);
      r.Built? ==> Valid(r.w) && r.w.(weightConn := w.weightConn, inputConn := w.inputConn) == w
  {
    var t := w.weightStack;
    if InputIndex(ix) {
      assert PinsWired(w.weightConn[t], w.weightStackMax, w.sumsiStackMax);
      var row := w.weightConn[t].(inType := TYPE_GLOBAL_IN, inFrom := ix);
      RowWriteKeepsValid(w, t, row);
      var w1 := w.(weightConn := w.weightConn[t := row]);
      assert Step(w, CMD_WEIGHT_TO_INPUT, ix) == Built(w1.(inputConn := w.inputConn[ix := t]));
    }
  }

  /** CMD_NEW_WEIGHT pushes exactly one weight, raises the maximum to cover
      it, records its initial weight and dies once the stack would reach
      MAX_WEIGHTS; nothing else changes. */
  lemma {:induction false} NewWeightPushes(w: Wiring, ix: int)
    requires Valid(w)
    ensures var r := Step(w, CMD_NEW_WEIGHT, ix);
      && (r.Died? <==> w.weightStack + 1 == MAX_WEIGHTS)
      && (r.Died? ==> r.reason == TooManyWeights)
      && (r.Built? ==>
            && r.w.weightStack == w.weightStack + 1
            && r.w.weightStackMax == Larger(w.weightStackMax, w.weightStack + 1)
            && r.w.initialWeights[r.w.weightStack] == ix
            && (forall k :: k in w.initialWeights && k != r.w.weightStack ==> r.w.initialWeights[k] == w.initialWeights[k])
            && r.w.(weightStack := w.weightStack, weightStackMax := w.weightStackMax,
                    initialWeights := w.initialWeights) == w)
  {
  }

  /** CMD_NEW_SUMSI pushes exactly one sumsi and dies once the stack would
      reach MAX_SUMSIS; nothing else changes. */
  lemma {:induction false} NewSumsiPushes(w: Wiring, ix: int)
    requires Valid(w)
    ensures var r := Step(w, CMD_NEW_SUMSI, ix);
      && (r.Died? <==> w.sumsiStack + 1 == MAX_SUMSIS)
      && (r.Died? ==> r.reason == TooManySumsis)
      && (r.Built? ==>
            && r.w.sumsiStack == w.sumsiStack + 1
            && r.w.sumsiStackMax == Larger(w.sumsiStackMax, w.sumsiStack + 1)
            && r.w.(sumsiStack := w.sumsiStack, sumsiStackMax := w.sumsiStackMax) == w)
  {
  }

  /** The POP commands lower their stack only when it is above 1, never die
      and never change the maxima. */
  lemma {:induction false} PopsStopAtOne(w: Wiring, ix: int)
    requires Valid(w)
    ensures var r := Step(w, CMD_POP_WEIGHT, ix);
      r.Built? && r.w.weightStack == (if w.weightStack > 1 then w.weightStack - 1 else 1)
      && r.w.(weightStack := w.weightStack) == w
    ensures var r := Step(w, CMD_POP_SUMSI, ix);
      r.Built? && r.w.sumsiStack == (if w.sumsiStack > 1 then w.sumsiStack - 1 else 1)
      && r.w.(sumsiStack := w.sumsiStack) == w
  {
  }

  /** CMD_SUMSI_TO_WEIGHT_IN and CMD_SUMSI_TO_WEIGHT_CTRL write only when
      p = weight_stack - ix names a weight, and then change only the two
      named pins of row p, pointing them at the top sumsi. */
  lemma {:induction false} SumsiToWeightTouchesOnlyRowP(w: Wiring, ix: int)
    requires Valid(w)
    ensures var r := Step(w, CMD_SUMSI_TO_WEIGHT_IN, ix);
      var p := w.weightStack - ix;
      && r.Built?
      && (!(0 <= ix < w.weightStack) ==> r.w == w)
      && (0 <= ix < w.weightStack ==>
            && r.w.weightConn[p].inFrom == w.sumsiStack
            && r.w.weightConn[p].inType == TYPE_SUMSI_OUT
            && r.w.weightConn[p].(inFrom := w.weightConn[p].inFrom, inType := w.weightConn[p].inType) == w.weightConn[p]
            && (forall u :: 0 <= u < MAX_WEIGHTS && u != p ==> r.w.weightConn[u] == w.weightConn[u])
            && r.w.(weightConn := w.weightConn) == w)
    ensures var r := Step(w, CMD_SUMSI_TO_WEIGHT_CTRL, ix);
      var p := w.weightStack - ix;
      && r.Built?
      && (!(0 <= ix < w.weightStack) ==> r.w == w)
      && (0 <= ix < w.weightStack ==>
            && r.w.weightConn[p].ctrlFrom == w.sumsiStack
            && r.w.weightConn[p].ctrlType == TYPE_SUMSI_OUT
            && r.w.weightConn[p].(ctrlFrom := w.weightConn[p].ctrlFrom, ctrlType := w.weightConn[p].ctrlType) == w.weightConn[p]
            && (forall u :: 0 <= u < MAX_WEIGHTS && u != p ==> r.w.weightConn[u] == w.weightConn[u])
            && r.w.(weightConn := w.weightConn) == w)
  {
  }

  /** CMD_WEIGHT_TO_SUMSI_IN writes only when p = sumsi_stack - ix names a
      sumsi, and then changes only the output pins of the top weight. */
  lemma {:induction false} WeightToSumsiTouchesOnlyTop(w: Wiring, ix: int)
    requires Valid(w)
    ensures var r := Step(w, CMD_WEIGHT_TO_SUMSI_IN, ix);
      var t := w.weightStack;
      && r.Built?
      && (!(0 <= ix < w.sumsiStack) ==> r.w == w)
      && (0 <= ix < w.sumsiStack ==>
            && r.w.weightConn[t].outTo == w.sumsiStack - ix
            && r.w.weightConn[t].outType == TYPE_SUMSI_IN
            && r.w.weightConn[t].(outTo := w.weightConn[t].outTo, outType := w.weightConn[t].outType) == w.weightConn[t]
            && (forall u :: 0 <= u < MAX_WEIGHTS && u != t ==> r.w.weightConn[u] == w.weightConn[u])
            && r.w.(weightConn := w.weightConn) == w)
  {
  }

  /** CMD_WEIGHT_TO_WEIGHT_CTRL links both directions: the top weight's
      output goes to the control of weight p, and weight p's control comes
      from the top weight. Only those two rows change. */
  lemma {:induction false} WeightToWeightCtrlLinksBothWays(w: Wiring, ix: int)
    requires Valid(w)
    ensures var r := Step(w, CMD_WEIGHT_TO_WEIGHT_CTRL, ix);
      var t := w.weightStack;
      var p := w.weightStack - ix;
      && r.Built?
      && (!(0 <= ix < w.weightStack) ==> r.w == w)
      && (0 <= ix < w.weightStack ==>
            && r.w.weightConn[t].outTo == p && r.w.weightConn[t].outType == TYPE_WEIGHT_CTRL
            && r.w.weightConn[p].ctrlFrom == t && r.w.weightConn[p].ctrlType == TYPE_WEIGHT_OUT
            && (p != t ==>
                  && r.w.weightConn[t].(outTo := w.weightConn[t].outTo, outType := w.weightConn[t].outType) == w.weightConn[t]
                  && r.w.weightConn[p].(ctrlFrom := w.weightConn[p].ctrlFrom, ctrlType := w.weightConn[p].ctrlType) == w.weightConn[p])
            && (p == t ==>
                  r.w.weightConn[t].(outTo := w.weightConn[t].outTo, outType := w.weightConn[t].outType,
                                     ctrlFrom := w.weightConn[t].ctrlFrom, ctrlType := w.weightConn[t].ctrlType) == w.weightConn[t])
            && (forall u :: 0 <= u < MAX_WEIGHTS && u != p && u != t ==> r.w.weightConn[u] == w.weightConn[u])
            && r.w.(weightConn := w.weightConn) == w)
  {
  }

  /** CMD_WEIGHT_TO_INPUT connects global input ix to the top weight in both
      tables and dies on an index outside the inputs; CMD_SUMSI_TO_OUT routes
      the output from the top sumsi; every other command code dies. */
  lemma {:induction false} InputOutputAndUnknown(w: Wiring, command: int, ix: int)
    requires Valid(w)
    ensures var r := Step(w, CMD_WEIGHT_TO_INPUT, ix);
      var t := w.weightStack;
      && (r.Died? <==> !(0 <= ix < NUM_INPUTS))
      && (r.Died? ==> r.reason == OverindexedInput)
      && (r.Built? ==>
            && r.w.weightConn[t].inFrom == ix && r.w.weightConn[t].inType == TYPE_GLOBAL_IN
            && r.w.weightConn[t].(inFrom := w.weightConn[t].inFrom, inType := w.weightConn[t].inType) == w.weightConn[t]
            && r.w.inputConn[ix] == t
            && (forall u :: 0 <= u < MAX_WEIGHTS && u != t ==> r.w.weightConn[u] == w.weightConn[u])
            && (forall i :: 0 <= i < NUM_INPUTS && i != ix ==> r.w.inputConn[i] == w.inputConn[i])
            && r.w.(weightConn := w.weightConn, inputConn := w.inputConn) == w)
    ensures Step(w, CMD_SUMSI_TO_OUT, ix) == Built(w.(outputConn := w.sumsiStack))
    ensures command < CMD_NEW_WEIGHT || CMD_SUMSI_TO_OUT < command ==>
      Step(w, command, ix) == Died(UnknownCommand)
  {
  }

  // ---- Properties of gene sequences ----

  /** Running two gene sequences one after the other is running their
      concatenation: the fold goes through the genes in order and a death
      ends it. */
  lemma {:induction false} RunAppend(w: Wiring, a: seq<Gene>, b: seq<Gene>)
    requires Valid(w)
    ensures Run(w, a + b) == match Run(w, a)
      case Died(why) => Died(why)
      case Built(w1) => Run(w1, b)
    decreases |a|
  {
    if a == [] {
      assert a + b == b;
    } else {
      assert (a + b)[0] == a[0];
      assert (a + b)[1..] == a[1..] + b;
      StepKeepsValid(w, a[0].command, a[0].arg);
      match Step(w, a[0].command, a[0].arg)
      case Died(why) =>
        assert Run(w, a + b) == Died(why);
        assert Run(w, a) == Died(why);
      case Built(w1) =>
        assert Run(w, a + b) == Run(w1, a[1..] + b);
        assert Run(w, a) == Run(w1, a[1..]);
        RunAppend(w1, a[1..], b);
    }
  }

  /** The last gene of a sequence runs after all the others. */
  lemma {:induction false} RunSnoc(w: Wiring, a: seq<Gene>, g: Gene)
    requires Valid(w)
    ensures Run(w, a + [g]) == match Run(w, a)
      case Died(why) => Died(why)
      case Built(w1) => Step(w1, g.command, g.arg)
  {
    RunAppend(w, a, [g]);
    match Run(w, a)
    case Died(_) =>
    case Built(w1) =>
      assert [g][1..] == [];
  }

  /** One gene past a prefix that was built: if the gene's command does not
      die the prefix one longer is built by it, and if it dies the whole
      sequence dies. */
  lemma {:induction false} RunPrefixStep(w: Wiring, genes: seq<Gene>, i: int, v: Wiring)
    requires Valid(w) && 0 <= i < |genes| && Run(w, genes[..i]) == Built(v)
    ensures Valid(v)
    ensures var r := Step(v, genes[i].command, genes[i].arg);
      (r.Built? ==> Run(w, genes[..i + 1]) == r) && (r.Died? ==> Run(w, genes).Died?)
  {
    assert genes[..i + 1] == genes[..i] + [genes[i]];
    RunSnoc(w, genes[..i], genes[i]);
    assert genes == genes[..i + 1] + genes[i + 1..];
    RunAppend(w, genes[..i + 1], genes[i + 1..]);
  }

  /** Whatever genes run, the stack bounds hold, the maxima only grow and
      the learning rate is kept. */
  lemma {:induction false} StacksStayInBounds(genes: seq<Gene>, rate: real)
    ensures var r := Build(genes, rate);
      r.Built? ==>
        && 1 <= r.w.weightStack <= r.w.weightStackMax < MAX_WEIGHTS
        && 1 <= r.w.sumsiStack <= r.w.sumsiStackMax < MAX_SUMSIS
        && 0 <= r.w.outputConn <= r.w.sumsiStackMax
        && r.w.learningRate == rate
  {
  }

  /** genes_init's three genes connect input 8 (the bias) to weight 1, weight 1
      to sumsi 1, and sumsi 1 to the output. */
  lemma {:induction false} InitialGenesBrain()
    ensures var r := Build(InitialGenes(), GENES_LEARNING_RATE);
      && r.Built?
      && r.w.inputConn[8] == 1
      && r.w.weightConn[1].inFrom == 8 && r.w.weightConn[1].inType == TYPE_GLOBAL_IN
      && r.w.weightConn[1].outTo == 1 && r.w.weightConn[1].outType == TYPE_SUMSI_IN
      && r.w.outputConn == 1
      && r.w.weightStack == 1 && r.w.sumsiStack == 1
      && r.w.learningRate == GENES_LEARNING_RATE
  {
    var w0 := InitialWiring().(learningRate := GENES_LEARNING_RATE);
    var g := InitialGenes();
    var w1 := Step(w0, g[0].command, g[0].arg).w;
    var w2 := Step(w1, g[1].command, g[1].arg).w;
    assert g[1..][1..][1..] == [];
    assert Run(w0, g) == Run(w1, g[1..]);
    assert Run(w1, g[1..]) == Run(w2, g[1..][1..]);
  }

  // ---- Findings: the guards as written in the C code ----

  /** The index the initial_weights write of CMD_NEW_WEIGHT uses in
      rand-brain-evo.c: the incremented stack, written before the weight-stack
      check against MAX_WEIGHTS. It is the slot the corrected command records
      into, and it lies outside the table exactly on the push that the
      weight-stack check kills. */
  function NewWeightSlotAsWritten(w: Wiring, ix: int): (slot: int)
    requires Valid(w)
    ensures !(0 <= slot < MAX_WEIGHTS) <==> Step(w, CMD_NEW_WEIGHT, ix).Died?
    ensures Step(w, CMD_NEW_WEIGHT, ix).Built? ==> Step(w, CMD_NEW_WEIGHT, ix).w.weightStack == slot
  {
    w.weightStack + 1
  }

  /** A brain whose weight stack has been pushed to MAX_WEIGHTS - 1 by
      CMD_NEW_WEIGHT genes. */
  function StackedBrain(n: int): (w: Wiring)
    requires 0 <= n < MAX_WEIGHTS - 1
  {
    InitialWiring().(weightStack := 1 + n, weightStackMax := 1 + n,
      initialWeights := map k | 1 <= k <= 1 + n :: StackedWeight(k))
  }

  /** Weight 1 keeps its initial .5; every pushed weight was given ix = 0. */
  function StackedWeight(k: int): int {
    if k == 1 then INITIAL_WEIGHT_ONE else 0
  }

  function NewWeights(n: nat): (g: seq<Gene>)
    ensures |g| == n && forall i :: 0 <= i < n ==> g[i] == Gene(CMD_NEW_WEIGHT, 0)
  {
    seq(n, _ => Gene(CMD_NEW_WEIGHT, 0))
  }

  lemma {:induction false} PushingWeights(n: nat)
    requires n < MAX_WEIGHTS - 1
    ensures Valid(StackedBrain(n))
    ensures Run(InitialWiring(), NewWeights(n)) == Built(StackedBrain(n))
  {
    if n == 0 {
      assert StackedBrain(0).initialWeights == InitialWiring().initialWeights;
    } else {
      PushingWeights(n - 1);
      assert NewWeights(n) == NewWeights(n - 1) + [Gene(CMD_NEW_WEIGHT, 0)];
      RunSnoc(InitialWiring(), NewWeights(n - 1), Gene(CMD_NEW_WEIGHT, 0));
      var prev := StackedBrain(n - 1);
      assert prev.initialWeights[n + 1 := 0] == StackedBrain(n).initialWeights;
    }
  }

  /** 9998 CMD_NEW_WEIGHT genes (fewer than MAX_GENES) bring the weight stack
      to MAX_WEIGHTS - 1; one more makes the initial_weights write of
      rand-brain-evo.c use index MAX_WEIGHTS, one past its end, before the
      weight-stack check dies. */
  lemma {:induction false} NewWeightOverrunsTable()
    ensures var n := MAX_WEIGHTS - 2;
      var r := Run(InitialWiring(), NewWeights(n));
      && n < MAX_GENES
      && r.Built?
      && NewWeightSlotAsWritten(r.w, 0) == MAX_WEIGHTS
      && Step(r.w, CMD_NEW_WEIGHT, 0) == Died(TooManyWeights)
  {
    PushingWeights(MAX_WEIGHTS - 2);
  }

  /** The corrected CMD_NEW_WEIGHT never records a weight outside the table:
      after any gene sequence every recorded weight has an index below
      MAX_WEIGHTS. */
  lemma {:induction false} NewWeightStaysInBounds(genes: seq<Gene>, rate: real)
    ensures var r := Build(genes, rate);
      r.Built? ==> forall k :: k in r.w.initialWeights ==> 1 <= k < MAX_WEIGHTS
  {
  }

  /** The unit the connection commands write to as the C code computes it:
      any p = stack - ix >= 1, with no check that ix is non-negative. */
  function ConnectTargetAsWritten(stack: int, ix: int): (r: Option<int>)
    ensures r.Some? <==> ix < stack
  {
    if stack - ix >= 1 then Some(stack - ix) else None
  }

  /** On a freshly initialised brain, ix = -MAX_WEIGHTS passes the as-written
      guard and names row MAX_WEIGHTS + 1 of weight_conn, past its end; the
      corrected guard refuses it. Both agree whenever ix >= 0. */
  lemma {:induction false} NegativeIxEscapesStack(stack: int, ix: int)
    ensures var w := InitialWiring();
      && ConnectTargetAsWritten(w.weightStack, -MAX_WEIGHTS) == Some(MAX_WEIGHTS + 1)
      && ConnectTarget(w.weightStack, -MAX_WEIGHTS) == None
    ensures 0 <= ix ==> ConnectTargetAsWritten(stack, ix) == ConnectTarget(stack, ix)
  {
  }

  /** The guard of CMD_WEIGHT_TO_INPUT in rand-brain-evo.c as written: only the upper bound is checked, so
      it accepts every global input and, besides them, exactly the negative
      indexes. */
  predicate InputGuardAsWritten(ix: int): (ok: bool)
    ensures InputIndex(ix) ==> ok
    ensures ok && !InputIndex(ix) <==> ix < 0
  {
    ix < NUM_INPUTS
  }

  /** ix = -1 passes the written guard of CMD_WEIGHT_TO_INPUT, and the
      input_conn write that follows it in rand-brain-evo.c then targets
      input_conn[-1]; the corrected guard refuses exactly the negative
      indexes the written one lets through. */
  lemma {:induction false} NegativeInputPassesGuard(ix: int)
    ensures InputGuardAsWritten(-1) && !InputIndex(-1)
    ensures InputGuardAsWritten(ix) && !InputIndex(ix) <==> ix < 0
  {
  }
}
