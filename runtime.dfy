/**
 * What the code `output_regex` and `output_error_handler` emit does when the generated
 * parser runs: an interpreter over the same regex tree, reading a sequence of token
 * kinds. It follows the control flow of each emitted template: the `match` on the
 * current token kind with the arms in emitted order, the `loop`s of `Star` and `Plus`
 * (with `is_first`), and the resynchronisation loop of the recovery closure.
 */
module Runtime {
  import opened Wrappers
  import opened Symbols
  import opened Grammar
  import opened Compiler

  /** The kind of the current token: past the last token the lexer yields `EOF`. */
  function Current(input: seq<string>, pos: nat): string {
    if pos < |input| then input[pos] else "EOF"
  }

  /** `input.advance()`: move to the next token; at the end the stream stays at `EOF`. */
  function Advance(input: seq<string>, pos: nat): nat {
    if pos < |input| then pos + 1 else pos
  }

  /**
   * How a piece of generated code ends: it falls through with the input at `pos`; or
   * returns `Err` with the expected kinds its `err![..]` lists, or with the error of the
   * depth guard (the input then at `pos`); or the depth guard panics; or it stops on a
   * reference the generator cannot resolve; or the fuel ran out (a rule recursion or a
   * loop that did not stop).
   */
  datatype Outcome =
    | Done(pos: nat)
    | Raised(expected: seq<string>, pos: nat)
    | Overflowed(pos: nat)
    | Aborted
    | Panicked
    | Exhausted

  /** The outcomes that are an `Err` value, which a recovery closure's `or_else` receives. */
  predicate Failed(o: Outcome) {
    o.Raised? || o.Overflowed?
  }

  /**
   * The `check_limit!` macro of the grammar: its depth limit, whether the grammar has an
   * error type to report overflow through, and whether `input.finalize()` leaves the
   * stream at its end (the token stream's implementation decides).
   */
  datatype Guarding = Guarding(limit: nat, reports: bool, drains: bool)

  /** The guard of module `m`, for a token stream whose `finalize` does or does not drain it. */
  function GuardingOf(m: Module, drains: bool): (g: Guarding)
    ensures g.limit == DepthLimit(m) && g.reports == HasErrorCode(m) && g.drains == drains
  {
    Guarding(DepthLimit(m), HasErrorCode(m), drains)
  }

  /**
   * What the guard does when it fires at token `pos`: finalize the input and return the
   * error when there is an error type, and panic otherwise.
   */
  function Overflow(g: Guarding, input: seq<string>, pos: nat): Outcome {
    if g.reports then Overflowed(if g.drains then |input| else pos) else Aborted
  }

  /**
   * The guard of a dispatch arm holds: there is none, or its code is among the
   * predicate codes `holds` that evaluate to true.
   */
  predicate Guard(es: seq<Element>, holds: set<string>, op: Regex) {
    GetPredicate(es, op) == "" || GetPredicate(es, op) in holds
  }

  /** The arm `{first(op)}{guard} => ...` of a loop or option is taken. */
  predicate Enters(es: seq<Element>, holds: set<string>, op: Regex, kind: string) {
    Matches(op.ann.first, kind) && Guard(es, holds, op)
  }

  /** The pattern `{predict(op)}` and the guard of the arm emitted for `op` both hold. */
  predicate Taken(es: seq<Element>, holds: set<string>, op: Regex, kind: string) {
    Matches(op.ann.predict, kind) && Guard(es, holds, op)
  }

  /** The arm of an `Or` operand is tried and taken: error handler operands have none. */
  predicate Selects(es: seq<Element>, holds: set<string>, op: Regex, kind: string) {
    Dispatched(op) && Taken(es, holds, op, kind)
  }

  /** `consume_{kind}!(input)`: advance past a token of that kind, or fail expecting it. */
  function Consume(kind: string, input: seq<string>, pos: nat): Outcome {
    if Current(input, pos) == kind then Done(Advance(input, pos)) else Raised([kind], pos)
  }

  /**
   * The code emitted for node `r`, run from token `pos` in a routine called at `depth`.
   * A rule call enters the rule's routine at `depth + 1`, whose `check_limit!` fires
   * when that depth exceeds the limit.
   */
  function Run(es: seq<Element>, holds: set<string>, g: Guarding, r: Regex, depth: nat, input: seq<string>, pos: nat, fuel: nat): Outcome
    decreases fuel, r, 2
  {
    match r
    case Id(_, name, elem) =>
      if IsRule(es, elem) then
        if fuel == 0 then Exhausted
        else if depth + 1 > g.limit then Overflow(g, input, pos)
        else Run(es, holds, g, Get(es, elem).value.kind.regex, depth + 1, input, pos, fuel - 1)
      else if IsToken(es, elem) then Consume(name.name, input, pos)
      else Panicked
    case Str(_, elem) =>
      if IsToken(es, elem) then Consume(Get(es, elem).value.kind.name.name, input, pos) else Panicked
    case Concat(_, ops, error) =>
      var body := RunSeq(es, holds, g, r, 0, depth, input, pos, fuel);
      if error.Some? then Recover(es, holds, g, error.value, body, depth, input, fuel) else body
    case Or(ann, ops, error) =>
      var body := RunArms(es, holds, g, r, 0, depth, input, pos, fuel);
      if error.Some? then Recover(es, holds, g, error.value, body, depth, input, fuel) else body
    case Star(_, _) => StarLoop(es, holds, g, r, depth, input, pos, fuel)
    case Plus(_, _) => PlusLoop(es, holds, g, r, true, depth, input, pos, fuel)
    case Optional(ann, op) =>
      if Enters(es, holds, op, Current(input, pos)) then Run(es, holds, g, op, depth, input, pos, fuel)
      else if Matches(ann.follow, Current(input, pos)) then Done(pos)
      else Raised(Kinds(ann.predict), pos)
    case Paren(_, op) => Run(es, holds, g, op, depth, input, pos, fuel)
    case Action(_, _, elem) => if ActionCodeOf(es, elem).Some? then Done(pos) else Panicked
    case ErrorHandler(_, _, elem) => if HandlerCodeOf(es, elem).Some? then Done(pos) else Panicked
    case Predicate(_, _, _) => Done(pos)
  }

  /**
   * The operands `ops[i..]` of a `Concat`, in order, each starting where the one before
   * stopped; an error handler operand only checks that the current token is in its
   * follow set.
   */
  function RunSeq(es: seq<Element>, holds: set<string>, g: Guarding, r: Regex, i: nat, depth: nat, input: seq<string>, pos: nat, fuel: nat): Outcome
    requires r.Concat? && i <= |r.ops|
    decreases fuel, r, 1, |r.ops| - i
  {
    if i == |r.ops| then Done(pos)
    else
      var op := r.ops[i];
      var o :=
        if op.ErrorHandler? then
          (if Matches(op.ann.follow, Current(input, pos)) then Done(pos) else Raised(Kinds(op.ann.follow), pos))
        else Run(es, holds, g, op, depth, input, pos, fuel);
      if o.Done? then RunSeq(es, holds, g, r, i + 1, depth, input, o.pos, fuel) else o
  }

  /**
   * The `match` of an `Or` from its operand `i` on: the first dispatched operand whose
   * arm is taken runs; when none is, the catch-all fails with the node's predict set.
   */
  function RunArms(es: seq<Element>, holds: set<string>, g: Guarding, r: Regex, i: nat, depth: nat, input: seq<string>, pos: nat, fuel: nat): Outcome
    requires r.Or? && i <= |r.ops|
    decreases fuel, r, 1, |r.ops| - i
  {
    if i == |r.ops| then Raised(Kinds(r.ann.predict), pos)
    else if Selects(es, holds, r.ops[i], Current(input, pos)) then Run(es, holds, g, r.ops[i], depth, input, pos, fuel)
    else RunArms(es, holds, g, r, i + 1, depth, input, pos, fuel)
  }

  /** The `loop` of a `Star`: run the operand while its arm is taken, stop at the follow set. */
  function StarLoop(es: seq<Element>, holds: set<string>, g: Guarding, r: Regex, depth: nat, input: seq<string>, pos: nat, fuel: nat): Outcome
    requires r.Star?
    decreases fuel, r, 1
  {
    var kind := Current(input, pos);
    if Enters(es, holds, r.op, kind) then
      if fuel == 0 then Exhausted
      else
        var o := Run(es, holds, g, r.op, depth, input, pos, fuel);
        if o.Done? then StarLoop(es, holds, g, r, depth, input, o.pos, fuel - 1) else o
    else if Matches(r.ann.follow, kind) then Done(pos)
    else Raised(Kinds(r.ann.predict), pos)
  }

  /**
   * The `loop` of a `Plus`: like `Star`'s, except that the follow set only ends the loop
   * after the first round, and a failure in the first round expects just the first set.
   */
  function PlusLoop(es: seq<Element>, holds: set<string>, g: Guarding, r: Regex, isFirst: bool, depth: nat, input: seq<string>, pos: nat, fuel: nat): Outcome
    requires r.Plus?
    decreases fuel, r, 1
  {
    var kind := Current(input, pos);
    if Enters(es, holds, r.op, kind) then
      if fuel == 0 then Exhausted
      else
        var o := Run(es, holds, g, r.op, depth, input, pos, fuel);
        if o.Done? then PlusLoop(es, holds, g, r, false, depth, input, o.pos, fuel - 1) else o
    else if Matches(r.ann.follow, kind) && !isFirst then Done(pos)
    else if isFirst then Raised(Kinds(r.ann.first), pos)
    else Raised(Kinds(r.ann.first) + Kinds(r.ann.follow), pos)
  }

  /**
   * The recovery closure's `or_else`: a failure at `EOF` is passed on unchanged; any other
   * failure starts the resynchronisation loop at the token where it happened.
   */
  function Recover(es: seq<Element>, holds: set<string>, g: Guarding, h: Regex, body: Outcome, depth: nat, input: seq<string>, fuel: nat): Outcome
    decreases fuel, h, 4
  {
    if Failed(body) && Current(input, body.pos) != "EOF" then Resync(es, holds, g, h, body, depth, input, body.pos, fuel)
    else body
  }

  /**
   * The arms of the resynchronisation loop that leave it: the follow set of the error
   * regex, and its cancel set when that arm is emitted.
   */
  predicate Stops(h: Regex, kind: string) {
    kind in StopKinds(h)
  }

  /** The kinds the patterns of those arms match. */
  function StopKinds(h: Regex): seq<string> {
    Kinds(h.ann.follow) + (if h.ann.cancel != [] then Kinds(h.ann.cancel) else [])
  }

  /** The loop stops at exactly the kinds the follow set matches, and the cancel set when it has an arm. */
  lemma StopsExactly(h: Regex, kind: string)
    ensures Stops(h, kind) <==> Matches(h.ann.follow, kind) || (h.ann.cancel != [] && Matches(h.ann.cancel, kind))
  {
  }

  /** Where the skipping arm of the resynchronisation loop gives way, with the fuel left. */
  datatype Halt = Halt(pos: nat, fuel: nat) | Spun

  /** The `_ => input.advance()` arm, taken until a token at which the loop `Stops`. */
  function Skip(h: Regex, input: seq<string>, pos: nat, fuel: nat): (s: Halt)
    ensures s.Halt? ==> pos <= s.pos && s.fuel <= fuel && Stops(h, Current(input, s.pos))
    decreases fuel
  {
    if Stops(h, Current(input, pos)) then Halt(pos, fuel)
    else if fuel == 0 then Spun
    else Skip(h, input, Advance(input, pos), fuel - 1)
  }

  /**
   * The resynchronisation loop: skip to a token of the follow set or the cancel set of the
   * error regex; at one of the follow set (tested first), run the error regex and succeed;
   * at one of the cancel set only, pass the original failure on from there.
   */
  function Resync(es: seq<Element>, holds: set<string>, g: Guarding, h: Regex, failure: Outcome, depth: nat, input: seq<string>, pos: nat, fuel: nat): Outcome
    requires Failed(failure)
    decreases fuel, h, 3
  {
    match Skip(h, input, pos, fuel)
    case Spun => Exhausted
    case Halt(q, rest) =>
      if Matches(h.ann.follow, Current(input, q)) then
        var o := Run(es, holds, g, h, depth, input, q, rest);
        if o.Done? then Done(o.pos) else o
      else Reraised(failure, q)
  }

  /** The error `or_else` received, passed on with the input at `pos`. */
  function Reraised(failure: Outcome, pos: nat): (o: Outcome)
    requires Failed(failure)
    ensures Failed(o) && o.Raised? == failure.Raised? && o.pos == pos
    ensures o.Raised? ==> o.expected == failure.expected
  {
    if failure.Raised? then Raised(failure.expected, pos) else Overflowed(pos)
  }

  /**
   * Which of the arms emitted for the operands `ds` a Rust `match` takes at token `kind`:
   * the first whose pattern and guard hold, or `|ds|` when control reaches the catch-all.
   */
  function Dispatch(es: seq<Element>, holds: set<string>, ds: seq<Regex>, kind: string): (j: nat)
    ensures j <= |ds|
  {
    if ds == [] then 0
    else if Taken(es, holds, ds[0], kind) then 0
    else 1 + Dispatch(es, holds, ds[1..], kind)
  }

  /** The arm `Dispatch` picks is taken, and no arm before it is. */
  lemma {:induction false} DispatchIsFirst(es: seq<Element>, holds: set<string>, ds: seq<Regex>, kind: string)
    ensures var j := Dispatch(es, holds, ds, kind);
      (j < |ds| ==> Taken(es, holds, ds[j], kind)) && forall i :: 0 <= i < j ==> !Taken(es, holds, ds[i], kind)
  {
    if ds != [] && !Taken(es, holds, ds[0], kind) {
      DispatchIsFirst(es, holds, ds[1..], kind);
      var j1 := Dispatch(es, holds, ds[1..], kind);
      forall i | 0 <= i < 1 + j1 ensures !Taken(es, holds, ds[i], kind) {
        if i > 0 {
          assert ds[i] == ds[1..][i - 1];
        }
      }
      if j1 < |ds[1..]| {
        assert ds[1 + j1] == ds[1..][j1];
      }
    }
  }

  /** The first operand from `ops[i]` on whose arm is tried and taken, or `|ops|`. */
  function FirstSelected(es: seq<Element>, holds: set<string>, ops: seq<Regex>, i: nat, kind: string): (k: nat)
    requires i <= |ops|
    ensures i <= k <= |ops|
    decreases |ops| - i
  {
    if i == |ops| || Selects(es, holds, ops[i], kind) then i else FirstSelected(es, holds, ops, i + 1, kind)
  }

  lemma {:induction false} RunArmsSelected(es: seq<Element>, holds: set<string>, g: Guarding, r: Regex, i: nat, depth: nat, input: seq<string>, pos: nat, fuel: nat)
    requires r.Or? && i <= |r.ops|
    ensures var k := FirstSelected(es, holds, r.ops, i, Current(input, pos));
      RunArms(es, holds, g, r, i, depth, input, pos, fuel)
        == if k < |r.ops| then Run(es, holds, g, r.ops[k], depth, input, pos, fuel) else Raised(Kinds(r.ann.predict), pos)
    decreases |r.ops| - i
  {
    if i < |r.ops| && !Selects(es, holds, r.ops[i], Current(input, pos)) {
      RunArmsSelected(es, holds, g, r, i + 1, depth, input, pos, fuel);
    }
  }

  /**
   * The operand `FirstSelected` finds is the one of the arm `Dispatch` picks among the
   * emitted arms, and there is one exactly when there is the other.
   */
  lemma {:induction false} SelectedIsDispatched(es: seq<Element>, holds: set<string>, ops: seq<Regex>, i: nat, kind: string)
    requires i <= |ops|
    ensures var ds := ArmOperands(ops[i..]);
      var j := Dispatch(es, holds, ds, kind);
      var k := FirstSelected(es, holds, ops, i, kind);
      (j < |ds| <==> k < |ops|) && (j < |ds| ==> ds[j] == ops[k])
    decreases |ops| - i
  {
    if i == |ops| {
      assert ops[i..] == [];
    } else {
      SelectedIsDispatched(es, holds, ops, i + 1, kind);
      ArmOperandsFrom(ops, i);
      if Selects(es, holds, ops[i], kind) {
        SelectedStepTaken(es, holds, ops, i, kind);
      } else {
        SelectedStepSkipped(es, holds, ops, i, kind);
      }
    }
  }

  lemma ArmOperandsFrom(ops: seq<Regex>, i: nat)
    requires i < |ops|
    ensures ArmOperands(ops[i..]) == (if Dispatched(ops[i]) then [ops[i]] else []) + ArmOperands(ops[i + 1..])
  {
    assert ops[i..] == [ops[i]] + ops[i + 1..];
    ArmOperandsAppend([ops[i]], ops[i + 1..]);
    assert [ops[i]][..0] == [];
  }

  lemma SelectedStepTaken(es: seq<Element>, holds: set<string>, ops: seq<Regex>, i: nat, kind: string)
    requires i < |ops| && Selects(es, holds, ops[i], kind)
    ensures var ds := [ops[i]] + ArmOperands(ops[i + 1..]);
      Dispatch(es, holds, ds, kind) == 0 && FirstSelected(es, holds, ops, i, kind) == i && ds[0] == ops[i]
  {
    DispatchCons(es, holds, ops[i], ArmOperands(ops[i + 1..]), kind);
    SelectedHere(es, holds, ops, i, kind);
  }

  lemma SelectedStepSkipped(es: seq<Element>, holds: set<string>, ops: seq<Regex>, i: nat, kind: string)
    requires i < |ops| && !Selects(es, holds, ops[i], kind)
    ensures var rest := ArmOperands(ops[i + 1..]);
      var ds := (if Dispatched(ops[i]) then [ops[i]] else []) + rest;
      var j1 := Dispatch(es, holds, rest, kind);
      var j := Dispatch(es, holds, ds, kind);
      j - j1 == |ds| - |rest| && (j1 < |rest| ==> ds[j] == rest[j1])
    ensures FirstSelected(es, holds, ops, i, kind) == FirstSelected(es, holds, ops, i + 1, kind)
  {
    SelectedLater(es, holds, ops, i, kind);
    var pre := if Dispatched(ops[i]) then [ops[i]] else [];
    DispatchPast(es, holds, pre, ArmOperands(ops[i + 1..]), kind);
  }

  /** Dispatch passes over a leading arm that is not taken. */
  lemma DispatchPast(es: seq<Element>, holds: set<string>, pre: seq<Regex>, rest: seq<Regex>, kind: string)
    requires |pre| <= 1 && (pre != [] ==> !Taken(es, holds, pre[0], kind))
    ensures var j1 := Dispatch(es, holds, rest, kind);
      var j := Dispatch(es, holds, pre + rest, kind);
      j == |pre| + j1 && (j1 < |rest| ==> (pre + rest)[j] == rest[j1])
  {
    if pre == [] {
      assert pre + rest == rest;
    } else {
      assert (pre + rest)[1..] == rest;
    }
  }

  lemma SelectedHere(es: seq<Element>, holds: set<string>, ops: seq<Regex>, i: nat, kind: string)
    requires i < |ops| && Selects(es, holds, ops[i], kind)
    ensures FirstSelected(es, holds, ops, i, kind) == i
  {
  }

  lemma SelectedLater(es: seq<Element>, holds: set<string>, ops: seq<Regex>, i: nat, kind: string)
    requires i < |ops| && !Selects(es, holds, ops[i], kind)
    ensures FirstSelected(es, holds, ops, i, kind) == FirstSelected(es, holds, ops, i + 1, kind)
  {
  }

  lemma DispatchCons(es: seq<Element>, holds: set<string>, op: Regex, rest: seq<Regex>, kind: string)
    ensures var ds := [op] + rest;
      Dispatch(es, holds, ds, kind) == if Taken(es, holds, op, kind) then 0 else 1 + Dispatch(es, holds, rest, kind)
    ensures forall j :: 0 <= j < |rest| ==> ([op] + rest)[1 + j] == rest[j]
  {
    assert ([op] + rest)[1..] == rest;
  }

  /**
   * An `Or` runs the operand of the first arm, in emitted order, whose pattern and guard
   * hold (the arms being those of `ArmsWritesInOrder`); when none does, it fails with
   * its own predict set. Either way a failure then goes to the recovery closure when
   * the node has an error regex.
   */
  lemma OrTakesFirstArm(es: seq<Element>, holds: set<string>, g: Guarding, r: Regex, depth: nat, input: seq<string>, pos: nat, fuel: nat)
    requires r.Or?
    ensures var ds := ArmOperands(r.ops);
      var j := Dispatch(es, holds, ds, Current(input, pos));
      var body := if j < |ds| then Run(es, holds, g, ds[j], depth, input, pos, fuel) else Raised(Kinds(r.ann.predict), pos);
      Run(es, holds, g, r, depth, input, pos, fuel)
        == if r.error.Some? then Recover(es, holds, g, r.error.value, body, depth, input, fuel) else body
  {
    RunArmsSelected(es, holds, g, r, 0, depth, input, pos, fuel);
    SelectedIsDispatched(es, holds, r.ops, 0, Current(input, pos));
    assert r.ops[0..] == r.ops;
  }

  /**
   * The first round of a `Plus` fails with the node's first set when the operand's arm is
   * not taken, even at a token of the follow set.
   */
  lemma PlusFirstRound(es: seq<Element>, holds: set<string>, g: Guarding, r: Regex, depth: nat, input: seq<string>, pos: nat, fuel: nat)
    requires r.Plus? && !Enters(es, holds, r.op, Current(input, pos))
    ensures PlusLoop(es, holds, g, r, true, depth, input, pos, fuel) == Raised(Kinds(r.ann.first), pos)
  {
  }

  /**
   * After the first round a `Plus` ends where the `Star` over the same operand and follow
   * set ends, and it ends there exactly when the `Star` does.
   */
  lemma {:induction false} PlusLaterRounds(es: seq<Element>, holds: set<string>, g: Guarding, r: Regex, depth: nat, input: seq<string>, pos: nat, fuel: nat)
    requires r.Plus?
    ensures var p := PlusLoop(es, holds, g, r, false, depth, input, pos, fuel);
      var s := StarLoop(es, holds, g, Star(r.ann, r.op), depth, input, pos, fuel);
      p.Done? <==> s.Done?
    ensures var p := PlusLoop(es, holds, g, r, false, depth, input, pos, fuel);
      p.Done? ==> p == StarLoop(es, holds, g, Star(r.ann, r.op), depth, input, pos, fuel)
    decreases fuel
  {
    if Enters(es, holds, r.op, Current(input, pos)) && fuel > 0 {
      var o := Run(es, holds, g, r.op, depth, input, pos, fuel);
      if o.Done? {
        PlusLaterRounds(es, holds, g, r, depth, input, o.pos, fuel - 1);
      }
    }
  }

  /** A `Plus` succeeds only by running its operand once and then looping like a `Star`. */
  lemma PlusIsOneThenStar(es: seq<Element>, holds: set<string>, g: Guarding, r: Regex, depth: nat, input: seq<string>, pos: nat, fuel: nat)
    requires r.Plus? && PlusLoop(es, holds, g, r, true, depth, input, pos, fuel).Done?
    ensures Enters(es, holds, r.op, Current(input, pos)) && fuel > 0
    ensures var o := Run(es, holds, g, r.op, depth, input, pos, fuel);
      o.Done? && PlusLoop(es, holds, g, r, true, depth, input, pos, fuel) == StarLoop(es, holds, g, Star(r.ann, r.op), depth, input, o.pos, fuel - 1)
  {
    var o := Run(es, holds, g, r.op, depth, input, pos, fuel);
    PlusLaterRounds(es, holds, g, r, depth, input, o.pos, fuel - 1);
  }

  /**
   * Only a failure before the end of input starts resynchronisation: a success, a panic
   * and a failure at `EOF` pass through the recovery closure unchanged.
   */
  lemma RecoverPassesOn(es: seq<Element>, holds: set<string>, g: Guarding, h: Regex, body: Outcome, depth: nat, input: seq<string>, fuel: nat)
    requires !Failed(body) || Current(input, body.pos) == "EOF"
    ensures Recover(es, holds, g, h, body, depth, input, fuel) == body
  {
  }

  /**
   * Resynchronisation skips, one token and one unit of fuel at a time, the tokens at
   * which the loop does not stop.
   */
  lemma {:induction false} SkipPasses(h: Regex, input: seq<string>, pos: nat, q: nat, fuel: nat, rest: nat)
    requires pos <= q <= |input| && fuel == rest + (q - pos)
    requires forall k :: pos <= k < q ==> !Stops(h, input[k])
    ensures Skip(h, input, pos, fuel) == Skip(h, input, q, rest)
    decreases q - pos
  {
    if pos < q {
      SkipStep(h, input, pos, fuel);
      SkipPasses(h, input, pos + 1, q, fuel - 1, rest);
    }
  }

  lemma SkipStep(h: Regex, input: seq<string>, pos: nat, fuel: nat)
    requires pos < |input| && fuel > 0 && !Stops(h, input[pos])
    ensures Skip(h, input, pos, fuel) == Skip(h, input, pos + 1, fuel - 1)
  {
    assert Current(input, pos) == input[pos];
  }

  /**
   * The resynchronisation loop tests the follow set of the error regex before its cancel
   * set: at a token in both, the error regex runs; the cancel arm passes on the original
   * failure, not a new one.
   */
  lemma ResyncStops(es: seq<Element>, holds: set<string>, g: Guarding, h: Regex, failure: Outcome, depth: nat, input: seq<string>, pos: nat, fuel: nat)
    requires Failed(failure)
    ensures var o := Run(es, holds, g, h, depth, input, pos, fuel);
      Matches(h.ann.follow, Current(input, pos)) ==>
        Resync(es, holds, g, h, failure, depth, input, pos, fuel) == if o.Done? then Done(o.pos) else o
    ensures !Matches(h.ann.follow, Current(input, pos)) && h.ann.cancel != [] && Matches(h.ann.cancel, Current(input, pos)) ==>
      Resync(es, holds, g, h, failure, depth, input, pos, fuel) == Reraised(failure, pos)
  {
    StopsExactly(h, Current(input, pos));
    if Stops(h, Current(input, pos)) {
      assert Skip(h, input, pos, fuel) == Halt(pos, fuel);
    }
  }

  /**
   * A failure at a token other than `EOF`, then `n` tokens at which the loop does not
   * stop: recovery goes on as the loop started after those tokens, with `n` units of fuel
   * fewer (what it does there is `ResyncStops`).
   */
  lemma RecoverResumes(es: seq<Element>, holds: set<string>, g: Guarding, h: Regex, body: Outcome, depth: nat, input: seq<string>, n: nat, fuel: nat)
    requires Failed(body) && Current(input, body.pos) != "EOF"
    requires body.pos + n <= |input| && n <= fuel
    requires forall k :: body.pos <= k < body.pos + n ==> !Stops(h, input[k])
    ensures Recover(es, holds, g, h, body, depth, input, fuel) == Resync(es, holds, g, h, body, depth, input, body.pos + n, fuel - n)
  {
    RecoverResyncs(es, holds, g, h, body, depth, input, fuel);
    ResyncSkips(es, holds, g, h, body, depth, input, body.pos, n, fuel);
  }

  /** A failure before the end of input starts the resynchronisation loop where it happened. */
  lemma RecoverResyncs(es: seq<Element>, holds: set<string>, g: Guarding, h: Regex, body: Outcome, depth: nat, input: seq<string>, fuel: nat)
    requires Failed(body) && Current(input, body.pos) != "EOF"
    ensures Recover(es, holds, g, h, body, depth, input, fuel) == Resync(es, holds, g, h, body, depth, input, body.pos, fuel)
  {
  }

  /** The loop resumes, with `n` units of fuel fewer, after `n` tokens at which it does not stop. */
  lemma ResyncSkips(es: seq<Element>, holds: set<string>, g: Guarding, h: Regex, failure: Outcome, depth: nat, input: seq<string>, pos: nat, n: nat, fuel: nat)
    requires Failed(failure) && pos + n <= |input| && n <= fuel
    requires forall k :: pos <= k < pos + n ==> !Stops(h, input[k])
    ensures Resync(es, holds, g, h, failure, depth, input, pos, fuel) == Resync(es, holds, g, h, failure, depth, input, pos + n, fuel - n)
  {
    assert Skip(h, input, pos, fuel) == Skip(h, input, pos + n, fuel - n) by {
      SkipPasses(h, input, pos, pos + n, fuel, fuel - n);
    }
  }

  /**
   * Later rounds of a `Plus`: when the operand's arm is not taken, a token of the follow
   * set ends the loop, and any other token fails expecting the first and then the follow set.
   */
  lemma PlusLaterRound(es: seq<Element>, holds: set<string>, g: Guarding, r: Regex, depth: nat, input: seq<string>, pos: nat, fuel: nat)
    requires r.Plus? && !Enters(es, holds, r.op, Current(input, pos))
    ensures PlusLoop(es, holds, g, r, false, depth, input, pos, fuel)
      == if Matches(r.ann.follow, Current(input, pos)) then Done(pos)
         else Raised(Kinds(r.ann.first) + Kinds(r.ann.follow), pos)
  {
  }

  /**
   * The entry point: advance to the first token, run the start routine at depth 0, and
   * fail expecting `EOF` unless the input is then at its end.
   */
  function Parse(es: seq<Element>, holds: set<string>, g: Guarding, start: Regex, input: seq<string>, fuel: nat): (o: Outcome)
    ensures var r := Run(es, holds, g, start, 0, input, 0, fuel);
      o.Done? <==> r.Done? && Current(input, r.pos) == "EOF"
    ensures o.Done? ==> Current(input, o.pos) == "EOF" && Run(es, holds, g, start, 0, input, 0, fuel) == o
    ensures !o.Done? && Run(es, holds, g, start, 0, input, 0, fuel).Done? ==>
      o == Raised(["EOF"], Run(es, holds, g, start, 0, input, 0, fuel).pos)
    ensures !Run(es, holds, g, start, 0, input, 0, fuel).Done? ==> o == Run(es, holds, g, start, 0, input, 0, fuel)
  {
    var o := Run(es, holds, g, start, 0, input, 0, fuel);
    if o.Done? && Current(input, o.pos) != "EOF" then Raised(["EOF"], o.pos) else o
  }

  /**
   * When no token of the input is itself `EOF`, a successful parse has consumed the whole
   * input: trailing tokens after the start routine always fail.
   */
  lemma ParseConsumesInput(es: seq<Element>, holds: set<string>, g: Guarding, start: Regex, input: seq<string>, fuel: nat)
    requires forall k :: 0 <= k < |input| ==> input[k] != "EOF"
    ensures var o := Parse(es, holds, g, start, input, fuel);
      o.Done? ==> o.pos >= |input|
    ensures var r := Run(es, holds, g, start, 0, input, 0, fuel);
      r.Done? && r.pos < |input| ==> Parse(es, holds, g, start, input, fuel) == Raised(["EOF"], r.pos)
  {
  }

  /**
   * A rule call from a routine at `depth` enters the rule's routine at `depth + 1`, whose
   * guard fires exactly when that depth exceeds the limit.
   */
  lemma GuardFires(es: seq<Element>, holds: set<string>, g: Guarding, r: Regex, depth: nat, input: seq<string>, pos: nat, fuel: nat)
    requires r.Id? && IsRule(es, r.elem) && fuel > 0
    ensures Run(es, holds, g, r, depth, input, pos, fuel)
      == if depth + 1 > g.limit then Overflow(g, input, pos)
         else Run(es, holds, g, Get(es, r.elem).value.kind.regex, depth + 1, input, pos, fuel - 1)
  {
  }

  /**
   * A rule whose body calls itself straight away overflows: the calls at the depths up
   * to the limit pass the guard, and the one at `limit + 1` fires, at the token where
   * the recursion started.
   */
  lemma {:induction false} SelfCallOverflows(es: seq<Element>, holds: set<string>, g: Guarding, r: Regex, depth: nat, input: seq<string>, pos: nat, fuel: nat)
    requires r.Id? && IsRule(es, r.elem) && Get(es, r.elem).value.kind.regex == r
    requires depth <= g.limit && fuel > g.limit - depth
    ensures Run(es, holds, g, r, depth, input, pos, fuel) == Overflow(g, input, pos)
    decreases g.limit - depth
  {
    if depth + 1 <= g.limit {
      SelfCallOverflows(es, holds, g, r, depth + 1, input, pos, fuel - 1);
    }
  }

  /**
   * When `finalize` leaves the stream at its end, the depth guard's error reaches the
   * recovery closure at `EOF`, which passes it on: recovery never resumes after it.
   */
  lemma DrainedOverflowPassesOn(es: seq<Element>, holds: set<string>, g: Guarding, h: Regex, depth: nat, input: seq<string>, pos: nat, fuel: nat)
    requires g.reports && g.drains
    ensures Recover(es, holds, g, h, Overflow(g, input, pos), depth, input, fuel) == Overflow(g, input, pos)
  {
    RecoverPassesOn(es, holds, g, h, Overflow(g, input, pos), depth, input, fuel);
  }

  /**
   * Otherwise the recovery closure catches the depth guard's error like any other `Err`:
   * at a token of the follow set of the error regex the regex runs and parsing goes on.
   */
  lemma OverflowRecovered(es: seq<Element>, holds: set<string>, g: Guarding, h: Regex, depth: nat, input: seq<string>, pos: nat, fuel: nat)
    requires g.reports && !g.drains && Current(input, pos) != "EOF" && Matches(h.ann.follow, Current(input, pos))
    ensures var o := Run(es, holds, g, h, depth, input, pos, fuel);
      Recover(es, holds, g, h, Overflow(g, input, pos), depth, input, fuel) == if o.Done? then Done(o.pos) else o
  {
    RecoverResyncs(es, holds, g, h, Overflow(g, input, pos), depth, input, fuel);
    ResyncStops(es, holds, g, h, Overflow(g, input, pos), depth, input, pos, fuel);
  }
}
