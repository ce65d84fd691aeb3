/** The linked frames of a Thread's stack, as a last-in first-out list of continuations, under
    the pushes of CALL and LAMBDA, the suspension of CHANGE and the pops of RETURN and CHANGE. */
module FrameChain {
  import opened Bits
  import opened Change
  import opened ChangeProofs
  import opened Fields
  import opened Memory
  import opened Stores
  import opened Thread

  /** What one frame lets the machine continue with; `two` tells CALL's two-word frames. */
  datatype Kont = Kont(two: bool, pc: nat, flags: nat, egt: Word)

  /** Where the top frame sits: two words above the offset, or one, by the size bit. */
  function Top(sto: nat, sz: bool): nat {
    sto + if sz then 2 else 1
  }

  /** The word at offset `p` is the frame `k`: it names its own offset. */
  ghost predicate FrameAt(m: seq<Word>, at: nat, p: nat, sz: bool, k: Kont)
    requires 1 <= p && at + p < |m|
  {
    var w := m[at + p];
    Sto(w) == p && Pc(w) == k.pc && Flags(w) == k.flags && k.two == sz && (sz ==> m[at + p - 1] == k.egt)
  }

  /** From offset `sto` up, frames follow one another at strictly rising offsets to the poison
      root in the last stack word. */
  ghost predicate Chain(m: seq<Word>, at: nat, caps: nat, sto: nat, sz: bool, ks: seq<Kont>)
    decreases |ks|
  {
    var p := Top(sto, sz);
    && ks != [] && p < caps <= 0x1000 && at + caps <= |m| && FrameAt(m, at, p, sz, ks[0])
    && if |ks| == 1 then p == caps - 1 && sz && Sz(m[at + p]) && ks[0].pc == POISON_PC
       else p < caps - 1 && Chain(m, at, caps, p, Sz(m[at + p]), ks[1..])
  }

  /** The stack of a Thread body at word `at` holds exactly `ks`. */
  ghost predicate Holds(m: seq<Word>, at: nat, h: Word, ks: seq<Kont>) {
    && |m| == ADDRESS_SPACE && ThreadHeader(h) && BodyWords(h) <= 4096 && at + BodyWords(h) <= |m|
    && m[at] == h
    && var w := m[at + STO_OFFSET];
       Pc(w) == 0 && StackLo(h) <= Sto(w) && Chain(m, at, Caps(h), Sto(w), Sz(w), ks)
  }

  /** A chain depends on nothing at or below its offset, nor beyond the stack. */
  lemma {:induction false} ChainFrame(m: seq<Word>, n: seq<Word>, at: nat, caps: nat, sto: nat, sz: bool, ks: seq<Kont>)
    requires Chain(m, at, caps, sto, sz, ks) && |m| == |n|
    requires forall j :: at + sto < j < at + caps ==> n[j] == m[j]
    ensures Chain(n, at, caps, sto, sz, ks)
    decreases |ks|
  {
    var p := Top(sto, sz);
    assert n[at + p] == m[at + p];
    if |ks| > 1 {
      ChainFrame(m, n, at, caps, p, Sz(m[at + p]), ks[1..]);
    }
  }

  // ---- pushes and pops

  datatype Op =
    | Call(pc: nat, flags: nat, egt: Word)
    | Lambda(pc: nat, flags: nat)
    | Suspended(regs: seq<Cap>, drs: seq<Word>, flags: nat, nia: Word)
    | Return
    | Resumed
  {
    predicate Ok() {
      match this
      case Call(pc, flags, egt) => pc < 0x8000 && flags < 16
      case Lambda(pc, flags) => pc < 0x8000 && flags < 16
      case Suspended(regs, drs, flags, nia) => |regs| == 16 && |drs| == 16 && flags < 16
      case _ => true
    }
  }

  /** CALL: the E token and the frame below the offset, and word 17. */
  function PushCall(m: seq<Word>, at: nat, sto: nat, sz: bool, pc: nat, flags: nat, egt: Word): (n: seq<Word>)
    requires STO_OFFSET < sto - 1 && sto < 0x1000 && at + sto < |m| && pc < 0x8000 && flags < 16
    ensures |n| == |m|
  {
    m[at + sto - 1 := egt][at + sto := Frame(sto, sz, pc, flags)][at + STO_OFFSET := Frame(sto - 2, true, 0, flags)]
  }

  /** LAMBDA: one frame word, and word 17. */
  function PushLambda(m: seq<Word>, at: nat, sto: nat, sz: bool, pc: nat, flags: nat): (n: seq<Word>)
    requires STO_OFFSET < sto - 1 && sto < 0x1000 && at + sto < |m| && pc < 0x8000 && flags < 16
    ensures |n| == |m|
  {
    m[at + sto := Frame(sto, sz, pc, flags)][at + STO_OFFSET := Frame(sto - 1, false, 0, flags)]
  }

  /** RETURN and CHANGE: word 17 takes what the frame records. */
  function PopFrame(m: seq<Word>, at: nat, f: Word): (n: seq<Word>)
    requires at + STO_OFFSET < |m|
    ensures |n| == |m|
  {
    m[at + STO_OFFSET := Frame(Sto(f), Sz(f), 0, Flags(f))]
  }

  /** Whether the stack checks of the unit admit the operation. */
  predicate Admits(m: seq<Word>, at: nat, h: Word, op: Op)
    requires |m| == ADDRESS_SPACE && ThreadHeader(h) && at + BodyWords(h) <= |m|
  {
    var w := m[at + STO_OFFSET];
    var sto := Sto(w);
    match op
    case Call(_, _, _) => StackLo(h) + 2 <= sto <= Caps(h) - 1
    case Lambda(_, _) => HdrN(h) <= 6 && Pc(w) == 0 && StackLo(h) + 1 < sto <= Caps(h) - 1
    case Suspended(_, _, _, _) => Pc(w) == 0 && StackLo(h) + 2 <= sto <= Caps(h) - 1
    case Return =>
      && Pc(w) == 0 && StackLo(h) + (if Sz(w) then 2 else 1) <= sto && Top(sto, Sz(w)) <= Caps(h) - 1
      && ReturnFrame(m[at + Top(sto, Sz(w))], Top(sto, Sz(w)))
    case Resumed =>
      && Pc(w) == 0 && StackLo(h) <= sto && Sz(w) && sto + 2 <= Caps(h) - 1
      && ReturnFrame(m[at + sto + 2], sto + 2)
  }

  /** A frame that names its own offset and does not carry the poison return address. */
  predicate ReturnFrame(f: Word, p: nat) {
    Sto(f) == p && Pc(f) != POISON_PC
  }

  /** Memory after the operation; a refused one changes nothing. */
  function Exec(m: seq<Word>, at: nat, h: Word, op: Op): (n: seq<Word>)
    requires |m| == ADDRESS_SPACE && ThreadHeader(h) && at + BodyWords(h) <= |m| && op.Ok()
    ensures |n| == |m|
  {
    if !Admits(m, at, h, op) then m
    else
      Geometry(h);
      var w := m[at + STO_OFFSET];
      match op
      case Call(pc, flags, egt) => PushCall(m, at, Sto(w), Sz(w), pc, flags, egt)
      case Lambda(pc, flags) => PushLambda(m, at, Sto(w), Sz(w), pc, flags)
      case Suspended(_, _, _, _) => Saved(Context(m, op), Suspend(at * 4, h, w))
      case _ => PopFrame(m, at, m[at + Top(Sto(w), Sz(w))])
  }

  function Context(m: seq<Word>, op: Op): (c: Core)
    requires |m| == ADDRESS_SPACE && op.Suspended? && op.Ok()
    ensures c.Ok()
  {
    Core(m, op.regs, op.drs, op.flags, op.nia, true)
  }

  // ---- the abstract machine: a list of continuations in a stack of `cw` words

  /** The continuation an operation pushes. */
  function Pushed(op: Op): Kont
    requires op.Ok() && !op.Return? && !op.Resumed?
  {
    match op
    case Call(pc, flags, egt) => Kont(true, pc, flags, egt)
    case Lambda(pc, flags) => Kont(false, pc, flags, 0)
    case Suspended(regs, drs, flags, nia) => Kont(true, NextPc(nia, regs[14]), flags, EGt(regs[6].gt))
  }

  function Width(k: Kont): nat {
    if k.two then 2 else 1
  }

  function Depth(ks: seq<Kont>): nat
    decreases |ks|
  {
    if ks == [] then 0 else Width(ks[0]) + Depth(ks[1..])
  }

  /** Stack words below the offset; the last stack word is where the root frame ends. */
  function Spare(cw: nat, ks: seq<Kont>): int {
    cw - 1 - Depth(ks)
  }

  /** Pushes ask for two words, whatever they push.  A RETURN asks for the words of its frame
      once more below the offset. */
  predicate Allows(cw: nat, ks: seq<Kont>, op: Op)
    requires ks != []
  {
    match op
    case Return => Spare(cw, ks) >= Width(ks[0]) && ks[0].pc != POISON_PC
    case Resumed => ks[0].two && ks[0].pc != POISON_PC
    case _ => Spare(cw, ks) >= 2
  }

  function Abstract(cw: nat, ks: seq<Kont>, op: Op): (r: seq<Kont>)
    requires ks != [] && op.Ok()
  {
    if !Allows(cw, ks, op) then ks
    else if op.Return? || op.Resumed? then ks[1..]
    else [Pushed(op)] + ks
  }

  /** The offset counts the words of the list down from the last stack word. */
  lemma {:induction false} ChainDepth(m: seq<Word>, at: nat, caps: nat, sto: nat, sz: bool, ks: seq<Kont>)
    requires Chain(m, at, caps, sto, sz, ks)
    ensures sto == caps - 1 - Depth(ks) && sz == ks[0].two && (|ks| == 1 ==> ks[0].pc == POISON_PC)
    decreases |ks|
  {
    if |ks| > 1 {
      var p := Top(sto, sz);
      ChainDepth(m, at, caps, p, Sz(m[at + p]), ks[1..]);
    }
  }

  /** What the units admit is decided by the list and the size of the stack alone. */
  lemma AdmitsIsAbstract(m: seq<Word>, at: nat, h: Word, ks: seq<Kont>, op: Op)
    requires Holds(m, at, h, ks) && op.Ok()
    ensures Admits(m, at, h, op) <==> Allows(HdrCw(h), ks, op)
    ensures Sto(m[at + STO_OFFSET]) - StackLo(h) == Spare(HdrCw(h), ks)
  {
    hide Sz, Pc, HdrCw, LumpWords;
    var w := m[at + STO_OFFSET];
    Geometry(h);
    SmallBody(h);
    ChainDepth(m, at, Caps(h), Sto(w), Sz(w), ks);
  }

  lemma SmallBody(h: Word)
    requires ThreadHeader(h) && BodyWords(h) <= 4096
    ensures HdrN(h) <= 6
  {
  }

  // ---- each operation keeps the refinement

  /** A frame written at the old offset, with nothing above it disturbed, becomes the new top. */
  lemma PushedChain(m: seq<Word>, n: seq<Word>, at: nat, caps: nat, sto: nat, sz: bool, ks: seq<Kont>, k: Kont)
    requires Chain(m, at, caps, sto, sz, ks) && |n| == |m| && 2 <= sto
    requires forall j :: at + sto < j < at + caps ==> n[j] == m[j]
    requires FrameAt(n, at, sto, k.two, k) && Sz(n[at + sto]) == sz
    ensures Chain(n, at, caps, sto - (if k.two then 2 else 1), k.two, [k] + ks)
  {
    ChainFrame(m, n, at, caps, sto, sz, ks);
    assert ([k] + ks)[1..] == ks;
  }

  lemma CallKeeps(m: seq<Word>, at: nat, h: Word, ks: seq<Kont>, op: Op)
    requires Holds(m, at, h, ks) && op.Call? && op.Ok() && Admits(m, at, h, op)
    ensures Holds(Exec(m, at, h, op), at, h, [Pushed(op)] + ks)
  {
    Geometry(h);
    var w, n := m[at + STO_OFFSET], Exec(m, at, h, op);
    CallWords(m, at, Sto(w), Sz(w), op.pc, op.flags, op.egt);
    PushedChain(m, n, at, Caps(h), Sto(w), Sz(w), ks, Pushed(op));
  }

  lemma CallWords(m: seq<Word>, at: nat, sto: nat, sz: bool, pc: nat, flags: nat, egt: Word)
    requires STO_OFFSET < sto - 1 && sto < 0x1000 && at + sto < |m| && pc < 0x8000 && flags < 16
    ensures var n := PushCall(m, at, sto, sz, pc, flags, egt);
      && FrameAt(n, at, sto, true, Kont(true, pc, flags, egt)) && Sz(n[at + sto]) == sz
      && Sto(n[at + STO_OFFSET]) == sto - 2 && Sz(n[at + STO_OFFSET]) && Pc(n[at + STO_OFFSET]) == 0
      && forall j :: 0 <= j < |m| && j != at + sto - 1 && j != at + sto && j != at + STO_OFFSET ==> n[j] == m[j]
  {
    var f, g := Frame(sto, sz, pc, flags), Frame(sto - 2, true, 0, flags);
    FrameFields(sto, sz, pc, flags);
    FrameFields(sto - 2, true, 0, flags);
    ThreeStores(m, at + sto - 1, at + sto, at + STO_OFFSET, egt, f, g);
  }

  lemma ThreeStores(m: seq<Word>, h: nat, i: nat, j: nat, e: Word, f: Word, g: Word)
    requires h < |m| && i < |m| && j < |m| && h != i && i != j && h != j
    ensures var n := m[h := e][i := f][j := g]; n[h] == e && n[i] == f && n[j] == g
  {
  }

  lemma LambdaKeeps(m: seq<Word>, at: nat, h: Word, ks: seq<Kont>, op: Op)
    requires Holds(m, at, h, ks) && op.Lambda? && op.Ok() && Admits(m, at, h, op)
    ensures Holds(Exec(m, at, h, op), at, h, [Pushed(op)] + ks)
  {
    Geometry(h);
    var w, n := m[at + STO_OFFSET], Exec(m, at, h, op);
    LambdaWords(m, at, Sto(w), Sz(w), op.pc, op.flags);
    PushedChain(m, n, at, Caps(h), Sto(w), Sz(w), ks, Pushed(op));
  }

  lemma LambdaWords(m: seq<Word>, at: nat, sto: nat, sz: bool, pc: nat, flags: nat)
    requires STO_OFFSET < sto - 1 && sto < 0x1000 && at + sto < |m| && pc < 0x8000 && flags < 16
    ensures var n := PushLambda(m, at, sto, sz, pc, flags);
      && FrameAt(n, at, sto, false, Kont(false, pc, flags, 0)) && Sz(n[at + sto]) == sz
      && Sto(n[at + STO_OFFSET]) == sto - 1 && !Sz(n[at + STO_OFFSET]) && Pc(n[at + STO_OFFSET]) == 0
      && forall j :: 0 <= j < |m| && j != at + sto && j != at + STO_OFFSET ==> n[j] == m[j]
  {
    var f, g := Frame(sto, sz, pc, flags), Frame(sto - 1, false, 0, flags);
    FrameFields(sto, sz, pc, flags);
    FrameFields(sto - 1, false, 0, flags);
    TwoStores(m, at + sto, at + STO_OFFSET, f, g);
  }

  lemma TwoStores(m: seq<Word>, i: nat, j: nat, f: Word, g: Word)
    requires i < |m| && j < |m| && i != j
    ensures var n := m[i := f][j := g]; n[i] == f && n[j] == g
  {
  }

  lemma SuspendKeeps(m: seq<Word>, at: nat, h: Word, ks: seq<Kont>, op: Op)
    requires Holds(m, at, h, ks) && op.Suspended? && op.Ok() && Admits(m, at, h, op)
    ensures Holds(Exec(m, at, h, op), at, h, [Pushed(op)] + ks)
  {
    Geometry(h);
    var w, n := m[at + STO_OFFSET], Exec(m, at, h, op);
    SuspendWords(Context(m, op), Suspend(at * 4, h, w));
    PushedChain(m, n, at, Caps(h), Sto(w), Sz(w), ks, Pushed(op));
  }

  lemma SuspendWords(c: Core, out: Outgoing)
    requires c.Ok() && OutgoingFits(out) && out.Suspend?
    ensures var n, at, sto := Saved(c, out), out.base / 4, Sto(out.indicator);
      && at + sto < ADDRESS_SPACE && 1 <= sto
      && FrameAt(n, at, sto, true, Kont(true, SuspendPc(c), c.flags, EGt(c.regs[6].gt)))
      && Sz(n[at + sto]) == Sz(out.indicator) && n[at] == c.m[at]
      && Sto(n[at + STO_OFFSET]) == sto - 2 && Sz(n[at + STO_OFFSET]) && Pc(n[at + STO_OFFSET]) == 0
      && forall j :: at + sto < j < at + Caps(out.header) ==> n[j] == c.m[j]
  {
    var at, sto := out.base / 4, Sto(out.indicator);
    Geometry(out.header);
    SavedWord(c, out, 12);
    SavedWord(c, out, 13);
    SavedWord(c, out, 14);
    FrameFields(sto, Sz(out.indicator), SuspendPc(c), c.flags);
    FrameFields(sto - 2, true, 0, c.flags);
    SaveTouchesNothingElse(c, out, at);
    forall j | at + sto < j < at + Caps(out.header)
      ensures Saved(c, out)[j] == c.m[j]
    {
      SaveTouchesNothingElse(c, out, j);
    }
  }

  /** A pop reads the top continuation, and is refused on the root. */
  lemma PopKeeps(m: seq<Word>, at: nat, h: Word, ks: seq<Kont>, op: Op)
    requires Holds(m, at, h, ks) && (op.Return? || op.Resumed?) && Admits(m, at, h, op)
    ensures |ks| > 1 && Holds(Exec(m, at, h, op), at, h, ks[1..])
    ensures var w := m[at + STO_OFFSET]; FrameAt(m, at, Top(Sto(w), Sz(w)), Sz(w), ks[0])
  {
    Geometry(h);
    var w, n := m[at + STO_OFFSET], Exec(m, at, h, op);
    var f := m[at + Top(Sto(w), Sz(w))];
    FrameFields(Sto(f), Sz(f), 0, Flags(f));
    ChainFrame(m, n, at, Caps(h), Top(Sto(w), Sz(w)), Sz(f), ks[1..]);
  }

  lemma HoldsSome(m: seq<Word>, at: nat, h: Word, ks: seq<Kont>)
    requires Holds(m, at, h, ks)
    ensures ks != []
  {
  }

  lemma StepKeeps(m: seq<Word>, at: nat, h: Word, ks: seq<Kont>, op: Op)
    requires Holds(m, at, h, ks) && op.Ok()
    ensures ks != [] && Holds(Exec(m, at, h, op), at, h, Abstract(HdrCw(h), ks, op))
  {
    HoldsSome(m, at, h, ks);
    hide Chain, Admits, Allows, StackLo, Sto, Pc, Sz, HdrCw;
    AdmitsIsAbstract(m, at, h, ks, op);
    if Admits(m, at, h, op) {
      match op
      case Call(_, _, _) => CallKeeps(m, at, h, ks, op);
      case Lambda(_, _) => LambdaKeeps(m, at, h, ks, op);
      case Suspended(_, _, _, _) => SuspendKeeps(m, at, h, ks, op);
      case Return => PopKeeps(m, at, h, ks, op);
      case Resumed => PopKeeps(m, at, h, ks, op);
    }
  }

  // ---- whole runs

  function ExecAll(m: seq<Word>, at: nat, h: Word, ops: seq<Op>): (n: seq<Word>)
    requires |m| == ADDRESS_SPACE && ThreadHeader(h) && at + BodyWords(h) <= |m|
    requires forall op :: op in ops ==> op.Ok()
    ensures |n| == |m|
    decreases |ops|
  {
    if ops == [] then m else ExecAll(Exec(m, at, h, ops[0]), at, h, ops[1..])
  }

  function AbstractAll(cw: nat, ks: seq<Kont>, ops: seq<Op>): seq<Kont>
    requires ks != [] && forall op :: op in ops ==> op.Ok()
    decreases |ops|
  {
    if ops == [] then ks
    else
      var next := Abstract(cw, ks, ops[0]);
      if next == [] then [] else AbstractAll(cw, next, ops[1..])
  }

  /** Over any run of pushes and pops the memory stack is the list that the abstract machine
      reaches on its own, from the list and the size of the stack. */
  lemma {:induction false} StackIsLifo(m: seq<Word>, at: nat, h: Word, ks: seq<Kont>, ops: seq<Op>)
    requires Holds(m, at, h, ks) && forall op :: op in ops ==> op.Ok()
    ensures ks != [] && Holds(ExecAll(m, at, h, ops), at, h, AbstractAll(HdrCw(h), ks, ops))
    decreases |ops|
  {
    hide Admits, Exec, Allows, HdrCw, StackLo, Sto, Pc, Sz, ThreadHeader, BodyWords;
    if ops != [] {
      assert ops[0] in ops;
      StepKeeps(m, at, h, ks, ops[0]);
      StackIsLifo(Exec(m, at, h, ops[0]), at, h, Abstract(HdrCw(h), ks, ops[0]), ops[1..]);
    }
  }

  // ---- does a pop undo a push

  /** Right after an admitted push with a real return address, a LAMBDA's frame can be returned
      from and a suspension resumed.  A CALL's frame can be returned from exactly when the
      stack had four words left before it, though CALL asked for two.  Whichever pop is
      admitted gives back the stack from before the push. */
  lemma PopAfterPush(m: seq<Word>, at: nat, h: Word, ks: seq<Kont>, op: Op)
    requires Holds(m, at, h, ks) && op.Ok() && !op.Return? && !op.Resumed?
    requires Admits(m, at, h, op) && Pushed(op).pc != POISON_PC
    ensures var n := Exec(m, at, h, op);
      && (op.Lambda? ==> Admits(n, at, h, Return))
      && (op.Suspended? ==> Admits(n, at, h, Resumed))
      && (op.Call? ==> (Admits(n, at, h, Return) <==> Sto(m[at + STO_OFFSET]) >= StackLo(h) + 4))
    ensures var n := Exec(m, at, h, op); forall pop: Op :: (pop.Return? || pop.Resumed?) && Admits(n, at, h, pop) ==>
      Holds(Exec(n, at, h, pop), at, h, ks)
  {
    hide Admits, Exec, HdrCw, StackLo, Sto, Holds;
    HoldsBody(m, at, h, ks);
    AdmitsIsAbstract(m, at, h, ks, op);
    StepKeeps(m, at, h, ks, op);
    assert ([Pushed(op)] + ks)[1..] == ks;
    var n := Exec(m, at, h, op);
    AdmitsIsAbstract(n, at, h, [Pushed(op)] + ks, Return);
    AdmitsIsAbstract(n, at, h, [Pushed(op)] + ks, Resumed);
    StepKeeps(n, at, h, [Pushed(op)] + ks, Return);
    StepKeeps(n, at, h, [Pushed(op)] + ks, Resumed);
  }

  lemma HoldsBody(m: seq<Word>, at: nat, h: Word, ks: seq<Kont>)
    requires Holds(m, at, h, ks)
    ensures |m| == ADDRESS_SPACE && ThreadHeader(h) && at + BodyWords(h) <= |m| && ks != []
  {
  }

  /** A root body of 256 words with five stack words. */
  const SHORT_STACK: Word := 0xF900_160C

  function ShortStack(): (m: seq<Word>)
    ensures |m| == ADDRESS_SPACE
  {
    seq(ADDRESS_SPACE, j => ShortWord(j))
  }

  function ShortWord(j: int): Word {
    if j == 0 then SHORT_STACK else if j == 17 then RootIndicator(244) else if j == 243 then RootFrame(244) else 0
  }

  /** There CALL is admitted, and the RETURN from its frame is not. */
  lemma CallWithoutReturn(pc: nat, flags: nat, egt: Word)
    requires pc < POISON_PC && flags < 16
    ensures ThreadHeader(SHORT_STACK) && BodyWords(SHORT_STACK) == 256
    ensures var m, op := ShortStack(), Op.Call(pc, flags, egt);
      Admits(m, 0, SHORT_STACK, op) && !Admits(Exec(m, 0, SHORT_STACK, op), 0, SHORT_STACK, Return)
  {
    hide RootIndicator, RootFrame, Exec, Sto, Pc, Sz, Flags;
    var m, h, op := ShortStack(), SHORT_STACK, Op.Call(pc, flags, egt);
    ShortFields();
    RootWords(244);
    var ks := [Kont(true, POISON_PC, 0, m[242])];
    RootHolds(m, 0, h);
    PopAfterPush(m, 0, h, ks, op);
  }

  lemma ShortFields()
    ensures ThreadHeader(SHORT_STACK) && BodyWords(SHORT_STACK) == 256 && HdrCw(SHORT_STACK) == 5
    ensures Caps(SHORT_STACK) == 244 && StackLo(SHORT_STACK) == 239
  {
  }

  /** A root body is the list of one poison frame. */
  lemma RootHolds(m: seq<Word>, at: nat, h: Word)
    requires |m| == ADDRESS_SPACE && ThreadHeader(h) && BodyWords(h) <= 4096 && at + BodyWords(h) <= |m|
    requires HdrCw(h) >= 3 && m[at] == h
    requires m[at + STO_OFFSET] == RootIndicator(Caps(h)) && m[at + Caps(h) - 1] == RootFrame(Caps(h))
    ensures Holds(m, at, h, [Kont(true, POISON_PC, 0, m[at + Caps(h) - 2])])
  {
    Geometry(h);
    RootWords(Caps(h));
    assert Top(Sto(m[at + STO_OFFSET]), true) == Caps(h) - 1;
  }

  lemma RootWords(caps: nat)
    requires 3 <= caps <= 0x1000
    ensures Sto(RootIndicator(caps)) == caps - 3 && Sz(RootIndicator(caps)) && Pc(RootIndicator(caps)) == 0
    ensures Sto(RootFrame(caps)) == caps - 1 && Sz(RootFrame(caps)) && Pc(RootFrame(caps)) == POISON_PC
    ensures Flags(RootFrame(caps)) == 0
  {
    RootIndicatorFields(caps - 3, RootIndicator(caps));
    RootFrameFields(caps - 1, RootFrame(caps));
  }

  lemma RootIndicatorFields(sto: nat, w: Word)
    requires sto < 0x1000 && w == Frame(sto % 0x1000, true, 0, 0)
    ensures Sto(w) == sto && Sz(w) && Pc(w) == 0
  {
    FrameFields(sto, true, 0, 0);
  }

  lemma RootFrameFields(sto: nat, w: Word)
    requires sto < 0x1000 && w == Frame(sto % 0x1000, true, POISON_PC, 0)
    ensures Sto(w) == sto && Sz(w) && Pc(w) == POISON_PC && Flags(w) == 0
  {
    FrameFields(sto, true, POISON_PC, 0);
  }

  /** CALL and LAMBDA write only word 17 and the stack: never the header, the data homes, the
      heap or the capability homes. */
  lemma PushFootprint(m: seq<Word>, at: nat, h: Word, op: Op, j: nat)
    requires |m| == ADDRESS_SPACE && ThreadHeader(h) && at + BodyWords(h) <= |m| && op.Ok()
    requires (op.Call? || op.Lambda?) && j < |m| && j != at + STO_OFFSET
    requires !(at + StackLo(h) < j < at + Caps(h))
    ensures Exec(m, at, h, op)[j] == m[j]
  {
    Geometry(h);
  }
}
