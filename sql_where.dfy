/** Just enough of SQL's WHERE syntax to say what a clause built by string
    appends means: a chain of operands joined by AND and OR with no
    parentheses between them, where AND binds tighter than OR (the rule of
    the SQL standard and of Transact-SQL). An operand is a condition whose
    truth is given, written with or without parentheses, or a parenthesised
    chain of such conditions. */
module SqlWhere {

  datatype Op = AndOp | OrOp

  /** A condition taken as a whole; `parens` says whether it is written
      inside parentheses. */
  datatype Atom = Atom(text: string, parens: bool)

  /** `head op1 t1 op2 t2 …`. */
  datatype Chain<T> = Chain(head: T, tail: seq<(Op, T)>)

  /** An operand of an outer chain: a condition, or an inner chain in
      parentheses. */
  datatype Operand = Plain(atom: Atom) | Grouped(inner: Chain<Atom>)

  function RenderOp(op: Op): string
  {
    match op
    case AndOp => " AND "
    case OrOp => " OR "
  }

  function RenderAtom(a: Atom): string
  {
    if a.parens then "(" + a.text + ")" else a.text
  }

  function RenderTail(tail: seq<(Op, Atom)>): string
  {
    if tail == [] then "" else RenderOp(tail[0].0) + RenderAtom(tail[0].1) + RenderTail(tail[1..])
  }

  /** The text of a chain of conditions. */
  function RenderChain(c: Chain<Atom>): string
  {
    RenderAtom(c.head) + RenderTail(c.tail)
  }

  function RenderOperand(o: Operand): string
  {
    match o
    case Plain(a) => RenderAtom(a)
    case Grouped(inner) => "(" + RenderChain(inner) + ")"
  }

  function RenderOuterTail(tail: seq<(Op, Operand)>): string
  {
    if tail == [] then "" else RenderOp(tail[0].0) + RenderOperand(tail[0].1) + RenderOuterTail(tail[1..])
  }

  /** The text of a chain whose operands may be groups. */
  function RenderOuter(c: Chain<Operand>): string
  {
    RenderOperand(c.head) + RenderOuterTail(c.tail)
  }

  /** The value of `run op1 v1 op2 v2 …` when AND binds tighter than OR:
      `run` is the value of the AND-group being read. */
  function Precedence(run: bool, tail: seq<(Op, bool)>): bool
    decreases |tail|
  {
    if tail == [] then run
    else if tail[0].0 == AndOp then Precedence(run && tail[0].1, tail[1..])
    else run || Precedence(tail[0].1, tail[1..])
  }

  function AtomValues(tail: seq<(Op, Atom)>, truth: string -> bool): (vs: seq<(Op, bool)>)
    ensures |vs| == |tail|
    ensures forall i :: 0 <= i < |tail| ==> vs[i] == (tail[i].0, truth(tail[i].1.text))
  {
    if tail == [] then [] else [(tail[0].0, truth(tail[0].1.text))] + AtomValues(tail[1..], truth)
  }

  /** Whether a row satisfies a chain of conditions; `truth` says which
      conditions hold of the row. */
  function Eval(c: Chain<Atom>, truth: string -> bool): bool
  {
    Precedence(truth(c.head.text), AtomValues(c.tail, truth))
  }

  function OperandValue(o: Operand, truth: string -> bool): bool
  {
    match o
    case Plain(a) => truth(a.text)
    case Grouped(inner) => Eval(inner, truth)
  }

  function OperandValues(tail: seq<(Op, Operand)>, truth: string -> bool): (vs: seq<(Op, bool)>)
    ensures |vs| == |tail|
  {
    if tail == [] then [] else [(tail[0].0, OperandValue(tail[0].1, truth))] + OperandValues(tail[1..], truth)
  }

  function EvalOuter(c: Chain<Operand>, truth: string -> bool): bool
  {
    Precedence(OperandValue(c.head, truth), OperandValues(c.tail, truth))
  }

  /** A chain whose every operator is OR holds when any operand holds. */
  lemma {:induction false} AllOrIsDisjunction(run: bool, tail: seq<(Op, bool)>)
    requires forall i :: 0 <= i < |tail| ==> tail[i].0 == OrOp
    ensures Precedence(run, tail) <==> run || exists i :: 0 <= i < |tail| && tail[i].1
    decreases |tail|
  {
    if tail != [] {
      AllOrIsDisjunction(tail[0].1, tail[1..]);
      if exists i :: 0 <= i < |tail| - 1 && tail[1..][i].1 {
        var i :| 0 <= i < |tail| - 1 && tail[1..][i].1;
        assert tail[i + 1].1;
      }
      if exists i :: 0 <= i < |tail| && tail[i].1 {
        var i :| 0 <= i < |tail| && tail[i].1;
        if i > 0 {
          assert tail[1..][i - 1].1;
        }
      }
    }
  }

  /** Appending `AND x` to a chain conjoins `x` with its last AND-group
      only: the value is the old chain's with the last group strengthened. */
  lemma {:induction false} AppendAnd(run: bool, tail: seq<(Op, bool)>, x: bool)
    ensures Precedence(run, tail + [(AndOp, x)]) == PrecedenceLastAnd(run, tail, x)
    decreases |tail|
  {
    if tail != [] {
      assert (tail + [(AndOp, x)])[1..] == tail[1..] + [(AndOp, x)];
      if tail[0].0 == AndOp {
        AppendAnd(run && tail[0].1, tail[1..], x);
      } else {
        AppendAnd(tail[0].1, tail[1..], x);
      }
    }
  }

  /** `Precedence` with `x` conjoined to the last AND-group. */
  function PrecedenceLastAnd(run: bool, tail: seq<(Op, bool)>, x: bool): bool
    decreases |tail|
  {
    if tail == [] then run && x
    else if tail[0].0 == AndOp then PrecedenceLastAnd(run && tail[0].1, tail[1..], x)
    else run || PrecedenceLastAnd(tail[0].1, tail[1..], x)
  }

  /** Rendering an appended operand appends its text. */
  lemma {:induction false} RenderTailAppend(tail: seq<(Op, Atom)>, op: Op, a: Atom)
    ensures RenderTail(tail + [(op, a)]) == RenderTail(tail) + RenderOp(op) + RenderAtom(a)
    decreases |tail|
  {
    if tail == [] {
      assert [(op, a)][1..] == [];
    } else {
      assert (tail + [(op, a)])[1..] == tail[1..] + [(op, a)];
      RenderTailAppend(tail[1..], op, a);
    }
  }

  /** `AND x` appended to `c`. */
  function AppendAndAtom(c: Chain<Atom>, x: Atom): (r: Chain<Atom>)
    ensures RenderChain(r) == RenderChain(c) + " AND " + RenderAtom(x)
    ensures forall truth: string -> bool ::
      Eval(r, truth) == PrecedenceLastAnd(truth(c.head.text), AtomValues(c.tail, truth), truth(x.text))
  {
    var r := Chain(c.head, c.tail + [(AndOp, x)]);
    RenderTailAppend(c.tail, AndOp, x);
    forall truth: string -> bool
      ensures Eval(r, truth) == PrecedenceLastAnd(truth(c.head.text), AtomValues(c.tail, truth), truth(x.text))
    {
      assert AtomValues(r.tail, truth) == AtomValues(c.tail, truth) + [(AndOp, truth(x.text))];
      AppendAnd(truth(c.head.text), AtomValues(c.tail, truth), truth(x.text));
    }
    r
  }

  /** `(c) AND x`: the whole of `c` grouped, then conjoined with `x`. */
  function GroupAndAtom(c: Chain<Atom>, x: Atom): (r: Chain<Operand>)
    ensures RenderOuter(r) == "(" + RenderChain(c) + ") AND " + RenderAtom(x)
    ensures forall truth: string -> bool :: EvalOuter(r, truth) == (Eval(c, truth) && truth(x.text))
  {
    var tail := [(AndOp, Plain(x))];
    assert tail[1..] == [];
    assert RenderOuterTail(tail) == " AND " + RenderAtom(x);
    forall truth: string -> bool
      ensures EvalOuter(Chain(Grouped(c), tail), truth) == (Eval(c, truth) && truth(x.text))
    {
      assert OperandValues(tail[1..], truth) == [];
      var vs := OperandValues(tail, truth);
      assert vs == [(AndOp, truth(x.text))];
      assert vs[1..] == [];
      assert OperandValue(Grouped(c), truth) == Eval(c, truth);
      assert Precedence(Eval(c, truth), vs) == Precedence(Eval(c, truth) && truth(x.text), []);
    }
    Chain(Grouped(c), tail)
  }
}
