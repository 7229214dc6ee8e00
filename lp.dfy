/**
  The pieces of a linear program as plain values: the variables indexed by
  (product, location, time), linear terms, the two kinds of constraint the
  inventory model emits, and the problem that collects them.
*/
module Lp {
  import opened Wrappers
  import opened Seqs

  /** The index `[i][w][t]` of a decision variable of `inv_level`. */
  datatype VarIndex<K> = VarIndex(product: K, location: K, time: K)

  /** A continuous variable with its bounds; `None` stands for no bound. */
  datatype Variable<K> = Variable(index: VarIndex<K>, lowBound: Option<real>, upBound: Option<real>)

  /** `coef` times the variable `v`. */
  datatype Term<K> = Term(v: VarIndex<K>, coef: real)

  datatype Sense = Minimize | Maximize

  datatype Constraint<K> =
    /** `v == demand`. */
    | Balance(v: VarIndex<K>, demand: real)
    /** The sum of `vars` is at most `cap`: a location's capacity in one period. */
    | Capacity(location: K, time: K, vars: seq<VarIndex<K>>, cap: real)

  /**
    `LpProblem`: a name, a sense, an objective and the constraints in the
    order added. `+=` with an expression sets the objective; `+=` with a
    constraint appends it.
  */
  class LpProblem<K> {
    const name: string
    const sense: Sense
    var objective: seq<Term<K>>
    var constraints: seq<Constraint<K>>

    constructor (name: string, sense: Sense)
      ensures this.name == name && this.sense == sense
      ensures objective == [] && constraints == []
    {
      this.name, this.sense := name, sense;
      objective, constraints := [], [];
    }

    /** `problem += expression`. */
    method SetObjective(terms: seq<Term<K>>)
      modifies this`objective
      ensures objective == terms
    {
      objective := terms;
    }

    /** `problem += constraint`. */
    method AddConstraint(c: Constraint<K>)
      modifies this`constraints
      ensures constraints == old(constraints) + [c]
    {
      constraints := constraints + [c];
    }
  }

  function TermVars<K>(terms: seq<Term<K>>): seq<VarIndex<K>> {
    seq(|terms|, j requires 0 <= j < |terms| => terms[j].v)
  }

  /**
    `lpSum` over a list of terms: one affine expression, mapping each variable
    that occurs to the sum of its coefficients.
  */
  function Combine<K(==)>(terms: seq<Term<K>>): (e: map<VarIndex<K>, real>)
    ensures e.Keys == set t | t in terms :: t.v
  {
    if terms == [] then map[]
    else
      var rest := Combine(terms[1..]);
      var v := terms[0].v;
      assert (set t | t in terms :: t.v) == {v} + (set t | t in terms[1..] :: t.v) by {
        assert terms == [terms[0]] + terms[1..];
      }
      rest[v := terms[0].coef + (if v in rest then rest[v] else 0.0)]
  }

  /** When no variable repeats, each keeps exactly the coefficient of its one term. */
  lemma {:induction false} CombineDistinct<K>(terms: seq<Term<K>>)
    requires NoDups(TermVars(terms))
    ensures forall j :: 0 <= j < |terms| ==> Combine(terms)[terms[j].v] == terms[j].coef
  {
    if terms != [] {
      var vs := TermVars(terms);
      assert TermVars(terms[1..]) == vs[1..];
      assert NoDups(vs[1..]) by {
        assert forall a, b :: 0 <= a < b < |vs| - 1 ==> vs[1..][a] == vs[a + 1] && vs[1..][b] == vs[b + 1];
      }
      CombineDistinct(terms[1..]);
      assert terms[0].v !in Combine(terms[1..]) by {
        assert forall j :: 1 <= j < |terms| ==> terms[j].v == vs[j] && vs[j] != vs[0];
      }
      forall j | 1 <= j < |terms| ensures Combine(terms)[terms[j].v] == terms[j].coef {
        assert terms[j] == terms[1..][j - 1];
        assert terms[j].v == vs[j] && vs[j] != vs[0];
      }
    }
  }

  /** The number of balance constraints in a list. */
  function CountBalances<K>(cs: seq<Constraint<K>>): nat {
    if cs == [] then 0 else (if cs[0].Balance? then 1 else 0) + CountBalances(cs[1..])
  }

  /** The number of capacity constraints in a list. */
  function CountCapacities<K>(cs: seq<Constraint<K>>): nat {
    if cs == [] then 0 else (if cs[0].Capacity? then 1 else 0) + CountCapacities(cs[1..])
  }

  /** Both counts add up over a concatenation. */
  lemma {:induction false} CountAppend<K>(a: seq<Constraint<K>>, b: seq<Constraint<K>>)
    ensures CountBalances(a + b) == CountBalances(a) + CountBalances(b)
    ensures CountCapacities(a + b) == CountCapacities(a) + CountCapacities(b)
  {
    if a == [] {
      assert a + b == b;
    } else {
      assert (a + b)[1..] == a[1..] + b;
      CountAppend(a[1..], b);
    }
  }
}
