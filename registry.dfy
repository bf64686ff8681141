/**
 * The shared optimisation model the components register into, reduced to
 * what they use of it: an append-only list of named bounded variables, an
 * append-only list of named linear constraints, and lookup of a variable by
 * name. Solving and objectives are not part of it.
 */
module Registry {
  import opened Wrappers

  /** A decision variable: name, bounds and integrality. */
  datatype Var = Var(name: string, lower: int, upper: int, integer: bool)

  /** `coeff * variable` inside a linear expression. */
  datatype Term = Term(coeff: int, variable: string)

  datatype Sense = LessEq | GreaterEq

  /** The named linear relation `lhs <sense> rhs`, kept as written. */
  datatype Constraint = Constraint(name: string, lhs: seq<Term>, sense: Sense, rhs: seq<Term>)

  /** A variable's bounds admit at least one value. */
  predicate WellFormed(v: Var) {
    v.lower <= v.upper
  }

  /** The index of the last variable called `name`, if any. */
  function Find(vars: seq<Var>, name: string): (r: Option<nat>)
    ensures r.Some? ==> r.value < |vars| && vars[r.value].name == name
    ensures r.Some? ==> forall j | r.value < j < |vars| :: vars[j].name != name
    ensures r.None? <==> forall j | 0 <= j < |vars| :: vars[j].name != name
  {
    if vars == [] then None
    else if vars[|vars| - 1].name == name then Some(|vars| - 1)
    else Find(vars[..|vars| - 1], name)
  }

  /** True when some variable of `vars` is called `name`. */
  predicate Declares(vars: seq<Var>, name: string) {
    Find(vars, name).Some?
  }

  // Semantics of an assignment of integer values to variable names.

  predicate Assigns(x: map<string, int>, terms: seq<Term>) {
    forall t | t in terms :: t.variable in x
  }

  function Eval(terms: seq<Term>, x: map<string, int>): int
    requires Assigns(x, terms)
  {
    if terms == [] then 0
    else terms[0].coeff * x[terms[0].variable] + Eval(terms[1..], x)
  }

  predicate Satisfies(x: map<string, int>, c: Constraint) {
    Assigns(x, c.lhs) && Assigns(x, c.rhs) &&
    match c.sense
    case LessEq => Eval(c.lhs, x) <= Eval(c.rhs, x)
    case GreaterEq => Eval(c.lhs, x) >= Eval(c.rhs, x)
  }

  predicate WithinBounds(x: map<string, int>, v: Var) {
    v.name in x && v.lower <= x[v.name] <= v.upper
  }

  /** `x` respects every variable's bounds and every constraint. */
  predicate Feasible(vars: seq<Var>, cons: seq<Constraint>, x: map<string, int>) {
    (forall v | v in vars :: WithinBounds(x, v)) &&
    (forall c | c in cons :: Satisfies(x, c))
  }

  class LinearModel {
    var variables: seq<Var>
    var constraints: seq<Constraint>

    constructor ()
      ensures variables == [] && constraints == []
    {
      variables := [];
      constraints := [];
    }

    /** `model.add_variables(name=..., lower=..., upper=..., integer=...)`. */
    method AddVariable(name: string, lower: int, upper: int, integer: bool)
      modifies this
      ensures variables == old(variables) + [Var(name, lower, upper, integer)]
      ensures constraints == old(constraints)
    {
      variables := variables + [Var(name, lower, upper, integer)];
    }

    /** `model.add_constraints(expression, name=...)`. */
    method AddConstraint(c: Constraint)
      modifies this
      ensures constraints == old(constraints) + [c]
      ensures variables == old(variables)
    {
      constraints := constraints + [c];
    }
  }

  /** Appending a variable keeps every earlier declaration and adds its own. */
  lemma {:induction false} DeclaresAppend(vars: seq<Var>, more: seq<Var>, name: string)
    ensures Declares(vars + more, name) <==> Declares(vars, name) || Declares(more, name)
  {
    if Declares(vars, name) {
      var j := Find(vars, name).value;
      assert (vars + more)[j].name == name;
    }
    if Declares(more, name) {
      var j := Find(more, name).value;
      assert (vars + more)[|vars| + j].name == name;
    }
    if Declares(vars + more, name) {
      var j := Find(vars + more, name).value;
      if j < |vars| { assert vars[j].name == name; } else { assert more[j - |vars|].name == name; }
    }
  }
}
