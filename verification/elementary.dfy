/** The transcendental functions the Java code takes from `java.lang.Math`.

  They are not computed: each is a parameter, and the facts about them that
  the model's proofs need are stated as predicates the callers supply. */
module Elementary {

  /** `Math.exp`, `Math.tanh` and `Math.log`. */
  datatype Functions = Functions(exp: real -> real, tanh: real -> real, log: real -> real)

  /** `g` is positive everywhere, as `Math.exp` is. */
  ghost predicate Positive(g: real -> real)
  {
    forall x :: g(x) > 0.0
  }

  lemma PositiveAt(g: real -> real, x: real)
    requires Positive(g)
    ensures g(x) > 0.0
  {
  }

  /** `g` is non-positive on `(0, 1]`, as `Math.log` is. */
  ghost predicate NonPositiveOnUnit(g: real -> real)
  {
    forall p :: 0.0 < p <= 1.0 ==> g(p) <= 0.0
  }
}
