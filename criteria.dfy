/**
 * The offer-search criteria builder: `(key, operation, value)` criteria are
 * collected in a list, and `build` compiles them into one filter, the left-nested
 * conjunction of one per-criterion specification each, or into "no filter"
 * when there is no criterion.
 */
module Criteria {
  import opened Common

  /** The `Object value` of a criterion: a title keyword, a date, or a price. */
  datatype Value =
    | Text(text: string)
    | Long(long: Int64)
    | Float(bits: bv32)   // a Java `Float`, carried by its bit pattern and never computed on

  /** `SearchCriteria`. */
  datatype Criterion = Criterion(key: string, operation: string, value: Value)

  /**
   * A JPA `Specification<Offer>` as `build` composes it: the specification of a
   * single criterion, or `Specifications.where(left).and(right)`.
   */
  datatype Specification =
    | OfferSpecification(criterion: Criterion)
    | Conjunction(left: Specification, right: Specification)

  /**
   * Whether `spec` admits the entity `o`. What a single criterion tests is
   * `accepts`, which stands for `OfferSpecification.toPredicate`.
   */
  function Holds<O>(spec: Specification, o: O, accepts: (Criterion, O) -> bool): bool
  {
    match spec
    case OfferSpecification(c) => accepts(c, o)
    case Conjunction(l, r) => Holds(l, o, accepts) && Holds(r, o, accepts)
  }

  /** A filter handed to `findAll`; `None` is Java's `null`, "no filter", which admits everything. */
  function Admits<O>(filter: Option<Specification>, o: O, accepts: (Criterion, O) -> bool): bool
  {
    match filter
    case None => true
    case Some(spec) => Holds(spec, o, accepts)
  }

  /** The first specification, then `where(result).and(next)` for each following criterion. */
  function Fold(params: seq<Criterion>): Specification
    requires |params| >= 1
  {
    if |params| == 1 then OfferSpecification(params[0])
    else Conjunction(Fold(params[..|params| - 1]), OfferSpecification(params[|params| - 1]))
  }

  /** What `build` returns for the list `params`. */
  function Compile(params: seq<Criterion>): Option<Specification>
  {
    if |params| == 0 then None else Some(Fold(params))
  }

  /** The folded specification holds exactly when every criterion accepts. */
  lemma {:induction false} FoldIsConjunction<O>(params: seq<Criterion>, o: O, accepts: (Criterion, O) -> bool)
    requires |params| >= 1
    ensures Holds(Fold(params), o, accepts) <==> forall i :: 0 <= i < |params| ==> accepts(params[i], o)
  {
    if |params| > 1 {
      var init := params[..|params| - 1];
      FoldIsConjunction(init, o, accepts);
      assert forall i :: 0 <= i < |init| ==> init[i] == params[i];
    }
  }

  /**
   * The compiled filter admits an entity iff every criterion in the list accepts it;
   * with no criterion it admits every entity.
   */
  lemma CompiledFilterIsConjunction<O>(params: seq<Criterion>, o: O, accepts: (Criterion, O) -> bool)
    ensures Admits(Compile(params), o, accepts) <==> forall c :: c in params ==> accepts(c, o)
  {
    if |params| >= 1 {
      FoldIsConjunction(params, o, accepts);
    }
  }

  /**
   * Neither the order nor the multiplicity of the criteria changes what the
   * filter admits: lists with the same elements admit the same entities.
   */
  lemma CompileOrderIrrelevant<O>(a: seq<Criterion>, b: seq<Criterion>, o: O, accepts: (Criterion, O) -> bool)
    requires forall c :: c in a <==> c in b
    ensures Admits(Compile(a), o, accepts) == Admits(Compile(b), o, accepts)
  {
    CompiledFilterIsConjunction(a, o, accepts);
    CompiledFilterIsConjunction(b, o, accepts);
  }

  /** One criterion compiles to its own specification, with no conjunction around it. */
  lemma CompileSingle(c: Criterion)
    ensures Compile([c]) == Some(OfferSpecification(c))
  {
  }

  /** `OfferSpecificationsBuilder`. */
  class OfferSpecificationsBuilder {
    var params: seq<Criterion>

    constructor ()
      ensures params == []
    {
      params := [];
    }

    /** Appends one criterion at the end; returns the builder itself. */
    method With(key: string, operation: string, value: Value) returns (self: OfferSpecificationsBuilder)
      modifies this
      ensures params == old(params) + [Criterion(key, operation, value)]
      ensures self == this
    {
      params := params + [Criterion(key, operation, value)];
      self := this;
    }

    /** Does not modify `params`: no `modifies` clause. */
    method Build() returns (result: Option<Specification>)
      ensures result == Compile(params)
      ensures result.None? <==> params == []
    {
      if |params| == 0 {
        return None;
      }
      var specs: seq<Specification> := [];
      for i := 0 to |params|
        invariant |specs| == i
        invariant forall j :: 0 <= j < i ==> specs[j] == OfferSpecification(params[j])
      {
        specs := specs + [OfferSpecification(params[i])];
      }
      var acc := specs[0];
      for i := 1 to |specs|
        invariant acc == Fold(params[..i])
      {
        assert params[..i + 1][..i] == params[..i];
        acc := Conjunction(acc, specs[i]);
      }
      assert params[..|params|] == params;
      return Some(acc);
    }
  }

  /**
   * A filter, once built, is a value: a later `with` leaves it as it was, and
   * only a new `build` sees the extra criterion.
   */
  method BuildThenWith(builder: OfferSpecificationsBuilder, c: Criterion)
    returns (first: Option<Specification>, second: Option<Specification>)
    modifies builder
    ensures first == Compile(old(builder.params))
    ensures second == Compile(old(builder.params) + [c])
    ensures second.Some?
  {
    first := builder.Build();
    var _ := builder.With(c.key, c.operation, c.value);
    second := builder.Build();
  }
}
