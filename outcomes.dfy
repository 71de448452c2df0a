/**
 * Outcomes of an authorization run.
 *
 * Every gateway operation performs an ordered sequence of permission checks
 * and stops at the first one that is refused (the Ruby code raises
 * `Pundit::NotAuthorizedError` there) or at the first other exception.  An
 * `Outcome` records the verdict together with the checks actually performed,
 * so that ordering, short-circuiting and "which check decided" can be stated.
 */
module Outcomes {

  datatype Option<+T> = None | Some(value: T)

  /** Errors other than a refused check that the engine raises or propagates. */
  datatype Fault =
    | RecordNotFound           // JSONAPI::Exceptions::RecordNotFound
    | UnexpectedRelationship   // "Unexpected relationship type" / "Unknown relationship type"
    | UnknownIncludeDirective  // "Unknown include directive"
    | ArgumentError            // a Ruby method called with the wrong number of arguments
    | NoMethodError            // a method called on nil (a relationship the resource class does not have)

  /** A computed value, or the exception raised while computing it. */
  datatype Result<T> = Success(value: T) | Failure(fault: Fault)

  datatype Verdict<E> =
    | Allowed
    | Denied(refused: E)      // the refused check; NotAuthorizedError carries its query and record
    | Raised(fault: Fault)

  /** The verdict and the checks performed, in order. */
  datatype Outcome<E> = Outcome(verdict: Verdict<E>, trace: seq<E>)

  /** Nothing checked, nothing refused. */
  function Pass<E>(): (o: Outcome<E>)
    ensures o.verdict.Allowed? && o.trace == []
  {
    Outcome(Allowed, [])
  }

  /** An exception raised before any check. */
  function Raise<E>(f: Fault): (o: Outcome<E>)
    ensures o.verdict == Raised(f) && o.trace == []
  {
    Outcome(Raised(f), [])
  }

  /** One check `e`, answered `granted`. */
  function Ask<E>(granted: bool, e: E): (o: Outcome<E>)
    ensures o.trace == [e]
    ensures o.verdict.Allowed? <==> granted
    ensures !granted ==> o.verdict == Denied(e)
  {
    if granted then Outcome(Allowed, [e]) else Outcome(Denied(e), [e])
  }

  /** Run `a`, and `b` only when `a` allowed (Ruby: statements in sequence, raising stops). */
  function Then<E>(a: Outcome<E>, b: Outcome<E>): (o: Outcome<E>)
    ensures a.verdict.Allowed? ==> o.verdict == b.verdict && o.trace == a.trace + b.trace
    ensures !a.verdict.Allowed? ==> o == a
  {
    if a.verdict.Allowed? then Outcome(b.verdict, a.trace + b.trace) else a
  }

  /** Rename every event of an outcome (used to view one layer's calls as another layer's). */
  function MapOutcome<A, B>(o: Outcome<A>, f: A -> B): (r: Outcome<B>)
    ensures |r.trace| == |o.trace|
    ensures forall i :: 0 <= i < |o.trace| ==> r.trace[i] == f(o.trace[i])
    ensures o.verdict.Allowed? <==> r.verdict.Allowed?
    ensures o.verdict.Denied? ==> r.verdict == Denied(f(o.verdict.refused))
    ensures o.verdict.Raised? ==> r.verdict == Raised(o.verdict.fault)
  {
    var v := match o.verdict
      case Allowed => Allowed
      case Denied(e) => Denied(f(e))
      case Raised(x) => Raised(x);
    Outcome(v, MapSeq(o.trace, f))
  }

  function MapSeq<A, B>(s: seq<A>, f: A -> B): (r: seq<B>)
    ensures |r| == |s|
    ensures forall i :: 0 <= i < |s| ==> r[i] == f(s[i])
  {
    seq(|s|, i requires 0 <= i < |s| => f(s[i]))
  }

  /**
   * The fail-fast discipline: every check performed before the deciding one
   * was granted; a denial is the last check performed and it was refused.
   */
  ghost predicate FailsFast<E>(o: Outcome<E>, grants: E -> bool)
  {
    match o.verdict
    case Allowed => forall i :: 0 <= i < |o.trace| ==> grants(o.trace[i])
    case Raised(_) => forall i :: 0 <= i < |o.trace| ==> grants(o.trace[i])
    case Denied(e) =>
      && |o.trace| > 0
      && o.trace[|o.trace| - 1] == e
      && !grants(e)
      && forall i :: 0 <= i < |o.trace| - 1 ==> grants(o.trace[i])
  }

  lemma AskFailsFast<E>(e: E, grants: E -> bool)
    ensures FailsFast(Ask(grants(e), e), grants)
  {
  }

  /** Sequencing keeps the fail-fast discipline. */
  lemma ThenFailsFast<E>(a: Outcome<E>, b: Outcome<E>, grants: E -> bool)
    requires FailsFast(a, grants) && FailsFast(b, grants)
    ensures FailsFast(Then(a, b), grants)
  {
    if a.verdict.Allowed? {
      var o := Then(a, b);
      assert o.trace == a.trace + b.trace;
      forall i | 0 <= i < |a.trace| ensures grants(o.trace[i]) {
        assert o.trace[i] == a.trace[i];
      }
      if b.verdict.Denied? {
        forall i | |a.trace| <= i < |o.trace| - 1 ensures grants(o.trace[i]) {
          assert o.trace[i] == b.trace[i - |a.trace|];
        }
        assert o.trace[|o.trace| - 1] == b.trace[|b.trace| - 1];
      } else {
        forall i | |a.trace| <= i < |o.trace| ensures grants(o.trace[i]) {
          assert o.trace[i] == b.trace[i - |a.trace|];
        }
      }
    }
  }

  lemma ThenAssociative<E>(a: Outcome<E>, b: Outcome<E>, c: Outcome<E>)
    ensures Then(Then(a, b), c) == Then(a, Then(b, c))
  {
    if a.verdict.Allowed? && b.verdict.Allowed? {
      assert (a.trace + b.trace) + c.trace == a.trace + (b.trace + c.trace);
    }
  }

  lemma ThenPassRight<E>(a: Outcome<E>)
    ensures Then(a, Pass()) == a
  {
    if a.verdict.Allowed? {
      assert a.trace + [] == a.trace;
    }
  }

  /** Renaming events keeps the discipline when grants agree across the renaming. */
  lemma MapFailsFast<A, B>(o: Outcome<A>, f: A -> B, ga: A -> bool, gb: B -> bool)
    requires FailsFast(o, ga)
    requires forall x :: ga(x) == gb(f(x))
    ensures FailsFast(MapOutcome(o, f), gb)
  {
    var r := MapOutcome(o, f);
    if o.verdict.Denied? {
      assert r.trace[|r.trace| - 1] == f(o.trace[|o.trace| - 1]);
    }
  }

  lemma MapThen<A, B>(a: Outcome<A>, b: Outcome<A>, f: A -> B)
    ensures MapOutcome(Then(a, b), f) == Then(MapOutcome(a, f), MapOutcome(b, f))
  {
    if a.verdict.Allowed? {
      assert MapSeq(a.trace + b.trace, f) == MapSeq(a.trace, f) + MapSeq(b.trace, f);
    }
  }

  /** Ruby's `flat_map` with a block that may raise: the blocks' lists concatenated in order, or the first fault. */
  function FlatMap<A, B>(xs: seq<A>, f: A -> Result<seq<B>>): Result<seq<B>>
    decreases |xs|
  {
    if xs == [] then Success([])
    else
      match f(xs[0])
      case Failure(e) => Failure(e)
      case Success(first) =>
        match FlatMap(xs[1..], f)
        case Failure(e) => Failure(e)
        case Success(rest) => Success(first + rest)
  }

  /**
   * `flat_map` over two lists in a row is `flat_map` over their
   * concatenation: the results concatenate, and the first fault wins.
   */
  lemma {:induction false} FlatMapConcat<A, B>(xs: seq<A>, ys: seq<A>, f: A -> Result<seq<B>>)
    ensures FlatMap(xs, f).Failure? ==> FlatMap(xs + ys, f) == FlatMap(xs, f)
    ensures FlatMap(xs, f).Success? && FlatMap(ys, f).Failure? ==> FlatMap(xs + ys, f) == FlatMap(ys, f)
    ensures FlatMap(xs, f).Success? && FlatMap(ys, f).Success? ==>
      FlatMap(xs + ys, f) == Success(FlatMap(xs, f).value + FlatMap(ys, f).value)
    decreases |xs|
  {
    if xs == [] {
      assert xs + ys == ys;
      if FlatMap(ys, f).Success? {
        assert [] + FlatMap(ys, f).value == FlatMap(ys, f).value;
      }
    } else {
      FlatMapConcat(xs[1..], ys, f);
      assert (xs + ys)[0] == xs[0];
      assert (xs + ys)[1..] == xs[1..] + ys;
      if FlatMap(xs, f).Success? && FlatMap(ys, f).Success? {
        var first := f(xs[0]).value;
        var mid := FlatMap(xs[1..], f).value;
        assert first + (mid + FlatMap(ys, f).value) == (first + mid) + FlatMap(ys, f).value;
      }
    }
  }
}
