/**
 * The policy layer the engine consults, abstracted.
 *
 * Policy lookup, policy objects and scopes belong to the Pundit library; here
 * they are an oracle: which permission methods a subject's policy defines,
 * what each answers for a principal, and which records a principal's scope
 * lets through.  `Gate` is `::Pundit.authorize(user, subject, query)` bound
 * to one principal.
 */
module Pundit {
  import opened Outcomes

  /** A value found in a request context (a Ruby Hash). */
  datatype Value = Nil | Text(text: string) | Obj(id: nat)

  type Context = map<string, Value>

  /** `context[key]`: a missing key reads as nil. */
  function Lookup(context: Context, key: string): (v: Value)
    ensures key !in context ==> v == Nil
    ensures key in context ==> v == context[key]
  {
    if key in context then context[key] else Nil
  }

  type Query = string

  /**
   * `"#{context[:action]}?"`: the permission method named after the
   * controller action.  A missing action interpolates as the empty string.
   */
  function ActionQuery(context: Context): (q: Query)
    ensures |q| >= 1 && q[|q| - 1] == '?'
    ensures Lookup(context, "action").Text? ==> q == Lookup(context, "action").text + "?"
    ensures Lookup(context, "action") == Nil ==> q == "?"
  {
    match Lookup(context, "action")
    case Text(t) => t + "?"
    case _ => "?"
  }

  /** `context[:action].in?(names)` */
  predicate ActionIn(context: Context, names: set<string>)
  {
    Lookup(context, "action").Text? && Lookup(context, "action").text in names
  }

  /** A model instance: its class name and identity. */
  datatype Record = Record(model: string, id: nat)

  /** What a policy is looked up for: a record, a model class, or nil. */
  datatype Subject = Instance(record: Record) | ModelClass(model: string) | NilRecord

  function SubjectOf(r: Option<Record>): (s: Subject)
    ensures r.None? <==> s == NilRecord
    ensures r.Some? ==> s == Instance(r.value)
  {
    if r.Some? then Instance(r.value) else NilRecord
  }

  /** A related value as Ruby passes it around: nil, one record, or an array. */
  datatype Related = Absent | One(record: Record) | Many(records: seq<Record>)

  /** Ruby `Array(x)` / `Array.wrap(x)` on a related value. */
  function Wrap(r: Related): (s: seq<Record>)
    ensures r.Absent? ==> s == []
    ensures r.One? ==> s == [r.record]
    ensures r.Many? ==> s == r.records
  {
    match r
    case Absent => []
    case One(x) => [x]
    case Many(xs) => xs
  }

  function FromOption(r: Option<Record>): (v: Related)
    ensures r.None? <==> v.Absent?
    ensures r.Some? ==> v == One(r.value)
  {
    if r.Some? then One(r.value) else Absent
  }

  /**
   * One invocation of a permission method: `query` on the policy of
   * `subject`, with `arg` as its argument.  `Absent` stands both for a call
   * without an argument and for one given an explicit nil (as
   * `create_with_<rel>?` is); the model does not tell the two apart.
   */
  datatype Check = Check(subject: Subject, query: Query, arg: Related)

  /**
   * The policy oracle.  `responds(s, m)`: the policy of `s` defines method `m`
   * (`respond_to?`); the generic methods `index?`, `show?`, `create?`,
   * `update?` and `destroy?` are taken as defined.  `permits(user)(c)`: what the
   * method answers.  `visible(user)(r)`: the policy scope keeps `r`.
   */
  datatype Policies = Policies(
    responds: (Subject, Query) -> bool,
    permits: Value -> Check -> bool,
    visible: Value -> Record -> bool)

  /** Pundit bound to the acting principal. */
  datatype Gate = Gate(user: Value, policies: Policies) {

    function Grants(): Check -> bool
    {
      policies.permits(user)
    }

    predicate Permits(c: Check)
    {
      policies.permits(user)(c)
    }

    /** `::Pundit.authorize(user, subject, query)`: one check without argument, raising when refused. */
    function Authorize(subject: Subject, query: Query): (o: Outcome<Check>)
      ensures o.trace == [Check(subject, query, Absent)]
      ensures o.verdict.Allowed? <==> Permits(Check(subject, query, Absent))
      ensures !o.verdict.Allowed? ==> o.verdict == Denied(Check(subject, query, Absent))
    {
      Ask(Permits(Check(subject, query, Absent)), Check(subject, query, Absent))
    }

    /** `records.each { |r| ::Pundit.authorize(user, r, query) }`: stops at the first refusal. */
    function AuthorizeEach(records: seq<Record>, query: Query): Outcome<Check>
      decreases |records|
    {
      if records == [] then Pass()
      else Then(Authorize(Instance(records[0]), query), AuthorizeEach(records[1..], query))
    }

    /** Pundit's `policy_scope!` applied to a collection: the records the scope keeps, in order. */
    function PolicyScope(records: seq<Record>): (r: seq<Record>)
      ensures |r| <= |records|
      ensures forall x :: x in r <==> x in records && policies.visible(user)(x)
      decreases |records|
    {
      if records == [] then []
      else if policies.visible(user)(records[0]) then [records[0]] + PolicyScope(records[1..])
      else PolicyScope(records[1..])
    }
  }

  /** The checks `AuthorizeEach` performs when nothing is refused. */
  function ChecksOn(records: seq<Record>, query: Query): (cs: seq<Check>)
    ensures |cs| == |records|
    ensures forall i :: 0 <= i < |records| ==> cs[i] == Check(Instance(records[i]), query, Absent)
  {
    seq(|records|, i requires 0 <= i < |records| => Check(Instance(records[i]), query, Absent))
  }

  lemma AuthorizeFailsFast(g: Gate, subject: Subject, query: Query)
    ensures FailsFast(g.Authorize(subject, query), g.Grants())
  {
  }

  lemma {:induction false} AuthorizeEachFailsFast(g: Gate, records: seq<Record>, query: Query)
    ensures FailsFast(g.AuthorizeEach(records, query), g.Grants())
    decreases |records|
  {
    if records != [] {
      AuthorizeEachFailsFast(g, records[1..], query);
      ThenFailsFast(g.Authorize(Instance(records[0]), query), g.AuthorizeEach(records[1..], query), g.Grants());
    }
  }

  /**
   * `AuthorizeEach` checks the records in order and is decided by the first
   * refused one: it allows exactly when every record passes, having checked
   * them all; otherwise it is denied by the first refused record, after
   * checking precisely the records up to it.  It never raises anything else.
   */
  lemma {:induction false} AuthorizeEachDecides(g: Gate, records: seq<Record>, query: Query)
    ensures !g.AuthorizeEach(records, query).verdict.Raised?
    ensures g.AuthorizeEach(records, query).verdict.Allowed? <==>
      forall i :: 0 <= i < |records| ==> g.Permits(Check(Instance(records[i]), query, Absent))
    ensures g.AuthorizeEach(records, query).verdict.Allowed? ==>
      g.AuthorizeEach(records, query).trace == ChecksOn(records, query)
    ensures g.AuthorizeEach(records, query).verdict.Denied? ==>
      exists k :: 0 <= k < |records|
        && (forall i :: 0 <= i < k ==> g.Permits(Check(Instance(records[i]), query, Absent)))
        && g.AuthorizeEach(records, query).verdict == Denied(Check(Instance(records[k]), query, Absent))
        && g.AuthorizeEach(records, query).trace == ChecksOn(records[..k + 1], query)
    decreases |records|
  {
    if records != [] {
      var head := Check(Instance(records[0]), query, Absent);
      var rest := g.AuthorizeEach(records[1..], query);
      AuthorizeEachDecides(g, records[1..], query);
      if g.Permits(head) {
        assert forall i :: 1 <= i < |records| ==> records[i] == records[1..][i - 1];
        if rest.verdict.Allowed? {
          assert ChecksOn(records, query) == [head] + ChecksOn(records[1..], query);
        } else if rest.verdict.Denied? {
          var k :| 0 <= k < |records[1..]|
            && (forall i :: 0 <= i < k ==> g.Permits(Check(Instance(records[1..][i]), query, Absent)))
            && rest.verdict == Denied(Check(Instance(records[1..][k]), query, Absent))
            && rest.trace == ChecksOn(records[1..][..k + 1], query);
          assert records[1..][..k + 1] == records[..k + 2][1..];
          assert ChecksOn(records[..k + 2], query) == [head] + ChecksOn(records[1..][..k + 1], query);
          assert (forall i :: 0 <= i < k + 1 ==> g.Permits(Check(Instance(records[i]), query, Absent)));
        }
      } else {
        assert ChecksOn(records[..1], query) == [head];
      }
    }
  }

  /** The loop the Ruby code writes, proved equal to `AuthorizeEach`. */
  method AuthorizeEachInOrder(g: Gate, records: seq<Record>, query: Query) returns (o: Outcome<Check>)
    ensures o == g.AuthorizeEach(records, query)
  {
    var trace: seq<Check> := [];
    var i := 0;
    while i < |records|
      invariant 0 <= i <= |records|
      invariant g.AuthorizeEach(records, query) == Then(Outcome(Allowed, trace), g.AuthorizeEach(records[i..], query))
    {
      var c := Check(Instance(records[i]), query, Absent);
      assert records[i..][1..] == records[i + 1..];
      ThenAssociative(Outcome(Allowed, trace), g.Authorize(Instance(records[i]), query), g.AuthorizeEach(records[i + 1..], query));
      trace := trace + [c];
      if !g.Permits(c) {
        return Outcome(Denied(c), trace);
      }
      i := i + 1;
    }
    ThenPassRight(Outcome(Allowed, trace));
    o := Outcome(Allowed, trace);
  }

  /** The scope drops records; it never adds one and keeps everything it may show. */
  lemma {:induction false} PolicyScopeOnlyDrops(g: Gate, records: seq<Record>)
    ensures multiset(g.PolicyScope(records)) <= multiset(records)
    decreases |records|
  {
    if records != [] {
      PolicyScopeOnlyDrops(g, records[1..]);
      assert records == [records[0]] + records[1..];
    }
  }
}
