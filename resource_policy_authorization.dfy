/**
 * `JSONAPI::Authorization::ResourcePolicyAuthorization`: a resource mixin
 * that scopes listings like `PunditScopedResource` and, in addition, checks
 * the controller action's permission method before a save or a removal and
 * on the records a relationship answers.
 */
module ResourcePolicyAuthorization {
  import opened Outcomes
  import opened Pundit
  import opened IncludeWalk
  import Scoped = PunditScopedResource

  /** The checks a `records_for` call made, and the records it answered (`Absent` unless allowed). */
  datatype Fetched = Fetched(outcome: Outcome<Check>, records: Related)

  function Fetch(o: Outcome<Check>, value: Related): Fetched
  {
    Fetched(o, if o.verdict.Allowed? then value else Absent)
  }

  /** `records(options)`: the same policy scope of the model class as `PunditScopedResource` answers. */
  function Records(policies: Policies, context: Context, all: seq<Record>): (r: seq<Record>)
    ensures multiset(r) <= multiset(all)
    ensures forall x :: x in r <==> x in all && policies.visible(Lookup(context, "user"))(x)
  {
    Scoped.Records(policies, context, all)
  }

  /** `authorize_record(record)`: the context action's query, for the context's user. */
  function AuthorizeRecord(policies: Policies, context: Context, subject: Subject): Outcome<Check>
  {
    Gate(Lookup(context, "user"), policies).Authorize(subject, ActionQuery(context))
  }

  /** `authorize`, run before `save` and before `remove`: the resource's own model. */
  function AuthorizeModel(policies: Policies, context: Context, model: Record): (o: Outcome<Check>)
    ensures o.trace == [Check(Instance(model), ActionQuery(context), Absent)]
    ensures o.verdict.Allowed? <==> policies.permits(Lookup(context, "user"))(Check(Instance(model), ActionQuery(context), Absent))
    ensures !o.verdict.Raised?
  {
    AuthorizeRecord(policies, context, Instance(model))
  }

  /**
   * `records_for(name)` as written: the to-many branch for an action other
   * than index or show evaluates `&authorize_record`, which calls
   * `authorize_record` with no argument before any record is visited, and
   * so raises `ArgumentError` whatever the records are.
   */
  function RecordsForAsWritten(policies: Policies, context: Context, s: Schema, klass: ResourceKlass, model: Record, name: string): Fetched
  {
    match s.relationship(klass, name)
    case None => Fetch(Raise(UnexpectedRelationship), Absent)
    case Some(rel) =>
      match rel.kind
      case ToOneKind =>
        Fetch(AuthorizeRecord(policies, context, SubjectOf(s.toOne(model, name))), FromOption(s.toOne(model, name)))
      case ToManyKind =>
        var records := Records(policies, context, s.toMany(model, name));
        if ActionIn(context, {"index", "show"}) then Fetch(Pass(), Many(records))
        else Fetch(Raise(ArgumentError), Many(records))
  }

  /**
   * `records_for(name)` as intended: the to-one record is checked with the
   * action's query and answered as it is; the scoped to-many records are
   * answered, each checked with the action's query first unless the action
   * is index or show; any other relationship raises.
   */
  function RecordsFor(policies: Policies, context: Context, s: Schema, klass: ResourceKlass, model: Record, name: string): Fetched
  {
    match s.relationship(klass, name)
    case None => Fetch(Raise(UnexpectedRelationship), Absent)
    case Some(rel) =>
      match rel.kind
      case ToOneKind =>
        Fetch(AuthorizeRecord(policies, context, SubjectOf(s.toOne(model, name))), FromOption(s.toOne(model, name)))
      case ToManyKind =>
        var records := Records(policies, context, s.toMany(model, name));
        if ActionIn(context, {"index", "show"}) then Fetch(Pass(), Many(records))
        else Fetch(Gate(Lookup(context, "user"), policies).AuthorizeEach(records, ActionQuery(context)), Many(records))
  }

  // ---------------------------------------------------------------------
  // Properties
  // ---------------------------------------------------------------------

  /**
   * When it lets the call through, `records_for` answers exactly what the
   * scope-only mixin answers; where the scope-only mixin raises, so does it.
   */
  lemma RecordsForMatchesScopedResource(policies: Policies, context: Context, s: Schema, klass: ResourceKlass, model: Record, name: string)
    ensures var f := RecordsFor(policies, context, s, klass, model, name);
      var scoped := Scoped.RecordsFor(policies, context, s, klass, model, name);
      && (f.outcome.verdict.Allowed? ==> scoped == Success(f.records))
      && (scoped.Failure? ==> f.outcome == Raise(scoped.fault))
  {
  }

  /**
   * The checks `records_for` makes: one check of the action's query on the
   * to-one record (nil included); none on a to-many relationship for index
   * and show; otherwise the action's query on every scoped record, allowed
   * exactly when each passes; a refusal is the last check made.
   */
  lemma RecordsForChecks(policies: Policies, context: Context, s: Schema, klass: ResourceKlass, model: Record, name: string)
    requires s.relationship(klass, name).Some?
    ensures var g := Gate(Lookup(context, "user"), policies);
      var f := RecordsFor(policies, context, s, klass, model, name);
      var kind := s.relationship(klass, name).value.kind;
      var q := ActionQuery(context);
      var scoped := Records(policies, context, s.toMany(model, name));
      && (kind == ToOneKind ==>
            f.outcome.trace == [Check(SubjectOf(s.toOne(model, name)), q, Absent)]
            && (f.outcome.verdict.Allowed? <==> g.Permits(Check(SubjectOf(s.toOne(model, name)), q, Absent))))
      && (kind == ToManyKind && ActionIn(context, {"index", "show"}) ==> f == Fetched(Pass(), Many(scoped)))
      && (kind == ToManyKind && !ActionIn(context, {"index", "show"}) ==>
            (f.outcome.verdict.Allowed? <==> forall i :: 0 <= i < |scoped| ==> g.Permits(Check(Instance(scoped[i]), q, Absent))))
      && !f.outcome.verdict.Raised?
      && FailsFast(f.outcome, g.Grants())
  {
    var g := Gate(Lookup(context, "user"), policies);
    var scoped := Records(policies, context, s.toMany(model, name));
    AuthorizeFailsFast(g, SubjectOf(s.toOne(model, name)), ActionQuery(context));
    AuthorizeEachDecides(g, scoped, ActionQuery(context));
    AuthorizeEachFailsFast(g, scoped, ActionQuery(context));
  }

  /**
   * The as-written `records_for` raises on every to-many relationship for an
   * action other than index and show, even when the principal is permitted
   * on every record and the intended version lets the call through; on every
   * other path the two agree.
   */
  lemma AsWrittenRaisesOnToMany(policies: Policies, context: Context, s: Schema, klass: ResourceKlass, model: Record, name: string)
    ensures var rel := s.relationship(klass, name);
      var asWritten := RecordsForAsWritten(policies, context, s, klass, model, name);
      var intended := RecordsFor(policies, context, s, klass, model, name);
      var g := Gate(Lookup(context, "user"), policies);
      var scoped := Records(policies, context, s.toMany(model, name));
      && (rel.Some? && rel.value.kind == ToManyKind && !ActionIn(context, {"index", "show"}) ==>
            && asWritten.outcome == Raise(ArgumentError)
            && ((forall i :: 0 <= i < |scoped| ==> g.Permits(Check(Instance(scoped[i]), ActionQuery(context), Absent))) ==>
                  intended == Fetched(Outcome(Allowed, ChecksOn(scoped, ActionQuery(context))), Many(scoped))))
      && (rel.None? || rel.value.kind == ToOneKind || ActionIn(context, {"index", "show"}) ==> asWritten == intended)
  {
    var g := Gate(Lookup(context, "user"), policies);
    var scoped := Records(policies, context, s.toMany(model, name));
    AuthorizeEachDecides(g, scoped, ActionQuery(context));
  }

  /** A concrete request that shows it: an update of an article whose one comment the user may update. */
  lemma AsWrittenUpdateExample()
    ensures var comment := Record("Comment", 1);
      var article := Record("Article", 1);
      var context := map["user" := Obj(7), "action" := Text("update")];
      var s := Schema((k: ResourceKlass, n: string) => if n == "comments" then Some(Relationship(ToManyKind, "CommentResource")) else None,
                      (k: ResourceKlass) => k, (r: Record, n: string) => None, (r: Record, n: string) => [comment]);
      var policies := Policies((x: Subject, q: Query) => true, (u: Value) => (c: Check) => true, (u: Value) => (r: Record) => true);
      && RecordsForAsWritten(policies, context, s, "ArticleResource", article, "comments").outcome == Raise(ArgumentError)
      && RecordsFor(policies, context, s, "ArticleResource", article, "comments")
           == Fetched(Outcome(Allowed, [Check(Instance(comment), "update?", Absent)]), Many([comment]))
  {
    var comment := Record("Comment", 1);
    var context := map["user" := Obj(7), "action" := Text("update")];
    var policies := Policies((x: Subject, q: Query) => true, (u: Value) => (c: Check) => true, (u: Value) => (r: Record) => true);
    var g := Gate(Lookup(context, "user"), policies);
    assert Lookup(context, "action") == Text("update");
    assert ActionQuery(context) == "update?";
    assert !ActionIn(context, {"index", "show"});
    assert g.PolicyScope([comment]) == [comment] by {
      assert [comment][1..] == [];
    }
    assert g.AuthorizeEach([comment], "update?") == Outcome(Allowed, [Check(Instance(comment), "update?", Absent)]) by {
      assert [comment][1..] == [];
    }
  }
}
