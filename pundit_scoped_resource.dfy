/**
 * `JSONAPI::Authorization::PunditScopedResource`: a resource mixin that
 * narrows what a resource lists to the principal's policy scope, without
 * any per-record check.
 */
module PunditScopedResource {
  import opened Outcomes
  import opened Pundit
  import opened IncludeWalk

  /**
   * `records(options)`: the policy scope of the model class for the
   * context's user; `all` is every record of the model class.  The scope only
   * drops records, and keeps exactly those the principal may see.
   */
  function Records(policies: Policies, context: Context, all: seq<Record>): (r: seq<Record>)
    ensures multiset(r) <= multiset(all)
    ensures forall x :: x in r <==> x in all && policies.visible(Lookup(context, "user"))(x)
  {
    var g := Gate(Lookup(context, "user"), policies);
    PolicyScopeOnlyDrops(g, all);
    g.PolicyScope(all)
  }

  /**
   * `records_for(name)` on the resource wrapping `model`: a to-one
   * relationship answers the associated record (or nil) as it is; a to-many
   * one answers the association narrowed by the policy scope; any other
   * relationship raises.
   */
  function RecordsFor(policies: Policies, context: Context, s: Schema, klass: ResourceKlass, model: Record, name: string): (r: Result<Related>)
    ensures s.relationship(klass, name).None? <==> r == Failure(UnexpectedRelationship)
    ensures s.relationship(klass, name).Some? && s.relationship(klass, name).value.kind == ToOneKind ==>
      r == Success(FromOption(s.toOne(model, name)))
    ensures s.relationship(klass, name).Some? && s.relationship(klass, name).value.kind == ToManyKind ==>
      && r.Success? && r.value.Many?
      && multiset(r.value.records) <= multiset(s.toMany(model, name))
      && forall x :: x in r.value.records <==> x in s.toMany(model, name) && policies.visible(Lookup(context, "user"))(x)
  {
    match s.relationship(klass, name)
    case None => Failure(UnexpectedRelationship)
    case Some(rel) =>
      match rel.kind
      case ToOneKind => Success(FromOption(s.toOne(model, name)))
      case ToManyKind => Success(Many(Records(policies, context, s.toMany(model, name))))
  }
}
