/** The ownership rule shared by the services: a record carrying a therapist id
    belongs to that therapist, and the current user's id (given here as a parameter)
    decides what they may see. */
module Ownership {
  import opened Wrappers

  /** Python truthiness of the current user's id: set and not zero. */
  predicate UidPresent(uid: Option<int>)
  {
    uid.Some? && uid.value != 0
  }

  /** Whether a record's kind carries the owner attribute, and its value when it does. */
  datatype OwnerField = NoOwnerField | HasOwnerField(ownerId: Option<int>)

  datatype Instance = Instance(owner: OwnerField)

  /** `assert_owns`: no record is never owned; outside a user's context (no id) every
      record is; otherwise a record with the attribute is owned exactly when it holds
      the user's id, and one without it is owned. */
  function AssertOwns(instance: Option<Instance>, uid: Option<int>): (owned: bool)
    ensures instance.None? ==> !owned
    ensures instance.Some? && !UidPresent(uid) ==> owned
    ensures instance.Some? && UidPresent(uid) && instance.value.owner.HasOwnerField? ==>
              (owned <==> instance.value.owner.ownerId == uid)
    ensures instance.Some? && instance.value.owner.NoOwnerField? ==> owned
  {
    if instance.None? then false
    else if !UidPresent(uid) then true
    else match instance.value.owner
      case HasOwnerField(ownerId) => ownerId == uid
      case NoOwnerField => true
  }

  /** What `owned_query` does to a query. */
  datatype QueryDecision = Unfiltered | FilteredBy(uid: int)

  /** `owned_query`: the query is filtered on the user's id only when there is one and
      the model carries the owner attribute. */
  function OwnedQuery(uid: Option<int>, modelHasOwnerField: bool): (d: QueryDecision)
    ensures d.FilteredBy? <==> UidPresent(uid) && modelHasOwnerField
    ensures d.FilteredBy? ==> uid == Some(d.uid)
  {
    if !UidPresent(uid) then Unfiltered
    else if modelHasOwnerField then FilteredBy(uid.value)
    else Unfiltered
  }

  /** Whether a record comes through a query treated as decided. */
  predicate PassesFilter(d: QueryDecision, i: Instance)
  {
    match d
    case Unfiltered => true
    case FilteredBy(u) => i.owner.HasOwnerField? && i.owner.ownerId == Some(u)
  }

  /** The query and the check agree: a record of a model comes through the user's
      query exactly when the check says the user owns it. */
  lemma QueryAgreesWithCheck(uid: Option<int>, i: Instance)
    ensures PassesFilter(OwnedQuery(uid, i.owner.HasOwnerField?), i) <==> AssertOwns(Some(i), uid)
  {
  }

  /** A record whose owner attribute is empty is owned only outside a user's context. */
  lemma UnassignedRecord(uid: Option<int>)
    ensures AssertOwns(Some(Instance(HasOwnerField(None))), uid) <==> !UidPresent(uid)
  {
  }
}
