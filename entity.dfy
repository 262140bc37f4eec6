/** The `Entity` base class: identity-based equality and the list of raised domain events. */
module DomainEntity {
  import opened Common

  /** The concrete entity classes; a value of this type stands for `GetType()`. */
  datatype EntityType = TenantType | UserType | RoleType | UserRoleType | RolePermissionType

  /** A raised domain event. Events are opaque to the model. */
  datatype DomainEvent = DomainEvent(name: string)

  /** `Guid.GetHashCode()`: a 32-bit hash that depends on the identifier alone. */
  function GuidHash(g: Guid): int {
    g % 0x1_0000_0000 - 0x8000_0000
  }

  class Entity {
    const id: Guid
    const runtimeType: EntityType
    var domainEvents: seq<DomainEvent>

    constructor (runtimeType: EntityType, id: Guid)
      ensures this.runtimeType == runtimeType && this.id == id
      ensures domainEvents == []
    {
      this.runtimeType := runtimeType;
      this.id := id;
      domainEvents := [];
    }

    /** `Raise`: the event is appended after every event raised before it. */
    method Raise(domainEvent: DomainEvent)
      modifies this`domainEvents
      ensures domainEvents == old(domainEvents) + [domainEvent]
    {
      domainEvents := domainEvents + [domainEvent];
    }

    /** `ClearDomainEvents`: no event remains. */
    method ClearDomainEvents()
      modifies this`domainEvents
      ensures domainEvents == []
    {
      domainEvents := [];
    }

    /** `Equals(object?)`: a non-entity or null is never equal; the same object always is;
        otherwise the runtime types and the identifiers must agree. */
    predicate Equals(obj: object?)
      ensures Equals(obj) ==> obj is Entity && (obj as Entity).id == id
      ensures obj == this ==> Equals(obj)
    {
      if !(obj is Entity) then false
      else if obj == this then true
      else if runtimeType != (obj as Entity).runtimeType then false
      else id == (obj as Entity).id
    }

    /** `GetHashCode`: an `int`, determined by the identifier. */
    function GetHashCode(): (h: int)
      ensures -0x8000_0000 <= h < 0x8000_0000
    {
      GuidHash(id)
    }
  }

  /** `operator ==`, which defers to the static `object.Equals(left, right)`. */
  predicate OpEquals(left: Entity?, right: Entity?)
    ensures OpEquals(left, right) <==>
      (left == null && right == null) || (left != null && right != null && left.Equals(right))
  {
    if left == right then true
    else if left == null || right == null then false
    else left.Equals(right)
  }

  /** `operator !=`. */
  predicate OpNotEquals(left: Entity?, right: Entity?)
    ensures OpNotEquals(left, right) <==>
      (left == null) != (right == null) || (left != null && right != null && !left.Equals(right))
  {
    !OpEquals(left, right)
  }

  /** Equality is value equality on the pair (runtime type, identifier). */
  lemma EqualsIff(a: Entity, obj: object?)
    ensures a.Equals(obj) <==>
      obj is Entity && (obj as Entity).runtimeType == a.runtimeType && (obj as Entity).id == a.id
  {
  }

  lemma EqualsReflexive(a: Entity)
    ensures a.Equals(a)
  {
  }

  lemma EqualsSymmetric(a: Entity, b: Entity)
    ensures a.Equals(b) <==> b.Equals(a)
  {
  }

  lemma EqualsTransitive(a: Entity, b: Entity, c: Entity)
    requires a.Equals(b) && b.Equals(c)
    ensures a.Equals(c)
  {
  }

  /** Equal entities have equal hash codes. */
  lemma EqualsImpliesSameHash(a: Entity, b: Entity)
    requires a.Equals(b)
    ensures a.GetHashCode() == b.GetHashCode()
  {
  }

  /** `==` holds of two nulls, fails for null against an entity, and `!=` is its negation. */
  lemma OperatorNullCases(e: Entity)
    ensures OpEquals(null, null)
    ensures !OpEquals(null, e) && !OpEquals(e, null)
    ensures OpNotEquals(null, e) && OpNotEquals(e, null) && !OpNotEquals(null, null)
  {
  }

  /** On two entities, `==` is `Equals`. */
  lemma OperatorAgreesWithEquals(a: Entity, b: Entity)
    ensures OpEquals(a, b) <==> a.Equals(b)
  {
  }
}
