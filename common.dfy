/** Identifiers, instants and the exceptions shared by every layer of the model. */
module Common {

  /** A GUID. Its 128 bits are abstracted to a natural number. */
  type Guid = nat

  /** `Guid.Empty`, which the source uses as its "no tenant" sentinel. */
  const EmptyGuid: Guid := 0

  /** A `DateTime` value, in ticks. The clock is always an input of the model. */
  type Time = int

  /** The exceptions the modelled code throws or lets escape. */
  datatype Error =
    | NoTenantContext        // InvalidOperationException from TenantProvider.TenantId
    | SubdomainTaken         // InvalidOperationException from CreateTenantCommandHandler
    | EmailTaken             // InvalidOperationException from CreateUserCommandHandler
    | NullReference          // awaiting a null task in the transaction methods
    | DatabaseFailure        // an exception raised by the database provider
    | HandlerFailure         // an exception raised by an inner request handler

  /** `Guid.NewGuid()`: every call yields an identifier never seen before, and never `Guid.Empty`. */
  class GuidSource {
    var next: nat
    ghost var issued: set<Guid>

    ghost predicate Valid()
      reads this
    {
      0 < next && forall g :: g in issued ==> 0 < g < next
    }

    constructor ()
      ensures Valid() && issued == {}
    {
      next := 1;
      issued := {};
    }

    method NewGuid() returns (g: Guid)
      requires Valid()
      modifies this
      ensures Valid()
      ensures g != EmptyGuid && g !in old(issued)
      ensures issued == old(issued) + {g}
    {
      g := next;
      next := next + 1;
      issued := issued + {g};
    }
  }
}
