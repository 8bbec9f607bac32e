/** The library's own usage scenarios: an exchange app where any employee or admin
    may create an exchange, and an admin or the exchange's owner may delete one. */
module AuthorizationScenarios {
  import opened Wrappers
  import opened Authorization
  import opened AuthorizationProperties

  /** An exchange, the item a `delete-exchange` decision validates. */
  datatype Exchange = Exchange(id: int, ownerId: int)

  function UserWith(id: int, role: string): User
  {
    map["id" := Num(id), "role" := Str(role)]
  }

  const Employee: User := UserWith(1, "employee")
  const Admin: User := UserWith(2, "admin")
  const Teamleader: User := UserWith(3, "teamleader")
  const ExchangeA: Exchange := Exchange(1, 1)
  const ExchangeB: Exchange := Exchange(2, 2)

  /** `validate`: the exchange belongs to the user. */
  function OwnsExchange(user: User, exchange: Exchange): bool
  {
    Field(user, "id") == Num(exchange.ownerId)
  }

  const Actions: ActionTable<Exchange> := map[
    "create-exchange" := RoleList([Str("employee"), Str("admin")]),
    "delete-exchange" := Composite(Single(Str("admin")), Some(OwnsExchange))
  ]

  /** The role as a function of the user, standing in for `user => user.role`. */
  function RoleOf(user: User): Value
  {
    Field(user, "role")
  }

  /** With the role read from the `role` field, an admin may create an exchange
      and a teamleader may not. */
  lemma CreateByField()
    ensures Decide(Settings(Some(Actions), Some(ByField("role"))), Admin, "create-exchange", ExchangeA) == Success(true)
    ensures Decide(Settings(Some(Actions), Some(ByField("role"))), Teamleader, "create-exchange", ExchangeA) == Success(false)
  {
  }

  /** A composite rule is "role or owner": the owner who is not an admin may delete,
      a non-owner non-admin may not, and an admin may whoever owns the exchange. */
  lemma DeleteByOwnerOrAdmin()
    ensures Decide(Settings(Some(Actions), Some(ByFunction(RoleOf))), Employee, "delete-exchange", ExchangeA) == Success(true)
    ensures Decide(Settings(Some(Actions), Some(ByFunction(RoleOf))), Employee, "delete-exchange", ExchangeB) == Success(false)
    ensures Decide(Settings(Some(Actions), Some(ByFunction(RoleOf))), Admin, "delete-exchange", ExchangeA) == Success(true)
    ensures Decide(Settings(Some(Actions), Some(ByFunction(RoleOf))), Admin, "delete-exchange", ExchangeB) == Success(true)
    ensures Decide(Settings(Some(Actions), Some(ByFunction(RoleOf))), Teamleader, "delete-exchange", ExchangeB) == Success(false)
  {
  }

  /** `check`'s message for a denied `create-exchange`. */
  lemma DeniedCreateMessage()
    ensures DeniedMessage("create-exchange") == "You don't have permission for create-exchange"
  {
  }

  /** Role matching is strict equality: no case folding, and a missing role never
      matches a named one. */
  lemma RoleMatchingIsExact()
    ensures CheckRole(Str("employee"), Many([Str("admin"), Str("employee")]))
    ensures !CheckRole(Str("employee"), Many([Str("teamleader"), Str("admin")]))
    ensures !CheckRole(Str("Admin"), Single(Str("admin")))
    ensures !CheckRole(Undefined, Single(Str("admin")))
  {
  }

  /** The store configured as the scenarios do: the table and a field rule first,
      then only a function rule, which keeps the table. */
  method ConfigureAndCheck()
  {
    var auth := new Authorizer<Exchange>();
    auth.SetConfig(Update(Some(Actions), Some(ByField("role"))));
    assert auth.Can(Admin, "create-exchange", ExchangeA) == Success(true) by {
      CreateByField();
    }
    auth.SetConfig(Update(None, Some(ByFunction(RoleOf))));
    assert auth.actions == Some(Actions);
    assert auth.Can(Admin, "create-exchange", ExchangeA) == Success(true);
    assert auth.Can(Teamleader, "create-exchange", ExchangeA) == Success(false) by {
      CreateByField();
      FieldAndFunctionRulesAgree(Some(Actions), "role", RoleOf, Teamleader, "create-exchange", ExchangeA);
    }
    var outcome := auth.Check(Teamleader, "create-exchange", ExchangeA);
    assert outcome == Fail(PermissionDenied(DeniedMessage("create-exchange")));
  }
}
