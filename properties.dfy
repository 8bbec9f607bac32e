/** What `can`, `check` and `setConfig` promise, stated over the settings as a value. */
module AuthorizationProperties {
  import opened Wrappers
  import opened Authorization

  /** A field rule and a function rule that give the same role for a user give the
      same decision for that user, for every action and item. */
  lemma FieldAndFunctionRulesAgree<I>(table: Option<ActionTable<I>>, name: string, f: User -> Value,
                                      user: User, actionKey: string, item: I)
    requires f(user) == Field(user, name)
    ensures Decide(Settings(table, Some(ByField(name))), user, actionKey, item)
         == Decide(Settings(table, Some(ByFunction(f))), user, actionKey, item)
  {
  }

  /** Deny by default: once both settings are configured, a key the table does not
      hold is denied for every user and item, without an error. */
  lemma UnknownActionDenied<I>(settings: Settings<I>, user: User, actionKey: string, item: I)
    requires settings.role.Some? && settings.actions.Some?
    requires actionKey !in settings.actions.value
    ensures Decide(settings, user, actionKey, item) == Success(false)
  {
  }

  /** The roles a string or array rule requires, as `checkRole` receives them. */
  function PlainRequired<I>(rule: Rule<I>): Required
    requires rule.RoleName? || rule.RoleList?
  {
    if rule.RoleName? then Single(Str(rule.name)) else Many(rule.roles)
  }

  /** A string or array rule is exactly the role check, and the item is not looked at. */
  lemma PlainRuleIsRoleCheck<I>(settings: Settings<I>, user: User, actionKey: string, item: I, other: I)
    requires settings.role.Some? && settings.actions.Some?
    requires actionKey in settings.actions.value
    requires settings.actions.value[actionKey].RoleName? || settings.actions.value[actionKey].RoleList?
    ensures Decide(settings, user, actionKey, item)
         == Success(CheckRole(ResolveRole(settings.role, user).value, PlainRequired(settings.actions.value[actionKey])))
    ensures Decide(settings, user, actionKey, item) == Decide(settings, user, actionKey, other)
  {
  }

  /** A composite rule with a `validate` predicate allows the action when the role
      matches or the predicate holds of the user and the item, and denies it only
      when both fail. */
  lemma CompositeIsRoleOrValidate<I>(settings: Settings<I>, user: User, actionKey: string, item: I,
                                     required: Required, validate: (User, I) -> bool)
    requires settings.role.Some? && settings.actions.Some?
    requires actionKey in settings.actions.value
    requires settings.actions.value[actionKey] == Composite(required, Some(validate))
    ensures Decide(settings, user, actionKey, item)
         == Success(CheckRole(ResolveRole(settings.role, user).value, required) || validate(user, item))
    ensures Decide(settings, user, actionKey, item) == Success(false)
        <==> !CheckRole(ResolveRole(settings.role, user).value, required) && !validate(user, item)
  {
  }

  /** When the role matches a composite rule, the predicate is never consulted:
      the action is allowed whatever `validate` is, even when there is none. */
  lemma CompositeRoleMatchSkipsValidate<I>(settings: Settings<I>, user: User, actionKey: string, item: I)
    requires settings.role.Some? && settings.actions.Some?
    requires actionKey in settings.actions.value
    requires settings.actions.value[actionKey].Composite?
    requires CheckRole(ResolveRole(settings.role, user).value, settings.actions.value[actionKey].required)
    ensures Decide(settings, user, actionKey, item) == Success(true)
  {
  }

  /** A composite rule without `validate` fails (the call of a missing predicate)
      exactly when the role does not match. */
  lemma CompositeWithoutValidate<I>(settings: Settings<I>, user: User, actionKey: string, item: I)
    requires settings.role.Some? && settings.actions.Some?
    requires actionKey in settings.actions.value
    requires settings.actions.value[actionKey].Composite? && settings.actions.value[actionKey].validate.None?
    ensures Decide(settings, user, actionKey, item).Failure?
        <==> !CheckRole(ResolveRole(settings.role, user).value, settings.actions.value[actionKey].required)
    ensures Decide(settings, user, actionKey, item).Failure? ==>
              Decide(settings, user, actionKey, item).error == ValidateMissing
  {
  }

  /** Any rule of another shape (a number, a boolean, a function) denies everyone. */
  lemma OtherRuleDenied<I>(settings: Settings<I>, user: User, actionKey: string, item: I)
    requires settings.role.Some? && settings.actions.Some?
    requires actionKey in settings.actions.value && settings.actions.value[actionKey].Other?
    ensures Decide(settings, user, actionKey, item) == Success(false)
  {
  }

  /** A misconfigured store fails before any rule is looked at: first an unset role
      rule, then an unset action table. */
  lemma UnconfiguredFails<I>(settings: Settings<I>, user: User, actionKey: string, item: I)
    requires settings.role.None? || settings.actions.None?
    ensures Decide(settings, user, actionKey, item)
         == Failure(if settings.role.None? then RoleRuleMissing else ActionsMissing)
  {
  }

  /** `setConfig` leaves a setting it is not given untouched. */
  lemma MergeKeepsAbsentSettings<I>(settings: Settings<I>, update: Update<I>)
    ensures update.actions.None? ==> Merge(settings, update).actions == settings.actions
    ensures update.role.None? ==> Merge(settings, update).role == settings.role
  {
  }

  /** Calling `setConfig` twice with the same argument is the same as calling it once. */
  lemma MergeIdempotent<I>(settings: Settings<I>, update: Update<I>)
    ensures Merge(Merge(settings, update), update) == Merge(settings, update)
  {
  }

  /** Setting the role rule and then the action table keeps the role rule. */
  lemma RoleThenActions<I>(settings: Settings<I>, rule: RoleRule, table: ActionTable<I>)
    requires Truthy(rule)
    ensures Merge(Merge(settings, Update(None, Some(rule))), Update(Some(table), None))
         == Settings(Some(table), Some(rule))
  {
  }

  /** A new action table replaces the old one wholesale: a key only the old table
      held is denied afterwards. */
  lemma NewTableReplacesOld<I>(settings: Settings<I>, update: Update<I>, user: User, actionKey: string, item: I)
    requires update.actions.Some? && actionKey !in update.actions.value
    requires Merge(settings, update).role.Some?
    ensures Decide(Merge(settings, update), user, actionKey, item) == Success(false)
  {
  }
}
