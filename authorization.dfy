/** A role-based authorization decision engine: a configuration store holding an
    action table and a role-extraction rule, a role check, the decision `can`
    and the enforcing `check` that turns a denial into a failure. */
module Authorization {
  import opened Wrappers

  /** The JavaScript values that take part in role comparison. A user field that
      is missing reads as `Undefined`; `===` on these values is structural equality. */
  datatype Value = Undefined | Str(s: string) | Num(n: int)

  /** A user record: its fields by name. The library never changes it. */
  type User = map<string, Value>

  /** The value of `user[field]`: `Undefined` when the user has no such field. */
  function Field(user: User, field: string): Value
  {
    if field in user then user[field] else Undefined
  }

  /** How the role of a user is found: a field name, or a function of the user. */
  datatype RoleRule = ByField(name: string) | ByFunction(f: User -> Value)

  /** The roles an action requires: one role (any non-array value, including
      `undefined` when a composite rule has no `role` property) or an array of roles. */
  datatype Required = Single(role: Value) | Many(roles: seq<Value>)

  /** The permission rule stored under an action key, told apart by its runtime
      shape: a string, an array, an object with `role` and an optional `validate`
      predicate over the user and the item to validate, or anything else. */
  datatype Rule<!I> =
    | RoleName(name: string)
    | RoleList(roles: seq<Value>)
    | Composite(required: Required, validate: Option<(User, I) -> bool>)
    | Other

  /** The action table: action key to permission rule. */
  type ActionTable<!I> = map<string, Rule<I>>

  /** The two module-level settings; `None` is JavaScript's `undefined` (never set). */
  datatype Settings<!I> = Settings(actions: Option<ActionTable<I>>, role: Option<RoleRule>)

  /** The argument of `setConfig`: each property either present (and truthy) or not. */
  datatype Update<!I> = Update(actions: Option<ActionTable<I>>, role: Option<RoleRule>)

  /** The failures `can` and `check` signal. The first three are the TypeErrors the
      JavaScript engine throws on a misconfiguration; the last is `check`'s own. */
  datatype Error =
    | RoleRuleMissing        // `role(user)` when no role rule was ever set
    | ActionsMissing         // `actions[actionKey]` when no action table was ever set
    | ValidateMissing        // `action.validate(...)` on a composite rule without `validate`
    | PermissionDenied(message: string)

  /** The message `check` fails with when the user may not perform `actionKey`. */
  function DeniedMessage(actionKey: string): (message: string)
    ensures |message| > |actionKey| && message[|message| - |actionKey|..] == actionKey
  {
    "You don't have permission for " + actionKey
  }

  /** `roles.some(role => role === userRole)`. */
  function SomeEqual(roles: seq<Value>, userRole: Value): (found: bool)
    ensures found <==> exists i :: 0 <= i < |roles| && roles[i] == userRole
    ensures found <==> userRole in roles
  {
    if roles == [] then false
    else roles[0] == userRole || SomeEqual(roles[1..], userRole)
  }

  /** `checkRole`: a single required role is wrapped into a one-element array,
      then the user's role must be strictly equal to one of the required roles. */
  function CheckRole(userRole: Value, required: Required): (ok: bool)
    ensures required.Single? ==> (ok <==> userRole == required.role)
    ensures required.Many? ==> (ok <==> userRole in required.roles)
  {
    var requiredArray := match required
      case Single(r) => [r]
      case Many(rs) => rs;
    SomeEqual(requiredArray, userRole)
  }

  /** The user's role under the configured rule: the named field for a field rule,
      the function's value for a function rule; an unset rule cannot be called. */
  function ResolveRole(rule: Option<RoleRule>, user: User): Result<Value, Error>
  {
    match rule
    case None => Failure(RoleRuleMissing)
    case Some(ByField(name)) => Success(Field(user, name))
    case Some(ByFunction(f)) => Success(f(user))
  }

  /** The decision for one stored rule, once the user's role is known. */
  function Evaluate<I>(userRole: Value, rule: Rule<I>, user: User, item: I): Result<bool, Error>
  {
    match rule
    case RoleName(name) => Success(CheckRole(userRole, Single(Str(name))))
    case RoleList(roles) => Success(CheckRole(userRole, Many(roles)))
    case Composite(required, validate) =>
      if CheckRole(userRole, required) then Success(true)
      else if validate.None? then Failure(ValidateMissing)
      else Success(validate.value(user, item))
    case Other => Success(false)
  }

  /** `can(user, actionKey, itemToValidate)` under the given settings: resolve the
      role, look the action up, and deny any key the table does not hold. */
  function Decide<I>(settings: Settings<I>, user: User, actionKey: string, item: I): (r: Result<bool, Error>)
    ensures r == Success(true) ==> settings.actions.Some? && actionKey in settings.actions.value
    ensures settings.role.None? ==> r == Failure(RoleRuleMissing)
  {
    match ResolveRole(settings.role, user)
    case Failure(e) => Failure(e)
    case Success(userRole) =>
      match settings.actions
      case None => Failure(ActionsMissing)
      case Some(table) =>
        if actionKey in table then Evaluate(userRole, table[actionKey], user, item)
        else Success(false)
  }

  /** Whether `setConfig` stores a role rule: an empty field name is falsy in JavaScript. */
  predicate Truthy(rule: RoleRule)
  {
    !(rule.ByField? && rule.name == "")
  }

  /** The settings after `setConfig(update)`: each present property replaces the
      stored one wholesale; an absent one leaves it as it was. */
  function Merge<I>(settings: Settings<I>, update: Update<I>): Settings<I>
  {
    Settings(
      if update.actions.Some? then update.actions else settings.actions,
      if update.role.Some? && Truthy(update.role.value) then update.role else settings.role)
  }

  /** The module state of the library and its exported operations. */
  class Authorizer<!I> {
    var actions: Option<ActionTable<I>>
    var role: Option<RoleRule>

    /** The module as loaded: nothing configured yet. */
    constructor ()
      ensures actions == None && role == None
    {
      actions := None;
      role := None;
    }

    /** The current settings as a value. */
    function Current(): Settings<I>
      reads this
    {
      Settings(actions, role)
    }

    /** `setConfig(config)`: overwrite the stored fields the update carries. */
    method SetConfig(config: Update<I>)
      modifies this
      ensures Current() == Merge(old(Current()), config)
      ensures actions == if config.actions.Some? then config.actions else old(actions)
      ensures role == if config.role.Some? && Truthy(config.role.value) then config.role else old(role)
    {
      if config.actions.Some? {
        actions := config.actions;
      }
      if config.role.Some? && Truthy(config.role.value) {
        role := config.role;
      }
    }

    /** `can(user, actionKey, itemToValidate)` against the stored settings. */
    function Can(user: User, actionKey: string, item: I): Result<bool, Error>
      reads this
    {
      Decide(Current(), user, actionKey, item)
    }

    /** `check(user, actionKey, itemToValidate)`: returns normally exactly when `can`
        allows the action, fails with the permission message when `can` denies it,
        and lets a configuration failure of `can` through unchanged. */
    method Check(user: User, actionKey: string, item: I) returns (outcome: Outcome<Error>)
      ensures outcome == Pass <==> Can(user, actionKey, item) == Success(true)
      ensures Can(user, actionKey, item) == Success(false) ==>
                outcome == Fail(PermissionDenied(DeniedMessage(actionKey)))
      ensures Can(user, actionKey, item).Failure? ==>
                outcome == Fail(Can(user, actionKey, item).error)
    {
      var allowed := Can(user, actionKey, item);
      match allowed {
        case Failure(e) =>
          outcome := Fail(e);
        case Success(b) =>
          if !b {
            outcome := Fail(PermissionDenied(DeniedMessage(actionKey)));
          } else {
            outcome := Pass;
          }
      }
    }
  }
}
