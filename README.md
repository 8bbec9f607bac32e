# Role-based authorization engine in Dafny

This project models the authorization library of `index.js`. The library keeps two
module-level settings: an action table that maps action keys to permission rules, and a
role rule that says how to find a user's role. A role rule is either a field name or a
function of the user. Its operations are:

- `setConfig`, which overwrites the settings it is given;
- `checkRole`, which says whether a role is one of the required roles;
- `can`, which decides whether a user may perform an action, optionally on an item;
- `check`, which fails with `You don't have permission for <actionKey>` when `can` denies.

Files:

- `wrappers.dfy` (module `Wrappers`): `Option`, `Result` and `Outcome`.
- `authorization.dfy` (module `Authorization`): values, `checkRole` (`CheckRole` over
  `SomeEqual`), role resolution, the decision `can` as the pure function `Decide` of the
  settings, the `setConfig` merge, and the class `Authorizer`. The class holds the two
  module variables and has the methods `SetConfig` and `Check` and the function `Can`.
- `properties.dfy` (module `AuthorizationProperties`): lemmas on the decision and on
  configuration updates.
- `scenarios.dfy` (module `AuthorizationScenarios`): the exchange scenarios of `test.js`
  as lemmas, plus a client method that drives an `Authorizer` through them.

Modelling choices:

- JavaScript values that reach `===` are `Value = Undefined | Str | Num`. A user is a map
  from field names to values, and a missing field reads as `Undefined`.
- A rule's runtime shape is a constructor of `Rule`: `RoleName` for a string, `RoleList`
  for an array, `Composite` for an object with `role` and an optional `validate`, and
  `Other` for anything else. A composite rule without a `role` property requires
  `Single(Undefined)`, which matches only a user whose role is undefined. That is what
  `[undefined].some(...)` does.
- The TypeErrors the engine throws on a misconfiguration are explicit failures of `can`
  and `check`:
  - `RoleRuleMissing`: no role rule was set;
  - `ActionsMissing`: no action table was set;
  - `ValidateMissing`: a composite rule has no `validate`.
  The role is resolved before the action is looked up (index.js:37 before index.js:38),
  so an unset role rule wins.
- A composite rule without `validate` does NOT reduce to a plain role check. When the
  role matches, `||` short-circuits and the answer is true. When it does not, the source
  calls the missing `validate` and throws. The model follows the source here, not the
  looser reading that such a rule is "just the role check".
- `setConfig` stores a property only when it is truthy. An empty field name `""` is
  falsy, so `Truthy` ignores it. The argument type cannot express other falsy values
  (`0`, `false`, `null`), so they appear as an absent property (`None`).
- `check` has no `modifies` clause and `Can` only reads, so neither can change the
  configuration. `Check`'s out-parameter is `Pass` for a normal return and `Fail(e)`
  for a throw.

## Model

| member | source | states |
|---|---|---|
| `Authorization.SomeEqual` | index.js:15 | true exactly when some required role is strictly equal to the user's role |
| `Authorization.CheckRole` | index.js:12-16 | a single required role matches iff it equals the user's role; an array matches iff the user's role is one of its elements |
| `Authorization.DeniedMessage` | index.js:58 | the denial message is longer than the action key and ends with it |
| `Authorization.Decide` | index.js:36-44 | `can` is true only for a key the configured table holds; with no role rule set it fails with `RoleRuleMissing` |
| `Authorization.Authorizer.constructor` | index.js:2-3 | both settings start unset |
| `Authorization.Authorizer.SetConfig` | index.js:23-26 | the new settings are the old ones merged with the argument: a present action table replaces the stored one, a present truthy role rule replaces the stored one, and anything else is kept |
| `Authorization.Authorizer.Check` | index.js:56-60 | returns normally iff `can` is true; a denial fails with `You don't have permission for <actionKey>`; a configuration failure of `can` passes through unchanged |
| `AuthorizationProperties.FieldAndFunctionRulesAgree` | index.js:37 | a field rule and a function rule that yield the same role for a user yield the same decision for every action and item |
| `AuthorizationProperties.UnknownActionDenied` | index.js:38-43 | once configured, a key absent from the table is denied (false, not an error) for every user and item |
| `AuthorizationProperties.PlainRuleIsRoleCheck` | index.js:40 | for a string or array rule, `can` is exactly `checkRole` of the user's role, and the item does not affect it |
| `AuthorizationProperties.CompositeIsRoleOrValidate` | index.js:41 | for an object rule with `validate`, `can` is role match OR `validate(user, item)`, and false iff both fail |
| `AuthorizationProperties.CompositeRoleMatchSkipsValidate` | index.js:41 | when the role matches an object rule, the action is allowed whatever `validate` is, even when it is missing |
| `AuthorizationProperties.CompositeWithoutValidate` | index.js:41 | an object rule without `validate` fails with `ValidateMissing` exactly when the role does not match |
| `AuthorizationProperties.OtherRuleDenied` | index.js:40-43 | a rule that is neither string, array nor object denies everyone |
| `AuthorizationProperties.UnconfiguredFails` | index.js:37-38 | with a setting unset, `can` fails: an unset role rule first, then an unset action table |
| `AuthorizationProperties.MergeKeepsAbsentSettings` | index.js:24-25 | a setting the update does not carry stays as it was |
| `AuthorizationProperties.MergeIdempotent` | index.js:23-26 | applying the same update twice equals applying it once |
| `AuthorizationProperties.RoleThenActions` | index.js:23-26 | setting a role rule and then an action table keeps the role rule |
| `AuthorizationProperties.NewTableReplacesOld` | index.js:24 | a new action table replaces the old one wholesale: a key only the old table held is denied |
| `AuthorizationScenarios.CreateByField` | test.js:27-31 | with the role read from the `role` field, an admin may create an exchange and a teamleader may not |
| `AuthorizationScenarios.DeleteByOwnerOrAdmin` | test.js:43-67 | the owner who is an employee may delete, a non-owner employee may not, an admin may delete any exchange, a teamleader may not |
| `AuthorizationScenarios.DeniedCreateMessage` | test.js:69-76 | the denial message for `create-exchange` is `You don't have permission for create-exchange` |
| `AuthorizationScenarios.RoleMatchingIsExact` | src/test.js:9-27 | role matching is strict equality against one role or an array, with no case folding |

## Left out

- Caller-supplied `validate` predicates and role functions are total, pure Dafny functions. Their exceptions and side effects are not modelled.
- JavaScript object quirks are not modelled. This covers prototype-chain lookups on the action table (such as the key `constructor`) and a `null` rule, which `typeof` reports as an object and which then crashes at `action.role`. The action table is a finite map.
- Role values are `undefined`, strings or integers. Arrays or objects used as role values, which `===` compares by reference, are not modelled.
- A role rule other than a string or a function is not modelled. The source calls anything that is not a string as a function.
- `setConfig` with a falsy `actions` or `role` other than `""` (such as `0`, `false` or `null`) appears only as an absent property, because the argument type holds only tables and role rules.
- The thrown value is a bare string in the source. Here it is `Fail(PermissionDenied(message))`.
- `src/test.js` exercises a different `src/index.js`, with `getUserRole`, `getActionByKey` and `or`/`and` combinators. That file is not part of this model. Only the `checkRole` cases of `src/test.js` are used.
- Test-harness stubbing (`sinon`) and the `tape` runner are not modelled.
