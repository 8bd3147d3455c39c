# IAM client: access decisions, team membership, gateway responses, sessions

A Dafny model of the local logic of a PHP client for an external Identity &
Access Management service:

- **Users** (`user.dfy`): the Organization, Project and User records; a
  user's role is derived (`admin` exactly when its organization's type is
  `primary`); username and password getters; the two display-name rules,
  which keep only PHP-truthy names (`""` and `"0"` are falsy).
- **Teams** (`team.dfy`): the Team class with its ordered `users` list, the
  constructor's "organization or project" parent rule, the member list
  edits (`getUsers`, `getUser`, `addUser`, `removeUser`), the stored and
  serialised member projections, and the `determineAccess` decision
  (`''`, `'r'` or `'rw'`) with the `mayAccess` / `mayModify` queries built on it.
- **Gateway** (`gateway.dfy`): the normalisation of the `Content-Type`
  header, the classification of a response as not-found, an error with its
  message, or decoded data, and the payload that creates a one-time session.
- **Sessions** (`session.dfy`): building a Session and its bound User and
  Organization from a session response or a decoded mock, the guest user of
  a session without a party, and the process-wide current session.
- `php.dfy` and `wrappers.dfy` hold the PHP value rules the rest uses:
  decoded JSON values, truthiness, loose `==` on ids, `join`, and reading
  entries of an associative array; `None` stands for `null`.

Modelling decisions:

- Identifiers are `Option<string>`. `determineAccess` compares organization
  ids with PHP's loose `==`, in which `null` equals `null` and `""`; reading
  through an unset organization (a team parented by a project) gives `null`.
  So a team without an organization grants `'rw'` to the guest user, whose
  organization id is `null` (`Teams.NullIdsGrantReadWrite`).
- A team member is a snapshot (a value) of the added user with the
  membership annotations `role`, `leader` and `contact`.
- `getId()` is called by Team but is not defined in the User class; the
  model reads the user's `_id`, which is the property every other line of
  these files reads or writes for a user's identity.
- `mayAccess` and `mayModify` are methods of User but are modelled in `Teams`
  (`Teams.MayAccess`, `Teams.MayModify`): they consult a team, and `Users`
  cannot import `Teams`, which already imports `Users`.
- `removeUser` is declared with a `User` parameter type, so its `string` id
  branch cannot be reached; the model takes a member. `getUser` takes the id.
- `Team` constructor: `loaded` stands for parent properties that the
  document mapper may already have assigned before the constructor body
  runs; a team created in code passes `Owner(None, None)`.
- JSON decoding is a parameter (`decode` in `Gateway.Classify`); the session
  response and the mock arrive already decoded. The clock is a parameter
  (`now`). The warning of `getCurrent` is an output flag.
- Line 70 of `src/IAM.php` reads the body through `body()` whereas line 64
  uses `getBody()`; both are modelled as the response body.
- Organization.php is not part of this model; a fresh Organization is taken
  to have `null` for `_id` and `type`.

## Model

| member | source | states |
|---|---|---|
| `Users.GetUsername` | src/IAM/User.php:51-54 | the username is the e-mail when it is set, otherwise null |
| `Users.GetPassword` | src/IAM/User.php:61-64 | the password when it is set, otherwise null |
| `Users.GetRole` | src/IAM/User.php:71-74 | the role is `admin` iff the organization is set and its type is exactly `primary`; otherwise null |
| `Users.HasRole` | src/IAM/User.php:82-85 | `hasRole(r)` holds iff `r` is `admin` and the organization is primary, or `r` is null and it is not |
| `Users.AdminIffPrimary` | src/IAM/User.php:82-85 | `hasRole('admin')` holds iff the organization is primary, `hasRole(null)` iff it is not |
| `Users.FullName` | src/IAM/User.php:135-142 | truthy first then last name joined by one space; the single truthy one alone; `''` when neither is truthy |
| `Users.ToString` | src/IAM/User.php:149-156 | truthy last then first name joined by `', '`; the single truthy one alone; `''` when neither is truthy |
| `Users.JsonSerialize` | src/IAM/User.php:163-175 | the `name` entry always equals the full name; `_id`, `first_name`, `last_name`, `gender` and `email` are serialised as their text or null |
| `Teams.ResolveOwner` | src/IAM/Team.php:128-136 | with no parent property set, an organization parent sets only `organization`, a project parent only `project`, anything else neither; an already-set parent is kept; both are set only if both were already set |
| `Teams.Team.constructor` | src/IAM/Team.php:128-136 | the parent properties are those the parent rule chooses; the member list starts empty |
| `Teams.ListedMembersSpec` | src/IAM/Team.php:143-153 | the listing holds exactly the members that have a last name, is no longer than the list, and is the whole list when every member has one |
| `Teams.ListedAppend` | src/IAM/Team.php:147-150 | listing distributes over concatenation, so members keep their relative order |
| `Teams.Team.GetUsers` | src/IAM/Team.php:143-153 | returns the listed members in list order, changing nothing |
| `Teams.FirstWithIdSpec` | src/IAM/Team.php:165-167 | the search finds nothing iff no member has the id; otherwise it finds the member at the first index with that id |
| `Teams.FindListedSpec` | src/IAM/Team.php:161-170 | a member found by id is a listed member of the team with that id; nothing is found iff no listed member has the id |
| `Teams.Team.GetUser` | src/IAM/Team.php:161-170 | returns the first listed member whose id is strictly equal to the given one, or null iff no listed member has it |
| `Teams.Team.AddUser` | src/IAM/Team.php:178-188 | the list afterwards is the old one when a listed member has the id (and that member is returned), otherwise the old one with the given user appended (and the user is returned) |
| `Teams.AddedSpec` | src/IAM/Team.php:178-188 | adding leaves the list unchanged iff a listed member has the id; otherwise exactly the user is appended after the untouched earlier entries |
| `Teams.AddListedTwice` | src/IAM/Team.php:180-185 | adding a user with a last name twice equals adding it once |
| `Teams.AddPlaceholderTwice` | src/IAM/Team.php:165 | adding a user without a last name twice appends two copies, since the duplicate check searches only listed members |
| `Teams.ListedAfterAdd` | src/IAM/Team.php:178-188 | after adding, the listing gains the user at the end iff it was not found and has a last name |
| `Teams.Team.RemoveUser` | src/IAM/Team.php:195-205 | the list afterwards is the old one with its first entry of that id removed |
| `Teams.RemovedAt` | src/IAM/Team.php:199-203 | removal drops exactly the entry at the first index with the id, placeholders included, and keeps the others in order |
| `Teams.RemovedAbsent` | src/IAM/Team.php:199-204 | removing an id no entry has changes nothing |
| `Teams.RemoveAfterAdd` | src/IAM/Team.php:178-205 | when no entry has the user's id, adding then removing the user restores the list |
| `Teams.RemoveAfterAddHitsPlaceholder` | src/IAM/Team.php:165-201 | with a placeholder holding the id, adding a listed user appends it and removing the id then deletes the placeholder, not the new member |
| `Teams.Store` | src/IAM/Team.php:97-102 | a stored record keeps id and role (null by default) and holds leader and contact as true only when set to true |
| `Teams.Team.ToData` | src/IAM/Team.php:96-103 | one stored record per member, same count and order |
| `Teams.Team.JsonSerialize` | src/IAM/Team.php:238-250 | the serialised team has `organization`/`project` entries iff they are set, and its `users` are exactly the listed members in order |
| `Teams.Team.ToString` | src/IAM/Team.php:213-216 | the team's name, or `''` without one |
| `Teams.Team.DetermineAccess` | src/IAM/Team.php:259-266 | the result is `''`, `'r'` or `'rw'`; `''` without a user; `'rw'` iff there is a user who is admin or whose organization id loosely equals the team's; otherwise `'r'` iff the team's organization is primary |
| `Teams.MayAccess` | src/IAM/User.php:112-115 | may access iff the team's access string for the user is `'r'` or `'rw'` (it contains `r`) |
| `Teams.MayModify` | src/IAM/User.php:124-127 | may modify iff the team's access string for the user is `'rw'` (it contains `w`) |
| `Teams.PermissionsFromAccess` | src/IAM/User.php:112-127 | may-access iff the access is not `''`, may-modify iff it is `'rw'`; may-modify implies may-access |
| `Teams.AdminOrSameOrganizationMayModify` | src/IAM/Team.php:263 | an admin, or a user of the team's own organization, may access and modify the team for any scope |
| `Teams.OutsiderOnPrimaryTeam` | src/IAM/Team.php:263-264 | a non-admin from another organization gets `'r'` on a primary team: may access, may not modify |
| `Teams.OutsiderOnOtherTeam` | src/IAM/Team.php:263-265 | a non-admin from another organization gets `''` on a non-primary team |
| `Teams.NullIdsGrantReadWrite` | src/IAM/Team.php:263 | a team without an organization grants `'rw'` to every user whose organization id loosely equals null (null or `""`, whatever the organization's type), and to a user without an organization |
| `Gateway.IndexOf` | src/IAM.php:56 | the first index of a character, with no earlier occurrence, or the length when it is absent |
| `Gateway.TrimEnd` | src/IAM.php:56 | the longest prefix not ending in whitespace such that only whitespace follows it |
| `Gateway.StripParameters` | src/IAM.php:56 | a header without `;` is unchanged; otherwise the result is the prefix before the first `;` minus the whitespace right before it, and holds no `;` |
| `Gateway.StripCharsetExample` | src/IAM.php:56 | `application/json; charset=utf-8` normalises to `application/json` |
| `Php.NatToStringValue` | src/IAM.php:65 | the status text in an error message is the decimal writing of the status: it reads back as the same number and, for a positive status, has no leading zero |
| `Gateway.Classify` | src/IAM.php:55-73 | not-found iff status 404 with `text/plain`; data iff status below 300, an accepted type and a truthy decoded body, which is the data; every other response is an error whose message is the body for `text/plain`, the status-and-type text for other types, and `Corrupt JSON response` for a falsy decoded body |
| `Gateway.NotFoundNeedsPlainText` | src/IAM.php:59-66 | a 404 with a JSON content type is an error naming the status and type |
| `Gateway.PlainTextErrorCarriesBody` | src/IAM.php:62-66 | a plain-text error response carries its body as the message |
| `Gateway.OneTimeSessionPayload` | src/IAM.php:124-130 | the payload has `user` iff the party is a User, `party` otherwise, never both; `action.state` is the state; `action.data` is present iff data is given, and is that data |
| `Sessions.OrganizationFromValues` | src/IAM/Session.php:42-43 | the organization's id and type come from the `_id` and `type` entries |
| `Sessions.UserFromValues` | src/IAM/Session.php:46-47 | the user's `_id`, names, gender, e-mail and password come from the entries of the same name; no organization yet |
| `Sessions.BindUser` | src/IAM/Session.php:41-48 | the organization is built from the nested `organization` entry and the user's own properties from the other entries |
| `Sessions.BindUserOrganizationEntry` | src/IAM/Session.php:43-44 | changing the payload's `organization` entry changes only the bound organization |
| `Sessions.AnonymousUser` | src/IAM/Session.php:50-53 | the guest user has a null id and an organization with a null id, and no role |
| `Sessions.SessionUser` | src/IAM/Session.php:41-54 | with a `user` entry the user is bound from it, otherwise it is the guest; the user always has an organization |
| `Sessions.GuestIsNotAdmin` | src/IAM/Session.php:49-54 | a session without a party binds a user who is not an admin and has null ids |
| `Sessions.MockSession` | src/IAM/Session.php:66-83 | the mock's id comes from `_id`, its date from `date.date` (else the clock), and its user is bound as in a gateway session |
| `Sessions.MockWithoutUserIsGuest` | src/IAM/Session.php:74-80 | a mock without a user object binds the same guest user |
| `Sessions.SessionBinder.Request` | src/IAM/Session.php:32-59 | no response: returns nothing and the current session is unchanged; a response: returns a session with the requested id, the clock's date and the bound user, and makes it current |
| `Sessions.SessionBinder.CreateMock` | src/IAM/Session.php:66-84 | returns the mock session built from the values and makes it current |
| `Sessions.SessionBinder.GetCurrent` | src/IAM/Session.php:89-96 | returns the current session; warns iff there is none |

## Left out

- HTTP transport (client construction, headers, timeout, the request itself) is network I/O; `Gateway.Classify` starts from the status, header and body.
- The gateway wrappers `getUser`, `getOrganization`, `getSession` and the rest of `createOneTimeSession` only forward to the request and to `fromData` mappers that are not part of this model.
- `json_encode`/`json_decode`: decoding is a parameter; numbers are integers only, so a float `0.0` body is not modelled.
- The document-database plumbing of Team (collection, search fields, field map, query filter, sorting, soft deletion, the parent `toData`/`jsonSerialize`/`asListItem`) is library code not part of this model; `ToData` gives only the member records and `JsonSerialize` only the modelled properties.
- The team's own `type` and `_sort` properties: no modelled operation reads them.
- Teams.Team.AddUser: the returned member is a value, not linked to the stored entry, so a caller cannot change a stored member's role, leader or contact through it (as the source's callers do before saving); role, leader and contact can only come from the added user. The same holds for the member `Teams.Team.GetUser` returns.
- Teams.Team.RemoveUser: PHP `unset` leaves a gap in the array's keys; the model keeps only the iteration order, not the keys, so how such an array is later encoded is not captured.
- Teams.Team.JsonSerialize: dropping placeholders with `unset` leaves the same gaps, so a team whose placeholder comes before a listed member serialises `users` with non-consecutive keys; the model gives the listed members as a sequence.
- Php.LooseEquals: two non-null ids compare as plain strings; PHP's `==` compares two numeric strings by value, which the model does not capture.
- Gateway.StripParameters: the header is taken to hold no line break after its first `;` (the pattern's `.` does not match one); HTTP header values cannot hold one.
- Users.JsonSerialize: the reflection-based dump of every public and dynamic property is reduced to six keys: `_id`, `first_name`, `last_name`, `gender`, `email` and `name`. The dump would also emit `password` when it was set, the declared `id` property, `organization` and `team`; the model drops them. The model always emits `_id` (as null when unset), whereas `_id` is a dynamic property that the dump holds only once something has assigned it; the declared `first_name`, `last_name`, `gender` and `email` are always present in both.
- Sessions.UserFromValues: `setValues` is reduced to reading string entries; non-string values of those entries are read as null, and other entries are dropped.
- Sessions.SessionBinder.Request: `response` covers only the gateway's found and not-found answers. A gateway error (a bad status, a bad content type, a corrupt body) is an exception in the source that propagates out of `Session::request` before `self::$session` is assigned, so it leaves the current session unchanged; the model has no such outcome.
- Date parsing (`new DateTime(...)`) is not modelled: a session's date is the given text or the clock reading.
- `onLogin`/`onLogout` are constant callbacks.
- The user's `team` property is not modelled: nothing here reads it.
- Project's `__toString`; Project is only a team's parent here.
- Concurrent use of the process-wide current session.
