# tgstation-server: user management, authentication context, chat command wiring, API routes

This project models four parts of tgstation-server in Dafny and proves
properties of the model:

- **The user controller.** It creates, updates, reads and lists the server's
  user accounts. The accounts are stored in a table in the database context.
  A new account gets exactly one credential: a password, or an
  operating-system account found through its system identifier. Its
  canonical name is its upper-cased name. An update may only change the
  capitalization of a name. A caller with `EditOwnPassword` but without
  `WriteUsers` may only change their own password.
- **The authentication context.** This is the request's user, their optional
  instance user and their optional system identity. It reports each rights
  category live from the user or the instance user.
- **The chat command factory.** It is wired exactly once with an instance's
  watchdog. After that, it produces the four chat commands of the instance.
- **The API route constants and their two extension helpers.**

Modules:

| module | file | contents |
|---|---|---|
| `Wrappers` | wrappers.dfy | `Option`, `Result` |
| `Text` | text.dfy | `String.Trim` and `ToUpperInvariant`, on ASCII |
| `Rights` | rights.dfy | rights masks as `bv64`, `HasFlag`, the rights categories |
| `Models` | models.dfy | the `User` and `InstanceUser` entities (classes), a value snapshot `UserRecord`, the API view `UserView` |
| `Security` | security.dfy | `AuthenticationContext`, the system-identity outcome, the cryptography suite as a recorded effect |
| `Database` | database.dfy | the user table (`map` from id to `User`), id allocation, the commit counter |
| `Controllers` | user_controller.dfy | `UserController`, the pure decision functions `PlanCreate` and `ApplyUpdate` |
| `Commands` | command_factory.dfy | `CommandFactory` and the command tags |
| `Routes` | routes.dfy | the route constants, `SetID`, `ListRoute`, formatting and parsing of decimals |

The three request-level operations below are methods on a class, each
proved against a pure function:

- `Create` is proved against `PlanCreate`.
- `Update` is proved against `ApplyUpdate` and `UpdateTarget`.
- `GenerateCommands` is proved against `CommandList`.

The properties are then proved about those functions.

A route attribute `[TgsAuthorize(R)]` becomes a method precondition: the
caller's administration rights hold at least one flag of `R`.

Rights masks have the following placeholder values:

| flag | value |
|---|---|
| `WriteUsers` | 1 |
| `EditOwnPassword` | 8 |
| `ReadUsers` | 16 |

The enum declarations are not part of this model. Each proof uses only the
fact that the flags are distinct single bits.

Two behaviours of the code that the model keeps:

- **The authentication context check is asymmetric.** The construction
  tests (TestAuthenticationContext.cs:23, 30-34) show two things:
  - a system identity beside a user without a system identifier is accepted;
  - a user with a system identifier but no system identity is rejected.

  `ConstructionError` states exactly this. It does not state an
  "if and only if" between the two.
- **Update can give a system-identifier account a password.** Update
  (UserController.cs:202-207) sets the password without checking the
  account's system identifier. So the "exactly one credential" rule holds
  after `Create` but not after `Update`.
  `Controllers.UpdateCanGiveSystemUserPassword` proves that such an update
  succeeds and leaves the account with both credentials.

## Model

| member | source | states |
|---|---|---|
| Text.Trim | src/Tgstation.Server.Host/Controllers/UserController.cs:112 | the result is the input with only leading and trailing white space cut: a slice of the input with only white space before and after it, no white space at either end, and empty exactly when the input is all white space |
| Text.TrimStart | src/Tgstation.Server.Host/Controllers/UserController.cs:112 | the result is a suffix of the input, does not start with white space, and only white space was removed |
| Text.TrimEnd | src/Tgstation.Server.Host/Controllers/UserController.cs:112 | the result is a prefix of the input, does not end with white space, and only white space was removed |
| Text.Upper | src/Tgstation.Server.Host/Controllers/UserController.cs:157 | the canonical name has the name's length and upper-cases it character by character |
| Text.Utf16Length | src/Tgstation.Server.Host/Controllers/UserController.cs:84 | the length a password check compares: UTF-16 code units, between the number of characters and twice that |
| Text.Utf16LengthOfBmp | src/Tgstation.Server.Host/Controllers/UserController.cs:84 | for characters inside the Basic Multilingual Plane the UTF-16 length is the number of characters |
| Text.Utf16LengthOfAstral | src/Tgstation.Server.Host/Controllers/UserController.cs:84 | three characters outside the Basic Multilingual Plane count as six |
| Text.UpperKeepsColons | src/Tgstation.Server.Host/Controllers/UserController.cs:209 | a name contains a colon exactly when its upper-cased form does |
| Routes.ControllerRouteConstants | src/Tgstation.Server.Api/Routes.cs:14-79 | `User` is "/User", `Jobs` is "/Job", `InstanceManager` is "/Instance", `ConfigurationFile` is "/Config/File", and every controller route is the root followed by one segment without a slash |
| Routes.NatDigits | src/Tgstation.Server.Api/Routes.cs:92 | invariant-culture digits: at least one, all decimal digits, no separators, no leading zero |
| Routes.ParseNatDigits | src/Tgstation.Server.Api/Routes.cs:92 | reading the digits of n back gives n |
| Routes.Decimal | src/Tgstation.Server.Api/Routes.cs:92 | the id text: a minus sign exactly for a negative id, then digits without separators and without a leading zero |
| Routes.DecimalRoundTrip | src/Tgstation.Server.Api/Routes.cs:92 | formatting any integer, negative ones included, and parsing the text back gives the integer |
| Routes.SetID | src/Tgstation.Server.Api/Routes.cs:92 | the path is the route, a slash, and text that parses back to the id |
| Routes.SetIDInjective | src/Tgstation.Server.Api/Routes.cs:92 | for a fixed route, two ids give the same path exactly when they are equal |
| Routes.ListRoute | src/Tgstation.Server.Api/Routes.cs:84-99 | the path is the route followed by "/List" |
| Routes.ListRouteIsNoId | src/Tgstation.Server.Api/Routes.cs:92-99 | a route's list path is not the path of any of its ids |
| Security.ConstructionError | tests/Tgstation.Server.Host.Tests/Security/TestAuthenticationContext.cs:18-34 | a null user is refused whatever the other arguments are; a user without a system identifier is accepted with or without an identity or instance user; a user with a system identifier is accepted only with a system identity |
| Security.AuthenticationContext.constructor | tests/Tgstation.Server.Host.Tests/Security/TestAuthenticationContext.cs:23-32 | a context that passes the checks holds its three arguments |
| Security.AuthenticationContext.GetRight | tests/Tgstation.Server.Host.Tests/Security/TestAuthenticationContext.cs:45-48 | Administration and InstanceManager rights come from the user; Byond, Repository and the other instance categories come from the instance user; with no instance user they are none |
| Security.ConstructionCases | tests/Tgstation.Server.Host.Tests/Security/TestAuthenticationContext.cs:16-34 | the nine constructions of the test are accepted or refused as the test asserts |
| Security.RightsReadLive | tests/Tgstation.Server.Host.Tests/Security/TestAuthenticationContext.cs:41-48 | rights set after the context is built are the ones it reports: WriteUsers for Administration; ChangeVersion together with ReadActive for Byond |
| Security.CryptographySuite.SetUserPassword | src/Tgstation.Server.Host/Controllers/UserController.cs:86 | the user's password becomes the given one, nothing else on the user changes, and the call is recorded once |
| Database.DatabaseContext.Add | src/Tgstation.Server.Host/Controllers/UserController.cs:159 | the new row gets the next id, the table gains exactly that row, and the table stays consistent |
| Database.DatabaseContext.Save | src/Tgstation.Server.Host/Controllers/UserController.cs:222 | one more commit is counted, and nothing else changes |
| Models.View | src/Tgstation.Server.Host/Controllers/UserController.cs:243 | the API view shows the user's id, name, system identifier and rights, and a summary of the creator exactly when there is one |
| Controllers.CheckValidName | src/Tgstation.Server.Host/Controllers/UserController.cs:69-74 | the name is refused exactly when it is present and contains a colon, and the answer is BadRequest with that reason |
| Controllers.NormalizedName | src/Tgstation.Server.Host/Controllers/UserController.cs:112-114 | a trimmed name is kept when it is not empty; no name, or a name that is all white space, becomes no name |
| Controllers.PlanCredential | src/Tgstation.Server.Host/Controllers/UserController.cs:135-155 | once the checks have passed: an account that is not found gives 410, an unsupported platform gives 501, a found account gives its name and uid; a password of fewer UTF-16 units than the minimum is refused, otherwise the password account is accepted; an accepted plan has exactly one credential |
| Controllers.PlanCreate | src/Tgstation.Server.Host/Controllers/UserController.cs:109-155 | create runs its checks in order, and the first failure is the answer: the credential mismatch, then the name mismatch, then the colon, then 410 or 501 from the account lookup, then the short password; an accepted request has a valid shape and exactly one credential; a password account has a long enough password and a trimmed name without a colon |
| Controllers.CreateForMissingAccountIsGone | src/Tgstation.Server.Host/Controllers/UserController.cs:139-141 | a system-identifier request whose account is not found gives 410 |
| Controllers.BlankNameRefused | src/Tgstation.Server.Host/Controllers/UserController.cs:112-117 | a password request with an all-white-space name counts as having no name, so it is refused with the name mismatch |
| Controllers.ApplyUpdate | src/Tgstation.Server.Host/Controllers/UserController.cs:199-222 | update keeps the id, system identifier, canonical name and creation time; it is applied exactly when all four checks pass; the password is written after the first two checks whatever the later ones say; the first failing check gives the answer; a refused update never renames; an applied one takes every present field and keeps every absent one |
| Controllers.SelfServiceOverreach | src/Tgstation.Server.Host/Controllers/UserController.cs:196 | a self-service request is allowed exactly when it names the caller's id and sets nothing but the password and the system identifier |
| Controllers.UpdateTarget | src/Tgstation.Server.Host/Controllers/UserController.cs:186-191 | the target is the requested id or the caller's, and always the caller's without WriteUsers |
| Controllers.UpdateTargetIsRequestedId | src/Tgstation.Server.Host/Controllers/UserController.cs:186-196 | once an update is past the target choice and the self-service check, the target is the requested id, so the condition at line 226 always holds |
| Controllers.CapitalizationCheckExcludesColon | src/Tgstation.Server.Host/Controllers/UserController.cs:209-218 | on a row whose canonical name has no colon, a name that passes the capitalization check has no colon, so the colon check cannot refuse |
| Controllers.UpdateCanGiveSystemUserPassword | src/Tgstation.Server.Host/Controllers/UserController.cs:202-207 | a valid password update to a system-identifier account is applied and leaves the account with both credentials |
| Controllers.CapitalizationChangeApplies | src/Tgstation.Server.Host/Controllers/UserController.cs:209-220 | renaming "alice" (canonical "ALICE") to "Alice" is applied and stores the new capitalization |
| Controllers.RenameRefused | src/Tgstation.Server.Host/Controllers/UserController.cs:209-210 | renaming "alice" to "bob" is refused with the capitalization error, and the row is unchanged |
| Controllers.UserController.TrySetPassword | src/Tgstation.Server.Host/Controllers/UserController.cs:82-88 | a password shorter than the minimum is refused, and the suite is not called; otherwise the password is set, by exactly one call |
| Controllers.UserController.Create | src/Tgstation.Server.Host/Controllers/UserController.cs:100-164 | needs WriteUsers. A refusal is the planned answer and changes no table, commit or password. An acceptance stores one fresh row under the next id: planned name and credential, upper-cased canonical name, rights defaulting to none, enabled defaulting to false, the caller as creator, exactly one credential. It commits once and answers 201 with the row |
| Controllers.UserController.CreateAccount | src/Tgstation.Server.Host/Controllers/UserController.cs:123-163 | after the request checks, the outcome `Create` promises, with `PlanCredential` as the plan: a refusal changes no table, commit or password; an acceptance stores one fresh row under the next id with the planned credential, commits once and answers 201 |
| Controllers.UserController.PrepareRow | src/Tgstation.Server.Host/Controllers/UserController.cs:123-155 | the fresh row fails exactly when `PlanCredential` refuses, with its answer. Otherwise it holds the planned name, system identifier and password, and the defaults |
| Controllers.UserController.ResolveCredential | src/Tgstation.Server.Host/Controllers/UserController.cs:135-155 | an account that is not found gives 410 and an unsupported platform gives 501, with no password set; a found account replaces the name and system identifier; without a system identifier the password is set as `TrySetPassword` says |
| Controllers.UserController.NewUserRow | src/Tgstation.Server.Host/Controllers/UserController.cs:123-133 | the fresh row has the requested or default rights and enabled flag, the creation time, and the caller as creator |
| Controllers.UserController.StoreUser | src/Tgstation.Server.Host/Controllers/UserController.cs:157-163 | the canonical name is the upper-cased name, the row is added under the next id, the change is committed, and the answer is 201 with the row |
| Controllers.UserController.CheckSystemIdentifierAndSetPassword | src/Tgstation.Server.Host/Controllers/UserController.cs:199-207 | a changed system identifier or a short password is refused, with the row unchanged; otherwise a given password is set |
| Controllers.UserController.UpdateFields | src/Tgstation.Server.Host/Controllers/UserController.cs:209-222 | a name change beyond capitalization is refused first. Rights and enabled are then taken over, even if the next check fails. A colon in the name is refused. Only then is the name taken over and the change committed |
| Controllers.UserController.UpdateRow | src/Tgstation.Server.Host/Controllers/UserController.cs:199-222 | the row ends as `ApplyUpdate` says; the password is set exactly when `PasswordWritten` holds; the change is committed exactly when the update is applied |
| Controllers.UserController.Update | src/Tgstation.Server.Host/Controllers/UserController.cs:175-233 | needs WriteUsers or EditOwnPassword. Without WriteUsers it targets the caller's own row, and any change other than the password is forbidden. A missing row gives 404. No row is added or removed, and no row other than the target changes. The target ends as `ApplyUpdate` says. An applied update commits once and answers with the row. The id-only answer is never given |
| Controllers.UserController.Read | src/Tgstation.Server.Host/Controllers/UserController.cs:243 | the answer is the caller's own view |
| Controllers.UserController.List | src/Tgstation.Server.Host/Controllers/UserController.cs:252-260 | needs ReadUsers. The answer holds the view of every row and nothing else |
| Controllers.UserController.GetId | src/Tgstation.Server.Host/Controllers/UserController.cs:276-288 | the caller's own id answers as `Read`, whatever the rights; any other id needs ReadUsers, otherwise the answer is forbidden; an id with no row gives 404 |
| Controllers.UserController.GetIdShowsTableRow | src/Tgstation.Server.Host/Controllers/UserController.cs:276-288 | whenever `GetId` answers, the answer is the table's row for that id |
| Commands.ConstructorError | src/Tgstation.Server.Host/Components/Chat/Commands/CommandFactory.cs:53-57 | construction fails exactly when a dependency is null, and the first null one in parameter order is the one reported |
| Commands.CommandFactory.Construct | src/Tgstation.Server.Host/Components/Chat/Commands/CommandFactory.cs:51-58 | the first null dependency is reported; otherwise a fresh, unwired factory holds the five dependencies |
| Commands.CommandFactory.constructor | src/Tgstation.Server.Host/Components/Chat/Commands/CommandFactory.cs:51-58 | the factory holds its dependencies and starts unwired |
| Commands.CommandFactory.SetWatchdog | src/Tgstation.Server.Host/Components/Chat/Commands/CommandFactory.cs:64-69 | a second call fails with InvalidOperation, whatever its argument, and keeps the first watchdog. A null watchdog fails with ArgumentNull and leaves the factory unwired. Otherwise the factory is wired with the watchdog. The call succeeds exactly when it wires an unwired factory |
| Commands.CommandFactory.GenerateCommands | src/Tgstation.Server.Host/Components/Chat/Commands/CommandFactory.cs:72-83 | fails with InvalidOperation exactly when the factory is unwired; otherwise gives the command list for its dependencies and watchdog; changes nothing |
| Commands.CommandList | src/Tgstation.Server.Host/Components/Chat/Commands/CommandFactory.cs:76-82 | the list is Version, Byond, PullRequests, Kek, in that order, and each command is built from the factory's own dependencies; PullRequests gets the watchdog |
| Commands.WiringLifecycle | src/Tgstation.Server.Host/Components/Chat/Commands/CommandFactory.cs:64-83 | commands are refused before wiring. A null watchdog is refused and changes nothing. The first watchdog wires the factory, and a second is refused. Repeated calls then give the same four commands, built with the first watchdog |

## Left out

- Entity Framework queries, `Include`, `SaveChanges`, async/await and cancellation tokens are not modelled. The table is a map from id to user, and a commit is a counter.
- The unique index on canonical names is not modelled. The database enforces it at commit time, and that code is not part of this model. So a `Create` with a name that is already taken succeeds in the model.
- Password hashing and salting are not modelled. `SetUserPassword` records "the password was set to p" and stores `Some(p)` as the hash.
- The operating-system account lookup and the disposal of the identity are left out. The lookup's outcome (found, absent, unsupported) is a parameter of `Create`.
- `DateTimeOffset.Now` is the `createdAt` parameter.
- Text.Trim: only ASCII white space is trimmed, not full Unicode white space.
- Text.Upper: only ASCII letters are upper-cased. Full Unicode case mapping is not modelled.
- Controllers.CheckValidName: the colon search is an exact character search. The source searches with `StringComparison.InvariantCulture`, which compares text elements, so a colon joined with a following combining mark may not be found there; that culture-sensitive comparison is not modelled.
- Controllers.UserController.TrySetPassword: password length is modelled as UTF-16 code units (`Text.Utf16Length`), matching `String.Length`. A string holding unpaired surrogates, which .NET allows and Dafny's `string` cannot hold, is not modelled.
- HTTP results and JSON serialisation are not modelled. The answers are the `Response` datatype of outcome kinds.
- `ToApi` is not part of this model. `Models.View` assumes its shape: the user's fields, plus a summary of the creator for `ToApi(true)`.
- A null request model passed to `Create` or `Update` is not modelled. In the source it throws `ArgumentNullException`; here a request is a value and cannot be null.
- The null checks of the `UserController` constructor (UserController.cs:58-61) are not modelled. They are dependency injection, and the controller is built from non-null parts.
- The `TgsAuthorize` attribute is not part of this model. It becomes a precondition, read as "holds at least one of the flags".
- Ids are unbounded integers in the table. `SetID` takes a 64-bit id, and the overflow of id allocation is not modelled.
- The chat commands' own behaviour, and the `DiscordProvider`, are left out. Commands are tags carrying their dependencies.
- The integration test (tests/Tgstation.Server.Tests/IntegrationTest.cs) is left out: it drives real servers, sockets and timeouts.
- The service registration helpers (src/Tgstation.Server.Host/Extensions/ServiceCollectionExtensions.cs) are left out: they rest on reflection and dependency-injection framework calls.
- The API header tests (tests/Tgstation.Server.Api.Tests/TestApiHeaders.cs) are left out: the `ApiHeaders` source is not part of this model, and header parsing rests on ASP.NET.
