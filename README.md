# UpTask backend: account lifecycle and project access, in Dafny

This project models two controllers of the UpTask task-management backend.

- `AuthController` is the account and token lifecycle. A user registers, normally unconfirmed, and gets a single-use code by email. Consuming the code confirms the account. Login is refused, and a fresh code is sent, until the account is confirmed. Forgotten passwords are reset through the same kind of code. Signed-in users can change their profile and password.
- `ProjectController` handles project records. A project can be read by its manager and by its team members. Anyone else gets the same 404 status as for a project that does not exist. Create, update and delete change only the record and fields they name.

The modules:

- `Ids`: user and project ids.
- `Responses`: the handler outcome `Ok(body) | Err(status, error)`, and the status codes used.
- `Credentials`: stand-ins for bcrypt and JWT. `Hash` is injective and `Verify(p, h)` holds exactly when `Hash(p) == h`. `GenerateJwt(id)` yields a value whose subject is `id`.
- `AuthStore`: the User and Token records, and the store queries the handlers run. These are `User.findOne({email})`, `Token.findOne({token})` (the first matching record) and `deleteOne()` on one token record.
- `Auth`: class `AuthController`. It holds the user map, the token sequence and the next user id the store hands out. A ghost `outbox` records every `(kind, email, name, code)` email a handler triggers. Each state-changing handler is a method whose `ensures` gives the exact new contents of both stores and of the outbox, for every branch. The read-only handlers `validateToken` and `checkPassword` are functions of the stores.
- `AuthFlows`: sequences of handler calls, proved from the handler contracts alone. They cover register → confirm → login, a second confirmation with a spent code, reset → login, validating a code twice before using it, a reset code confirming an account, and a registration body that arrives already confirmed.
- `Projects`: the access rule `CanRead` (manager, or listed in the team), which both `GetProjectById` and `GetAllProjects` are specified against, and class `ProjectController` over the project map.

Inputs the source takes from elsewhere are parameters:

- `generateToken()` becomes the caller's `code`.
- The authenticated `req.user.id` becomes `actor`.
- `req.project` becomes a project id that the route middleware has already resolved to a stored project.

Three behaviours of the code are worth knowing:

- A denied read and a missing project both answer 404, but with different messages: "Proyecto no encontrado" when missing, "Acción no válida" when denied. A non-member can therefore tell that a project exists (`Projects.ProjectController.DenialLooksLikeAbsence`).
- `new User(req.body)` copies the body's `confirmed` flag, so a registration body with `confirmed: true` skips confirmation and logs in without ever using a code (`AuthFlows.RegisterConfirmedSkipsToken`). `CreateAccount` takes that flag, false when the body leaves it out.
- There is one kind of token, so a code mailed by `forgotPassword` also confirms an account, and a confirmation code also resets a password (`AuthFlows.ResetCodeConfirms`).

## Model

| member | source | states |
|---|---|---|
| `Credentials.HashThenVerify` | src/controllers/AuthController.ts:98-103 | a stored hash verifies the password it was made from and no other password, so hashing is injective |
| `Credentials.JwtRoundTrip` | src/controllers/AuthController.ts:105-109 | the session token issued for an id carries that id back, and distinct ids get distinct tokens |
| `AuthStore.FindUserByEmail` | src/controllers/AuthController.ts:16-20 | with unique emails, the lookup finds a user exactly when one has the email, and it is that user |
| `AuthStore.FindToken` | src/controllers/AuthController.ts:52-57 | the lookup returns the first record carrying the code, or none exactly when no record carries it |
| `AuthStore.RemoveAt` | src/controllers/AuthController.ts:62 | deleting one token record keeps every other record, in order |
| `AuthStore.FoundIffCounted` | src/controllers/AuthController.ts:52-57 | a code is found exactly when at least one stored record carries it |
| `AuthStore.RemoveAtCount` | src/controllers/AuthController.ts:62 | consuming a record lowers the count of its code by exactly one and leaves other codes' counts alone |
| `AuthStore.SoleCodeFound` | src/controllers/AuthController.ts:52-59 | when one record carries a code, the lookup finds that record, so the owner is determined |
| `AuthStore.ConsumedCodeGone` | src/controllers/AuthController.ts:52-63 | after the only record with a code is consumed, the code no longer resolves |
| `AuthStore.FindTokenAppend` | src/controllers/AuthController.ts:81-84 | a newly stored token never hides an older match, and it is found when no older record has its code |
| `Auth.AuthController.CreateAccount` | src/controllers/AuthController.ts:13-42 | a taken email gives 409 with no change; otherwise exactly one user with the hashed password and the body's `confirmed` flag, and one token it owns, are added; the new id owns no older token, so no earlier code can confirm the new account, and the confirmation email carries that code |
| `Auth.AuthController.ConfirmAccount` | src/controllers/AuthController.ts:50-63 | an unknown code gives 404 with no change; a missing owner gives 500 with no change; otherwise the owner becomes confirmed and exactly that token record is removed |
| `Auth.AuthController.Login` | src/controllers/AuthController.ts:71-109 | unknown email gives 404; unconfirmed gives 401 whatever the password, and one new owned token is stored and emailed; a wrong password gives 401 with no change; otherwise a session token for the user's id |
| `Auth.AuthController.RequestConfirmationCode` | src/controllers/AuthController.ts:118-146 | unknown email gives 404, confirmed gives 403, both with no change; otherwise one token owned by the user is added and emailed, and users are unchanged |
| `Auth.AuthController.ForgotPassword` | src/controllers/AuthController.ts:154-176 | unknown email gives 404 with no change; otherwise, confirmed or not, one owned token is added, a reset email carries it, and users are unchanged |
| `Auth.AuthController.ValidateToken` | src/controllers/AuthController.ts:184-193 | succeeds exactly when some stored record carries the code, else 404; it only reads the store |
| `Auth.AuthController.UpdatePasswordWithToken` | src/controllers/AuthController.ts:201-216 | an unknown code gives 404 with no change; a missing owner gives 500 with no change; otherwise the owner's hash becomes Hash(new password) and that token record is removed |
| `Auth.AuthController.UpdateProfile` | src/controllers/AuthController.ts:227-240 | 409 with no change exactly when another user has the email; otherwise only the actor's name and email change |
| `Auth.AuthController.UpdateCurrentUserPassword` | src/controllers/AuthController.ts:247-260 | a current password that does not verify against the stored hash gives 401 with no change; otherwise only the actor's hash changes, to Hash(new) |
| `Auth.AuthController.CheckPassword` | src/controllers/AuthController.ts:267-277 | succeeds exactly when the password verifies against the actor's stored hash, else 401; it only reads |
| `AuthFlows.RegisterConfirmLogin` | src/controllers/AuthController.ts:11-109 | registering with a fresh email and code, confirming with that code and logging in with the password yields a session for the new id, and the code is spent |
| `AuthFlows.RegisterConfirmedSkipsToken` | src/controllers/AuthController.ts:23-42 | a registration body that sets `confirmed` gives an account whose login with the password succeeds at once, with no code consumed |
| `AuthFlows.ConfirmTwice` | src/controllers/AuthController.ts:52-63 | with a unique code, the first confirmation succeeds and confirms its owner, and the second gives 404 |
| `AuthFlows.ResetThenLogin` | src/controllers/AuthController.ts:204-216 | after a reset, login with the new password succeeds for a confirmed user, and only the new password verifies |
| `AuthFlows.ValidateTwiceThenReset` | src/controllers/AuthController.ts:186-214 | validating a code twice succeeds both times and the code still resets the password afterwards |
| `AuthFlows.ResetCodeConfirms` | src/controllers/AuthController.ts:163-167 | a code issued by a password reset confirms the account, leaving the token store as it was before the reset |
| `Projects.AccessIgnoresDescription` | src/controllers/ProjectController.ts:50 | access depends on manager and team only, so changing a project's name, client or description grants or revokes nobody's access |
| `Projects.ProjectController.GetAllProjects` | src/controllers/ProjectController.ts:25-32 | returns exactly the stored projects the actor manages or is on the team of, unaltered |
| `Projects.ProjectController.GetProjectById` | src/controllers/ProjectController.ts:43-55 | returns the project exactly when it exists and the actor is manager or team member; every refusal is 404, with "Proyecto no encontrado" when absent and "Acción no válida" when denied |
| `Projects.ProjectController.ListingAgreesWithLookup` | src/controllers/ProjectController.ts:25-55 | the listing and the single lookup grant the same projects, with the same content |
| `Projects.ProjectController.DenialLooksLikeAbsence` | src/controllers/ProjectController.ts:45-53 | a non-member asking for an existing project gets the same status as for a missing one, but a different response, since the messages differ |
| `Projects.ProjectController.CreateProject` | src/controllers/ProjectController.ts:9-16 | exactly one new project is added, with the actor as manager and an empty team, and the actor can read it |
| `Projects.ProjectController.UpdateProject` | src/controllers/ProjectController.ts:64-69 | only the name, client and description of that project change; manager, team, every other project and everyone's visible list stay the same |
| `Projects.ProjectController.DeleteProject` | src/controllers/ProjectController.ts:78-80 | exactly that project is removed, every other stays as it was, and it then reads as missing for everyone |

## Left out

- The `user` handler (src/controllers/AuthController.ts:222-224) returns `req.user` unchanged. It has no logic to state.
- Email delivery (src/emails/AuthEmail.ts) is replaced by the ghost `outbox`. Nothing in the controllers checks a token's age, despite the "expires in 10 minutes" text in the emails, so tokens carry no creation time and never expire. A time-to-live in the Token schema would live in a file that is not part of this model.
- bcrypt salting and cost are not modelled. Two hashes of one password are equal in the model, and bcrypt's would differ but both verify.
- JWT signing, secrets and expiry are not modelled. The authentication middleware that turns a token into `req.user` is not part of this model.
- Random code generation is not modelled: the code is a parameter. Nothing stops two stored tokens from sharing a code, and the lookup takes the first.
- The paired writes under `Promise.allSettled` are applied both, in sequence. A partial failure of one write is not modelled.
- `catch` branches that answer 500 or only log are not modelled, except for one case. When a token's owner is missing, `confirmAccount` and `updatePasswordWithToken` dereference null and answer 500.
- `Auth.AuthController.UpdateProfile`, `Auth.AuthController.UpdateCurrentUserPassword` and `Auth.AuthController.CheckPassword` require the actor to be stored. Authentication loads that record before the handler runs, and a vanished record is not modelled.
- Route wiring and validation in src/routes/projectRoutes.ts are not modelled. That includes email lower-casing and the non-empty field checks.
- The manager-only `hasAuthorization` check and the `projectExists` middleware come from files that are not part of this model. `Projects.ProjectController.UpdateProject` and `Projects.ProjectController.DeleteProject` only require that the project exists, and do not check who the actor is.
- `Auth.AuthController.CreateAccount` takes email, name, password and the `confirmed` flag from the body. Other fields a body might mass-assign through `new User(req.body)`, such as an explicit `_id`, are not modelled.
- `Projects.ProjectController.CreateProject` takes the three validated fields only. Other fields a request body might mass-assign through `new Project(req.body)` are not modelled, and the team starts empty.
- Tasks, `populate("tasks")` and the order in which `getAllProjects` lists projects are not modelled. The listing is a map from project id to project.
- Ids are plain numbers compared by equality. New ids come from a counter, in place of Mongo's ObjectId generation.
