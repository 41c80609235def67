# RASENMAEHER: what its stateful protocols guarantee

A Dafny 4.11 model of the parts of RASENMAEHER that keep state across requests and worker
processes, and proofs about it. `dafny verify dfyconfig.toml` checks all of it.

Production runs four worker processes, so requests really interleave. A request is modelled as a
program whose steps are single queries, single commits or single calls to another service; between
two steps anything else may run, and a worker may be lost at any step. `Run` is such a run of any
number of requests; `Serial` is the special case where each request ends, or is lost, before the next
one starts. A query that takes the first of several rows without ordering them may answer with any of
them, a commit writes only the attributes that differ from what was read, and unique columns compare
exact strings while lookups fold case (by an arbitrary folding function). Rows marked deleted answer a
lookup with `Deleted`, which is a `NotFound` and passes wherever that is caught.

| file | what is in it |
|---|---|
| `Database.dfy` | the tables, the possible answers of the lookups, the commits |
| `Requests.dfy` | every request that changes people, roles, enrollments or pools, step by step |
| `Coherence.dfy` | what every interleaving keeps |
| `Approvals.dfy` | which enrollments can still be approved, in any interleaving |
| `SerialRuns.dfy` | what serial runs of the API keep: unique callsigns, frozen pools |
| `Admission.dfy` | the two admission decisions and revocation |
| `ConcurrentNames.dfy`, `ConcurrentPools.dfy` | what is left of callsigns, revocation and pools when requests interleave |
| `Registry.dfy` | the methods and routes working on the tables in place, each tied to its program in `Requests.dfy` |
| `Codes.dfy` | random codes: generation, counting, the search for an unused one |
| `Claims.dfy`, `Nonces.dfy`, `LoginCodes.dfy` | JWT claims, single-use nonces, login codes |
| `LockProtocol.dfy` | check, try the lock, check again, make, release: for any number of crashable workers |
| `JwtInit.dfy`, `DbInit.dfy` | two instances of it, with their functions in imperative form |
| `MtlsInit.dfy` | the mTLS bootstrap over key, CSR and certificate |
| `KcRoles.dfy` | role changes and the background jobs that push them to Keycloak |
| `KcGroups.dfy` | the product groups in Keycloak and the creation of users |

Where the source works by changing state, the method here does too. `Registry.Registry` holds the
tables in fields and its methods are proved to leave what the request program leaves, so what is
proved of serial runs holds of them. The `Host` classes of the three initialisers and
`KcRoles.UserRoles` hold the shared state while other workers run between the steps of the method;
their ghost `trace` says which run of the step machine that was.

What the code does differs from what it says, or from what one would expect, in these places. The
model follows the code.

- A person row is committed before its certificate is signed, so the rollback after a failed signing
  undoes nothing (`src/rasenmaeher_api/db/people.py:118-133`); the enrollment behind it can then never
  be approved (`Approvals.FailedApprovalIsFinal`). Exactly which enrollments still can is
  `Approvals.ApprovableIff`.
- `create_with_cert` refuses a callsign only if a row that is not deleted has it up to case. People made
  on the command line can therefore get a revoked callsign in another case
  (`SerialRuns.CommandLineReusesRevokedName`); exactly which insertions keep names apart is
  `SerialRuns.CreateKeepsNamesIff`. Through the API, requests served one at a time and anon_admin never
  revoked, it cannot happen (`SerialRuns.NamesNeverCollide`).
- Requests that interleave can enroll two callsigns that differ in case only
  (`ConcurrentNames.EnrollmentsCanCollide`, `ConcurrentNames.EnrollKeepsNamesIff`). Two people then share
  a callsign exactly when two such enrollments both got their person (`ConcurrentNames.PeopleCollideIff`),
  and a revoked callsign can be admitted exactly when another spelling of it was approved
  (`ConcurrentNames.RevokedNamePassesIff`).
- A deleted pool can still gain enrollments from requests that came through it before
  (`ConcurrentPools.DeletedPoolGainsIff`).
- `is_callsign_available` answers true when a row with the callsign exists, so available here means that
  there is such a user (`src/rasenmaeher_api/db/people.py:294-302`).
- Two overlapping requests can both be answered for one login code, the second moving `used_on`
  (`LoginCodes.OverlapAnswersTwice`). Once a code is marked, that is still possible exactly as long as
  some request has read the code unused and not committed yet (`LoginCodes.MarkMovesIff`,
  `LoginCodes.AnswerableIff`).
- A code that is not found is caught and passed over in `use_code`, which then fails on the row it never
  got (`src/rasenmaeher_api/db/logincodes.py:36-46`).
- The CA can sign twice for one nonce, though only one request is answered: when two requests overlap
  (`Nonces.TwoSignaturesOneSuccess`), and also without any overlap when the commit that spends the nonce
  is lost after the first signing (`Nonces.LostSpendSignsTwice`). When exactly this can happen is
  `Nonces.SignsAgainIff` for any interleaving and `Nonces.OneSignatureIff` for requests that do not
  overlap.
- The warning that an unusable JWT key will be overwritten is wrong: the second check returns when the
  file exists (`JwtInit.KeyIsNeverOverwritten`). A worker lost between writing the key and copying the
  public key leaves that missing for good (`JwtInit.LostCopyIsReachable`, `JwtInit.CopiedLaterIff`).
- A worker lost between key and CSR leaves the mTLS bootstrap stuck for good
  (`MtlsInit.StuckIsReachable`, `MtlsInit.CertificateLaterIff`), and one lost between the two commits of
  `init_db` leaves a schema without tables (`DbInit.LostTablesAreReachable`, `DbInit.TablesLaterIff`).
- A worker lost in the guarded part of an initialiser lets another one begin it again
  (`LockProtocol.BeginsAgainIff`); only completing it happens at most once.
- Without `auto_error` the roles `ValidUser` requires change nothing (`Admission.LenientIgnoresRoles`).
- Keycloak and the local roles can disagree with nothing left to be done if two jobs of a user overlap
  or one is cut short (`KcRoles.OverlapBreaksAgreement`, `KcRoles.DeathBreaksAgreement`); from where on
  they agree again is `KcRoles.AgreesFromHereIff`.

## Model

| member | source | states |
|---|---|---|
| Coherence.CoherentAlways | src/rasenmaeher_api/db/enrollments.py:182-203 | in every interleaving of requests: not pending iff decided by someone iff decided at some time, approved implies a person, a person exists under exactly the enrollment's callsign and belongs to no other enrollment, no enrollment is deleted, so the Deleted branches cannot be reached |
| Coherence.HistoryOnlyGrows | src/rasenmaeher_api/db/enrollments.py:299-314 | from any reachable state on: rows stay, callsigns, pools and CSRs of rows never change, deletion is final, a decided enrollment is never pending again and the person of an enrollment is written once |
| Coherence.ApprovalTakesEffectOnce | src/rasenmaeher_api/db/enrollments.py:182-193 | of any number of racing or repeated approvals of an enrollment at most one returns a person, and the enrollment refers to exactly that person and without such an approval to nobody, although the state is never tested |
| Approvals.ApprovableIff | src/rasenmaeher_api/db/enrollments.py:182-193 | from any reachable state of any interleaving, some continuation approves an enrollment that is not approved iff a request has made its person and is still handing it over, or its callsign and CSR are allowed and no person row, live or deleted, has exactly that callsign |
| Approvals.FailedApprovalIsFinal | src/rasenmaeher_api/db/people.py:118-133 | an approval that fails or crashes after the commit of the person row leaves the row, and its enrollment is approved in no later run |
| Coherence.StepKeeps | src/rasenmaeher_api/db/people.py:46-46 | each single query or commit keeps unique exact-case columns and coherent enrollments, undoes nothing, and only the request that made a person row can make an enrollment refer to it |
| SerialRuns.NamesNeverCollide | src/rasenmaeher_api/db/enrollments.py:276-310 | in serial runs of the API with anon_admin never revoked: at most one person row, live or deleted, per callsign up to case; enrollments likewise; everyone but anon_admin has exactly the callsign of an enrollment |
| SerialRuns.ApprovedNameIsNew | src/rasenmaeher_api/db/people.py:105-119 | why: if no live row has the callsign up to case and the insert passes the unique column, then no row at all has it, since a deleted one would have an enrollment of another spelling |
| SerialRuns.CreateKeepsNamesIff | src/rasenmaeher_api/db/people.py:105-119 | on tables with unique names in any other respect arbitrary, create_with_cert keeps names unique up to case exactly when no row, deleted ones included, has the name up to case |
| SerialRuns.CommandLineReusesRevokedName | src/rasenmaeher_api/console.py:132-132 | a concrete serial run in which a person made and revoked outside the API comes back in another case, so names collide |
| SerialRuns.ClosedPoolGainsNothing | src/rasenmaeher_api/db/enrollments.py:55-70 | a pool that is inactive or deleted before each of a series of requests has the same enrollments after them |
| SerialRuns.DeletedPoolIsFrozen | src/rasenmaeher_api/web/api/enrollment/views.py:590-625 | once a pool is deleted its set of enrollments is fixed for every later serial run |
| SerialRuns.PoolWasOpenAtEnrollment | src/rasenmaeher_api/web/api/enrollment/views.py:658-710 | every enrollment that carries a pool was created by a request before which that pool was there, active and not deleted |
| SerialRuns.SerialKeeps | src/rasenmaeher_api/web/api/firstuser/views.py:112-131 | the inductive invariant behind these: enrollments and people fold-unique, people enrolled, anon_admin live, through any series of API requests |
| ConcurrentNames.PeopleAreEnrolled | src/rasenmaeher_api/db/enrollments.py:182-193 | in every interleaving of the API, anon_admin's revocation included, everyone but anon_admin has exactly the callsign of an enrollment |
| ConcurrentNames.PeopleCollideIff | src/rasenmaeher_api/db/people.py:105-119 | in every interleaving of the API, two person rows share a callsign up to case, anon_admin's aside, iff two enrollments do that both have a person |
| ConcurrentNames.OnePersonPerName | src/rasenmaeher_api/db/people.py:105-119 | so there is one person row, live or deleted, per callsign up to case wherever one enrollment has it |
| ConcurrentNames.EnrollKeepsNamesIff | src/rasenmaeher_api/db/enrollments.py:276-310 | the insert of an enrollment keeps enrollments apart up to case iff no row has the callsign up to case at that moment |
| ConcurrentNames.EnrollmentsCanCollide | src/rasenmaeher_api/db/enrollments.py:276-310 | a run of two requests from empty tables, both looking before either inserts, that ends with two spellings of one callsign enrolled |
| ConcurrentPools.DeletedPoolGainsIff | src/rasenmaeher_api/web/api/enrollment/views.py:658-710 | in any reachable state of any interleaving, some continuation adds an enrollment to a deleted pool iff a request has come through the pool before and neither its names nor an enrollment already there stops it |
| Admission.CallValidUser | src/rasenmaeher_api/web/api/middleware/user.py:25-63 | the dependency, which assigns the person along the way, returns what the decision function says: a person iff the name is looked up and the row found is live and, with auto_error, holds every required role, and then that row; nobody for a product certificate, or without auto_error where there is no such person; otherwise it refuses |
| Admission.AgreeIffNotMixed | src/rasenmaeher_api/web/api/internal/callsign_validity.py:59-75 | on any tables, the two deciders agree on a name, whatever rows their lookups return, iff it is a product's or no deleted row shares it with a live one |
| Admission.DecidersAgree | src/rasenmaeher_api/web/api/internal/callsign_validity.py:59-75 | after any serial run of the API, ValidUser without required roles admits a non-empty certificate name other than the service's own iff the validity check does |
| Admission.ServiceNameAgreesIff | src/rasenmaeher_api/web/api/internal/callsign_validity.py:64-65 | the service's own name always passes the validity check, and passes ValidUser iff it is a product's or a live person's |
| Admission.RolesAreRequired | src/rasenmaeher_api/web/api/middleware/user.py:43-61 | with required roles exactly product certificates and live persons holding every required role are admitted |
| Admission.LenientIgnoresRoles | src/rasenmaeher_api/web/api/middleware/user.py:57-63 | without auto_error required roles never change the verdict; with it they never do only if nobody is admitted as a person |
| Admission.RevocationIsPermanent | src/rasenmaeher_api/db/people.py:281-291 | once a person's row is deleted, no later serial run of the API lets any case variant of the callsign pass either decider, by certificate or token, with or without roles, service names aside |
| Admission.RevokeCommitDeletes | src/rasenmaeher_api/db/people.py:172-186 | a revocation of a live person deletes the row at its commit; whether the CA and Keycloak calls after it work decides only how the request ends |
| ConcurrentNames.RevokedNamePassesIff | src/rasenmaeher_api/db/people.py:281-291 | in every interleaved continuation of the API, some answer of the lookup lets a revoked callsign, in any spelling but anon_admin's, pass as a person iff another spelling of it has an enrollment with a live person |
| ConcurrentNames.RevocationHolds | src/rasenmaeher_api/web/api/internal/callsign_validity.py:59-75 | so where one enrollment has the callsign, no spelling of it that is no service name passes either decider in any interleaved continuation, by certificate or token, with or without roles, whoever else is revoked |
| Registry.Registry.PersonByCallsign | src/rasenmaeher_api/db/people.py:281-291 | answers with some row of that callsign up to case, and tells a missing row from a deleted one |
| Registry.Registry.EnrollmentByCallsign | src/rasenmaeher_api/db/enrollments.py:217-227 | the same for enrollments |
| Registry.Registry.PoolByInvitecode | src/rasenmaeher_api/db/enrollments.py:133-142 | answers with the pool of that exact code unless it is deleted |
| Registry.Registry.CreateWithCert | src/rasenmaeher_api/db/people.py:94-137 | the exact outcome on every path: a non-empty CSR that does not name the callsign, a product name and the service name are always refused, and CallsignReserved says one of these or that a live row has the name; the row is there afterwards iff its commit succeeded, the directory iff nothing in the guarded block failed; each other error occurs only for its reason (directory there, commit refused, signing or Keycloak failed); the new state is that of the request program run alone |
| Registry.Registry.CommitPerson | src/rasenmaeher_api/db/people.py:112-119 | the commit succeeds iff the directory is new and the exact callsign and key are unused; otherwise tables and directories are as before |
| Registry.Registry.Certify | src/rasenmaeher_api/db/people.py:120-137 | a failed signing removes the directory and keeps the row; failing Keycloak calls keep both |
| Registry.Registry.Revoke | src/rasenmaeher_api/db/people.py:172-195 | the row ends up deleted iff the commit succeeded, also when the CA call then fails |
| Registry.Registry.SetRole | src/rasenmaeher_api/db/people.py:334-370 | true iff the role row changed; afterwards the role is held iff that was asked for, and whether anyone holds any other role is as before |
| Registry.Registry.CreateForCallsign | src/rasenmaeher_api/db/enrollments.py:277-310 | a new pending enrollment with the given callsign, pool and CSR, whose callsign and approve code no row ever had; a CSR that does not name the callsign and a product name are always refused; each error occurs only for its reason, and while no enrollment is deleted the commit itself cannot conflict |
| Registry.Registry.Approve | src/rasenmaeher_api/db/enrollments.py:182-193 | on success the new person has the enrollment's callsign and the row is approved by the approver for that person, except that attributes which were so already when read keep what the row holds by now; on failure no enrollment changes |
| Registry.Registry.Reject | src/rasenmaeher_api/db/enrollments.py:195-203 | the row is rejected by the decider iff the commit succeeds, and its person is kept |
| Registry.Registry.ResetApprovecode | src/rasenmaeher_api/db/enrollments.py:243-258 | gives exactly one enrollment of that callsign an approve code that no row has, or changes nothing for a stated reason |
| Registry.Registry.CreatePool | src/rasenmaeher_api/db/enrollments.py:108-120 | a new active pool with a code no row has; it gives up iff all 101 draws are codes of live pools, and on a working database the only conflict is with the code of a deleted pool |
| Registry.Registry.ChangePool | src/rasenmaeher_api/db/enrollments.py:63-70 | activates, deactivates or deletes exactly this pool, leaving attributes that did not differ from what was read as they are |
| Registry.Registry.PostEnrollInviteCode | src/rasenmaeher_api/web/api/enrollment/views.py:648-715 | an enrollment is made only through an active pool that is not deleted and has that code, and carries that pool; no such pool, an inactive one and a failed enrollment are told apart |
| Registry.Registry.PostEnrollmentAccept | src/rasenmaeher_api/web/api/enrollment/views.py:407-458 | approves only an enrollment of that callsign whose approve code was given, in the name of a live actor; a missing row, a wrong code and a failed creation are told apart |
| Registry.Registry.RequestEnrollmentLock | src/rasenmaeher_api/web/api/enrollment/views.py:361-399 | rejects exactly one enrollment of that callsign in the name of a live actor, or changes nothing |
| Registry.Registry.SetAdmin | src/rasenmaeher_api/web/api/enrollment/views.py:247-357 | exactly one live person of that callsign is an admin afterwards iff promoted, true iff that changed the role, all other roles being as before; or nothing changes for a stated reason |
| Registry.Registry.DeletePerson | src/rasenmaeher_api/web/api/people/views.py:109-149 | deletes exactly one live person of that callsign, also when the CA call then fails, or changes nothing for a stated reason |
| Registry.Registry.ChangeInviteCode | src/rasenmaeher_api/web/api/enrollment/views.py:487-625 | exactly the undeleted pool with that code is active, inactive or deleted afterwards as asked, or nothing changes for a stated reason |
| Registry.Registry.ServeAll | src/rasenmaeher_api/web/api/enrollment/views.py:77-710 | any series of calls of these routes that does not revoke anon_admin leaves the tables of a serial run of the API, so what is proved of serial runs holds of them |
| Registry.Registry.EnsureAnonAdmin | src/rasenmaeher_api/web/api/firstuser/views.py:110-123 | does nothing if any row, deleted or not, has anon_admin's name; otherwise makes that person with its role or fails for a stated reason |
| Registry.Registry.EnrollAndApprove | src/rasenmaeher_api/web/api/firstuser/views.py:125-131 | on success the new enrollment is approved by a live anon_admin for a new person of the given callsign |
| Registry.Registry.EnrollAndPromote | src/rasenmaeher_api/web/api/firstuser/views.py:125-158 | as below, given anon_admin |
| Registry.Registry.AddAdmin | src/rasenmaeher_api/web/api/firstuser/views.py:110-159 | the same without the session claim and the login code |
| Registry.Registry.PostAdminAdd | src/rasenmaeher_api/web/api/firstuser/views.py:86-174 | without the session claim nothing changes; on success the new person is enrolled, approved and an admin, and the answer is a fresh login code whose stored claims name that person; a failure stores no login code; it does succeed when the names, keys and a login code are free, every call works, and a live anon_admin is there or, as on first use, no row has its name and it can be made; in any case the tables are those the request program leaves |
| Registry.Registry.GetPfx | src/rasenmaeher_api/console.py:117-141 | answers with a live person of that callsign up to case: one that is there, nothing changing, or a new one, who is an admin iff asked for; otherwise the reason is stated |
| Registry.ClearOnceAnonAdminIsMade | src/rasenmaeher_api/web/api/firstuser/views.py:112-131 | making anon_admin puts nothing in the way of a callsign that is not a spelling of it |
| Registry.NewInstallationIsClear | src/rasenmaeher_api/web/api/firstuser/views.py:112-131 | on empty tables nothing is in the way of the first admin, so the guarantee of first use applies |
| Codes.GenerateCode | src/rasenmaeher_api/db/enrollments.py:28-34 | every generated code is a word of the set length over the alphabet, or over the 34 clear symbols |
| Codes.WordsAre | src/rasenmaeher_api/db/enrollments.py:24-31 | the words counted below are exactly the strings of that length over the alphabet |
| Codes.AlphabetSizes | src/rasenmaeher_api/db/enrollments.py:24-24 | 36 symbols, 34 of them clear |
| Codes.WordsSize | src/rasenmaeher_api/db/enrollments.py:28-34 | there are k to the n words of length n over k symbols |
| Codes.OutputsAreClearWords | src/rasenmaeher_api/db/enrollments.py:32-34 | with confusion avoided what can be generated is exactly the n-letter strings over the 34 clear symbols |
| Codes.DrawsCount | src/rasenmaeher_api/db/enrollments.py:32-34 | a code with k letters among O and I comes from exactly 2 to the k raw draws |
| Codes.DrawsAddUp | src/rasenmaeher_api/db/enrollments.py:28-34 | these counts add up to 36 to the n over all codes |
| Codes.FreeCodeExists | src/rasenmaeher_api/db/enrollments.py:260-274 | while fewer than 34 to the n codes are in use some code is free |
| Codes.GenerateUnusedCode | src/rasenmaeher_api/db/enrollments.py:260-274 | terminates; gives up iff the first 101 draws were all found; otherwise returns the first that was not, every earlier one having been found |
| Claims.RefreshPreserves | src/rasenmaeher_api/web/api/tokens/views.py:98-106 | after a chain of refreshes of any length a claim other than iat, exp, iss, aud and nonce is there iff it was at first, with the same value, the first four are those of the last issue, there is no nonce, and the admin session is as it was |
| Claims.ExchangeableAgain | src/rasenmaeher_api/web/api/tokens/views.py:36-81 | an exchanged or refreshed token can never be exchanged again; one from a login code can iff the code was made with a nonce and an admin session |
| Claims.AdminSessionsTraceBack | src/rasenmaeher_api/web/api/tokens/views.py:110-135 | in every run of exchanges, refreshes, code creations and redemptions, an admin session in an issued token or stored code goes back, through items that all carry one, to something present at the start or to an accepted external token |
| Claims.Root | src/rasenmaeher_api/web/api/tokens/views.py:79-81 | following what an item was made from ends at an item made from nothing, which has an admin session if the item has |
| Claims.ClaimsTraceBack | src/rasenmaeher_api/web/api/tokens/views.py:79-135 | in every run, whatever claim an issued token or stored code has, registered ones aside, with that value was in an item present at the start or an accepted external token, or was asked for by the holder of an admin session when making a code, or is the callsign of a new admin or enrollment |
| Nonces.SeenTokens.UseToken | src/rasenmaeher_api/db/nonces.py:26-40 | returns iff its own insert was committed, which no row of the token, deleted or not, allows twice |
| Nonces.SeenTokens.ExchangeToken | src/rasenmaeher_api/web/api/tokens/views.py:20-94 | succeeds iff there is an unseen nonce and an admin session claim; the nonce is spent also when the claim is missing; the new token has the issuer's stamp and otherwise exactly the claims other than iat, exp, iss, aud and nonce, with their values |
| Nonces.SeenTokens.SignCsr | src/rasenmaeher_api/web/api/product/views.py:46-68 | signs iff the token has a csr and a nonce claim that are not empty, the nonce is not seen, and the CA does it; returns iff it then spends the nonce |
| Nonces.NonceSucceedsAtMostOnce | src/rasenmaeher_api/db/nonces.py:22-40 | under any interleaving, crashes and lost commits, from any table, at most one request of JWT exchange and CSR signing together succeeds per nonce |
| Nonces.SpentNonceStaysSpent | src/rasenmaeher_api/db/nonces.py:43-57 | once a nonce is in the table no request that has not already spent it ever succeeds with it |
| Nonces.SignsAgainIff | src/rasenmaeher_api/web/api/product/views.py:57-68 | once a nonce is used, some continuation has the CA sign for it again iff some request had looked it up before and has not asked the CA yet |
| Nonces.OneSignatureIff | src/rasenmaeher_api/web/api/product/views.py:57-68 | of requests that do not overlap, from any table, the CA signs at most once for a nonce iff between any two that would ask it the nonce was used: at the start, or by the commit of an earlier exchange or signing |
| Nonces.TwoSignaturesOneSuccess | src/rasenmaeher_api/web/api/product/views.py:57-68 | a race of two requests, from their start, in which the CA signs twice for one nonce and one of them is answered |
| Nonces.LostSpendSignsTwice | src/rasenmaeher_api/web/api/product/views.py:66-68 | the same without overlap: the first request's commit is lost after signing, the second one signs and is answered |
| Nonces.ExchangeAlone | src/rasenmaeher_api/web/api/tokens/views.py:48-76 | an exchange run without interleaving does what the method does, to the table and as answer |
| Nonces.SignAlone | src/rasenmaeher_api/web/api/product/views.py:46-68 | so does a signing, including whether the CA signs |
| LoginCodes.LoginCodes.CreateForClaims | src/rasenmaeher_api/db/logincodes.py:66-84 | a new unused row with exactly these claims under a code no row has; gives up iff all 101 draws were found, and conflicts only with a deleted row |
| LoginCodes.LoginCodes.UseCode | src/rasenmaeher_api/db/logincodes.py:34-50 | answers with exactly the stored claims iff the code was there, not deleted and unused and the commit succeeds, and marks it; otherwise nothing changes, and the two refusals are told apart exactly |
| LoginCodes.AnswerIsStoredClaims | src/rasenmaeher_api/db/logincodes.py:45-50 | under any interleaving an answered request got the claims stored at creation, and the code is marked for good |
| LoginCodes.AnswerIsClaimsGiven | src/rasenmaeher_api/db/logincodes.py:62-84 | in every run that makes a code at some point, a request answered for it got exactly the claims that were given then |
| LoginCodes.LateRequestGetsNothing | src/rasenmaeher_api/db/logincodes.py:34-43 | once a code is marked no request that has not already read it unused is ever answered |
| LoginCodes.AnswerableIff | src/rasenmaeher_api/db/logincodes.py:34-50 | of a marked code, a request not answered yet is answered in some continuation iff it has read the code unused and not committed yet |
| LoginCodes.MarkMovesIff | src/rasenmaeher_api/db/logincodes.py:45-49 | used_on of a marked code differs in some continuation iff some request has read the code unused and not committed yet |
| LoginCodes.OverlapAnswersTwice | src/rasenmaeher_api/db/logincodes.py:34-50 | two requests that both start on one unused code are both answered, and its mark moves |
| LoginCodes.UseAlone | src/rasenmaeher_api/db/logincodes.py:34-50 | a use run without interleaving does what the method does, to the table and as answer |
| LoginCodes.SerialUseIsSingle | src/rasenmaeher_api/db/logincodes.py:34-50 | when the steps of calls do not interleave each code is answered at most once, and has been iff it was marked meanwhile |
| LoginCodes.SerialMarkIsWriteOnce | src/rasenmaeher_api/db/logincodes.py:45-49 | a mark left by such calls never changes again, whatever interleaves after them |
| LockProtocol.GuardedOnce | src/rasenmaeher_api/jwtinit.py:170-189 | any number of workers, any interleaving, crashes anywhere: the body is completed at most once, and begun once more at most for every worker lost in it; two workers are never inside the lock; whoever returns finds the thing made |
| LockProtocol.BegunOnceWithoutCrashes | src/rasenmaeher_api/jwtinit.py:170-189 | without crashes the body is not even begun twice |
| LockProtocol.BeginsAgainIff | src/rasenmaeher_api/jwtinit.py:170-189 | from any reachable state, with workers started and lost at will, some continuation begins the body once more iff the thing is not made |
| LockProtocol.TimeoutMeansHeld | src/rasenmaeher_api/db/dbinit.py:46-50 | an attempt at the lock fails only while another worker is inside |
| LockProtocol.StepsAreBounded | src/rasenmaeher_api/db/dbinit.py:35-52 | all steps together are at most five per worker, later ones included, plus two per timeout |
| JwtInit.IsLockProtocol | src/rasenmaeher_api/jwtinit.py:158-197 | every run of jwt_init workers is a run of the shared protocol making, locking and counting the same things |
| JwtInit.KeyGeneratedOnce | src/rasenmaeher_api/jwtinit.py:170-183 | the key is generated at most once over all workers, crashes or not, and every normal return finds it |
| JwtInit.GenerationBegunOnce | src/rasenmaeher_api/jwtinit.py:170-183 | in runs without crashes and failures the generation is not even begun twice |
| JwtInit.KeyIsNeverOverwritten | src/rasenmaeher_api/jwtinit.py:135-148 | a key that exists is the same in every later state, usable or not |
| JwtInit.PublicKeyCopiedIff | src/rasenmaeher_api/jwtinit.py:190-197 | with the key there and nobody between writing it and copying the public key, the public key has been copied iff no worker was lost on that way |
| JwtInit.PublicKeyCopied | src/rasenmaeher_api/jwtinit.py:190-197 | so it has been when every worker has returned normally |
| JwtInit.CopiedLaterIff | src/rasenmaeher_api/jwtinit.py:174-197 | from any reachable state, with workers started and lost at will, some continuation has the public key iff it is copied already, or there is no key yet, or some worker is between writing the key and copying |
| JwtInit.LostCopyIsReachable | src/rasenmaeher_api/jwtinit.py:174-197 | a run from the start, of a worker lost right after writing the key, no continuation of which has the public key, however many workers are started later |
| JwtInit.StepsAreBounded | src/rasenmaeher_api/jwtinit.py:158-197 | at most seven steps per worker, later ones included, plus two per timeout |
| JwtInit.TimeoutMeansHeld | src/rasenmaeher_api/jwtinit.py:184-187 | a timeout happens only while another worker is inside the lock |
| JwtInit.Host.JwtInit | src/rasenmaeher_api/jwtinit.py:158-197 | whatever other workers do between its steps: a normal return leaves the key, a key that was there is unchanged, and no second one was made; it returns at its first look iff the key is there and usable; it is still waiting only after that many timeouts |
| DbInit.IsLockProtocol | src/rasenmaeher_api/db/dbinit.py:27-52 | every run of init_db workers is a run of the shared protocol, the commit of the schema being its body |
| DbInit.SchemaCreatedOnce | src/rasenmaeher_api/db/dbinit.py:39-43 | the schema is created at most once and every normal return finds it |
| DbInit.CreationBegunOnce | src/rasenmaeher_api/db/dbinit.py:39-43 | in runs without crashes and failures the creation is not even begun twice |
| DbInit.TablesExistIff | src/rasenmaeher_api/db/dbinit.py:39-45 | when some worker has returned normally, the tables exist iff no worker was lost between the two commits |
| DbInit.LostTablesAreFinal | src/rasenmaeher_api/db/dbinit.py:40-45 | a worker lost there leaves the tables missing in every later state |
| DbInit.TablesLaterIff | src/rasenmaeher_api/db/dbinit.py:40-45 | from any reachable state, with workers started and lost at will, some continuation has the tables iff no worker was lost between the commits |
| DbInit.LostTablesAreReachable | src/rasenmaeher_api/db/dbinit.py:40-45 | a run from the start with such a worker, no continuation of which has the tables, however many workers are started later |
| DbInit.StepsAreBounded | src/rasenmaeher_api/db/dbinit.py:46-50 | at most six steps per worker, later ones included, plus two per timeout |
| DbInit.Host.InitDb | src/rasenmaeher_api/db/dbinit.py:27-52 | whatever other workers do between its steps: after a normal return the schema was made once, and the tables are there iff nobody was lost between the commits |
| MtlsInit.BootstrapIsConsistent | src/rasenmaeher_api/mtlsinit.py:68-114 | from empty directories, any interleaving, crashes and restarts: certificate implies CSR implies key, all of one key pair; one worker inside the lock; a normal return leaves the key, and the certificate unless signing raised CertError |
| MtlsInit.FilesAreNeverOverwritten | src/rasenmaeher_api/mtlsinit.py:90-106 | key, CSR and certificate, once there, are the same in every later state |
| MtlsInit.LostBetweenKeyAndCsr | src/rasenmaeher_api/mtlsinit.py:92-100 | a worker lost after the key and before the CSR: from then on nobody returns normally and no certificate is ever made |
| MtlsInit.StuckIsReachable | src/rasenmaeher_api/mtlsinit.py:92-96 | a run from empty directories with such a worker |
| MtlsInit.CertificateLaterIff | src/rasenmaeher_api/mtlsinit.py:88-114 | from any reachable state, with workers started and lost at will, some continuation has a certificate iff it is not the case that the key is there without a CSR and nobody is about to write that |
| MtlsInit.RecoversIffNotStuck | src/rasenmaeher_api/mtlsinit.py:88-114 | in any reachable state with the lock free, a worker started and left alone with working services ends with the certificate in place iff it does not find a key without a CSR |
| MtlsInit.StepsAreBounded | src/rasenmaeher_api/mtlsinit.py:108-114 | all workers, restarted ones included, take at most ten steps each plus two per timeout |
| MtlsInit.Host.MtlsInit | src/rasenmaeher_api/mtlsinit.py:68-114 | whatever other workers do between its steps: a normal return leaves key and CSR of one pair, and its certificate unless signing failed, which it says only if signing raised CertError; it returns at its first look iff certificate and key are there; no file that was there has changed |
| KcRoles.AgreesFromHereIff | src/rasenmaeher_api/db/people.py:334-370 | from any state, with jobs under way or not, Keycloak has admin iff the local table does at rest of every undisturbed continuation exactly when a job is pending or about to be started, or else every job that may still write wants what the table says and, if there is none, they agree already |
| KcRoles.AgreeAtRest | src/rasenmaeher_api/db/people.py:334-370 | however requests and jobs of a user interleave: if jobs did not overlap and none was cut short, then with no job pending or running and no request about to start one Keycloak has admin iff the local table does |
| KcRoles.OtherRolesUntouched | src/rasenmaeher_api/kchelpers.py:82-97 | no run ever adds or removes another role in Keycloak |
| KcRoles.NextLookRepairs | src/rasenmaeher_api/db/people.py:421-440 | after any disturbance, once a job is still to come, they agree at rest of whatever follows undisturbed |
| KcRoles.OverlapBreaksAgreement | src/rasenmaeher_api/kchelpers.py:82-97 | a reachable state at rest where they disagree after two overlapping jobs |
| KcRoles.DeathBreaksAgreement | src/rasenmaeher_api/kchelpers.py:191-191 | the same after one job that died before its write |
| KcRoles.WindowBreaksAgreement | src/rasenmaeher_api/db/people.py:343-350 | they disagree with no job pending or running while a request is between its commit and starting its job |
| KcRoles.ComesToRest | src/rasenmaeher_api/db/people.py:334-370 | once requests stop coming every schedule ends after a bounded number of steps, in a state at rest |
| KcRoles.UserRoles.AssignRole | src/rasenmaeher_api/db/people.py:334-351 | false iff the row was there; it fails only if the commit did or another request made the row first; otherwise a job is pending afterwards, and without interference the row is there |
| KcRoles.UserRoles.RemoveRole | src/rasenmaeher_api/db/people.py:353-370 | false iff there was no row; unless the commit failed a job is pending afterwards, and without interference the row is gone |
| KcRoles.UserRoles.CheckUserRoles | src/rasenmaeher_api/kchelpers.py:82-97 | true iff Keycloak differed from the snapshot when read; in an undisturbed run it has admin afterwards iff the snapshot had; other roles untouched |
| KcRoles.UserRoles.PushRoles | src/rasenmaeher_api/db/people.py:421-440 | in an undisturbed run Keycloak ends with what the local table said at the snapshot, and agrees with the table if all is at rest |
| KcGroups.Keycloak.EnsureProductGroups | src/rasenmaeher_api/kchelpers.py:238-269 | for any manifest and any group tree: afterwards every product has its root group and in it the groups with _default and _admins added to its name, existing groups are untouched, only such groups were added, true iff something was missing, and the cache holds exactly the default groups; it fails only if a Keycloak call failed, and then leaves only needed additions |
| KcGroups.Keycloak.EnsureChildren | src/rasenmaeher_api/kchelpers.py:254-267 | the inner loop makes one product ready, adds only below its root and remembers its default group |
| KcGroups.ChangesIffSomethingMissing | src/rasenmaeher_api/kchelpers.py:238-269 | groups change iff some product was not ready |
| KcGroups.SecondTimeAddsNothing | src/rasenmaeher_api/kchelpers.py:238-269 | a second reconciliation changes nothing |
| KcGroups.EveryAddedGroupCounts | src/rasenmaeher_api/kchelpers.py:247-263 | without any one of the groups added some product would not be ready |
| KcGroups.RetryConverges | src/rasenmaeher_api/kchelpers.py:238-269 | a run cut short and then repeated comes to what one run would have |
| KcGroups.Keycloak.UserInitialGroups | src/rasenmaeher_api/kchelpers.py:158-173 | the user joins exactly the products' default groups and nobody else changes |
| KcGroups.Keycloak.CheckUserRoles | src/rasenmaeher_api/kchelpers.py:71-97 | admin follows the local roles, no other role and no other user changes, true iff something did |
| KcGroups.PushGivesAdminAs | src/rasenmaeher_api/kchelpers.py:87-96 | what is written is the user's roles with admin exactly as in the local ones, and nothing is written iff they agree on it |
| KcGroups.Keycloak.CreateKcUser | src/rasenmaeher_api/kchelpers.py:119-156 | anon_admin is in no group; any other new user is in exactly the groups that are named after a product with _default added and lie directly in that product's root group; the user is an admin iff locally one, with otherwise the default roles; other users are untouched; it fails exactly for a given id or a known name or address, or when a call failed or Keycloak has no admin role |

## Left out

- HTTP, the CA back-ends, product APIs, proxy and announcements: calls that succeed or raise.
- Cryptography, JWT signing and verification, CSR and PKCS12 parsing: a key identity, a name and a map of claims remain.
- Who may call a route is not a premise anywhere: the results on runs hold whoever calls.
- Case folding is an arbitrary function of strings; what the database does with Unicode is not modelled.
- The `extra` columns and `auditmeta`, the times in `created` and `updated`, listings, descriptions and instructions.
- Random sleeps and clocks: any schedule is allowed, and a time is any number.
- `reset_invitecode`, which no route calls.
- A commit is atomic and either takes place or does not; a file or directory is written in one step.
- Of the console commands only the creation and revocation of people are modelled, as requests of interleaved runs; serial runs of the API are without them.
- The secret of the callsign validity endpoint, the stripping of its argument, and failures to load the manifest.
- The manifest and the settings do not change while a process runs, as the process loads the manifest once.
- Claims are followed through sequences of whole requests; that a nonce or a code is used once is proved in `Nonces.dfy` and `LoginCodes.dfy` and not a premise there.
- JwtInit.Host.JwtInit: follows a given number of attempts at the lock, where the source retries for ever; the runs of the step machine have no such limit.
- DbInit.Host.InitDb: likewise a given number of attempts.
- MtlsInit.Host.MtlsInit: likewise a given number of attempts.
- Whether the issuer accepts an existing key file is left to the environment, and the copying of the Kraftwerk public keys is not modelled.
- `KcRoles.dfy` is about one live user with a Keycloak account; revocation, which deletes the account, and changes made in Keycloak by others are not modelled. An account that a job has to create first counts as one without the role.
- `KcGroups.dfy` has one reconciler at a time (a second one would at worst be refused a call by Keycloak), a failed Keycloak call has no effect there, and Keycloak itself keeps sibling names unique.
- `update_kc_user` apart from its role check: the payload it sends does not touch roles or groups.
