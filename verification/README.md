# A model of the storage layer and its command handlers

The program is a small server whose handlers keep users and per-user plugin options in SQLite. This project models that
layer as a transactional database client and proves what its handlers do when any command may throw and any number of
threads run at once. It also compares the SQLite storages with their in-memory versions, and covers the message bus and
the token handler that sit above them.

Run `dafny verify dfyconfig.toml`.

## How it is built

| files | what they hold |
|---|---|
| `Domain`, `Sqlite`, `Schema` | values; a connection with its stack of snapshots; the tables with their constraints and the SQL statements as functions |
| `PluginStore`, `UserStore` | finders, `update`, `add` and the handlers' effects as functions of the tables, and what they mean |
| `Engine`, `UnitOfWork`, `PluginStorage`, `PluginHandlers`, `UserHandlers` | the source's classes, statement by statement, over a connection whose commands throw by an arbitrary plan |
| `History` | lists of committed effects and what any such list leaves behind |
| `Interleaving`, `Locks`, `Turns`, `Serialisability`, `Faults`, `Outcomes`, `Answers`, `RealTime`, `Race`, `Progress` | a machine of any number of threads, one command or mutex operation at a time, and the theorems about its runs |
| `Walks`, `SharedConnection`, `LateRollback` | runs of the machine in which two mutexes on one connection break what one mutex guarantees |
| `MemoryUnitOfWork`, `MemoryPlugins`, `PluginEquivalence`, `MemoryUsers`, `UserEquivalence` | the in-memory storages, and the comparison over whole runs |
| `Jwt`, `Bus` | the token handler over an abstract signer; the type-erased bus |

`Db` is the type of tables that satisfy every UNIQUE, PRIMARY KEY and FOREIGN KEY rule of the schema. All statements
take and return it, so the verifier checks that each of them keeps every rule. A statement that fails leaves the tables
as they were. The database starts empty.

## Main results

1. **Guards mean what they say.** For every nesting of savepoint guards, units of work, statements and handlers of
   exceptions, with repeated names, inside or outside a transaction and with any command throwing, the snapshot stack
   ends as it began and the tables are what a meaning without any stack says (`Sqlite.GuardsMeanWhatTheySay`).
2. **POST is failure-atomic.** Whatever throws (BEGIN, a SELECT, the upsert, DELETE, any of the INSERTs, RELEASE, COMMIT),
   the durable tables are entirely old or entirely new, nothing stays open and the mutex is held as before
   (`PluginHandlers.PostPluginOptionsHandler.Execute`, `UnitOfWork.UnitsAreAtomic`).
3. **Serialisability in real time.** For every interleaving of POST, GET, registration, Google sign-in and login by threads that
   bring the same mutex, the durable tables are at every moment the logged commits applied one at a time, and every answer is the
   one the command would have given alone on the store of one moment of its own lifetime, but for faults and for Google's lost race
   (`Serialisability.CommittedIsSerial`, `EveryAnswerIsSerial`, `LogIsAccountedFor`). These moments are ordered as the commands
   were (`RealTime.MomentsRespectRealTime`). A fault is never swallowed and never leaves a trace (`Faults.AnswersAreSettled`).
4. **The hypothesis is exact.** `src/app/src/main.cpp` gives both SQLite storages one connection and each its own mutex. All runs
   over a set of mutexes are serial if and only if there is at most one in it (`SharedConnection.SerialIffOneMutex`): with two, a
   sign-in that meets an open POST throws although nothing failed. Atomicity goes too: a POST throws while its row stays durable
   (`LateRollback.FailedPostStaysDurable`).
5. **No id is ever lost to truncation** (`History.ReplayKeepsIds`, `Outcomes.CommittedIdsInRange`), and a POST that no fault
   strikes fails only when its option is new and no id is left (`Outcomes.PostFailsOnlyWithoutIds`). The user storage lacks the
   check: `UserStore.AddedIdFindsUserIff` says exactly when its ids are good.
6. **Lock discipline and progress, whoever brings which mutex.** Every thread holds its mutex as often as its place says; no
   reachable state is stuck; work, pending inserts included, bounds the moves of every schedule; every run can be finished, and then
   no mutex is held and nothing is open (`Locks.HoldsMatchPlaces`, `Progress.EveryRunCanFinish`).
7. **One user per email under interleaving.** A sign-in that went past its check gets an error and changes nothing if its email
   is taken when it comes to add it, and, faults aside, Refused is the answer of exactly those (`Outcomes.OneUserPerEmail`,
   `Outcomes.SuccessesStayFound`, `Race.RaceIsLostIff`). Every answer of every user command, and what it stored, is read off the
   commits before its moment (`Answers`). A login after a reported registration is told the registered id exactly
   when the hasher accepts the registered bytes (`RealTime.LoginFollowsRegistration`).
8. **The in-memory storages are faithful** exactly under conditions that are spelled out
   (`PluginEquivalence.AnswersAgreeIff`, `UserEquivalence.StoragesAreAlikeIff`, `MemoryUsers.RunsAgreeIff`).
9. **Tokens carry the id they were created for** (`Jwt.ChainCarriesId`, `Jwt.RefreshGoesByFirstVerified`,
   `Jwt.IdsComeFromCreates`), and no auth token is renewed while it still verifies (`Jwt.RefreshAnswersIff`,
   `Jwt.ChainKeepsLifetimes`), and **the bus never miscasts** (`Bus.CallsReachLatest`).

Where properties turned out to hold only under a condition:

- The user storages agree on a registration if and only if its hash has at most 2^31-1 bytes, or the email is taken and the
  hash's length cut to an `int` is not negative (`UserEquivalence.Fits`): SQLite is given the length as an `int` before it looks
  at the email.
- An in-memory `update` keeps the two user indexes together, with no id past the counter, if and only if it gives a known id no
  other email and a known email no other id, and its id is not past the counter (`MemoryUsers.UpdateKeepsAgreementIff`). Updates
  of existing users that keep id and email are of this kind.
- The in-memory plugin storage hands out no ids, so its index by id holds at most one option, whoever posted last
  (`PluginEquivalence.IdIndexCollapses`).
- The id that `SqliteUserStorage::add` sets finds the new user if and only if the row id fits `int`.

## Model

| member | source | states |
|---|---|---|
| Domain.GetInt | src/app/src/SqlitePluginOptionStorage.cpp:196 | reading a 64-bit column as `int` keeps in-range values and is otherwise congruent modulo 2^32 |
| Sqlite.GuardsMeanWhatTheySay | src/app/src/SqlitePluginOptionStorage.cpp:7-37 | any program of guards, however nested and named and whatever throws, equals its stack-free meaning and restores the stack it started with |
| Sqlite.DurableEffect | src/app/src/SqlitePluginOptionStorage.cpp:7-37 | such a program's effect is durable when no frame was open before it, and nothing becomes durable inside one |
| Sqlite.OwnFrame | src/app/src/SqlitePluginOptionStorage.cpp:25-36 | a guard's name finds its own savepoint although outer ones may have the same name |
| Sqlite.TransactionCommands | src/app/src/SqliteStorageUoW.cpp:5-55 | BEGIN fails inside anything open, COMMIT and ROLLBACK fail outside; COMMIT makes durable what the connection sees, ROLLBACK nothing |
| Sqlite.SavepointCommands | src/app/src/SqlitePluginOptionStorage.cpp:13-36 | RELEASE and ROLLBACK TO act on the innermost frame of their name and drop all inside it; without such a frame both fail |
| Schema.NextRowId | src/app/src/SqlitePluginOptionStorage.cpp:54-61 | an automatically chosen id is new: 1 in an empty table, otherwise one more than the largest |
| Schema.SelectOptionId | src/app/src/SqlitePluginOptionStorage.cpp:182-196 | the key finds a row if and only if some row has it, and it is the only one |
| Schema.OptionRowFits | src/app/src/SqlitePluginOptionStorage.cpp:51-61 | writing a row keeps the constraints when no other row has its key |
| Schema.SelectAfterWrite | src/app/src/SqlitePluginOptionStorage.cpp:145-180 | after a row is written its key finds it, its former key finds nothing and every other key what it found before |
| Schema.InsertFieldIff | src/app/src/SqlitePluginOptionStorage.cpp:63-70 | inserting a field fails exactly on a duplicate (option, key) or a missing option, and otherwise adds that row and no other |
| Schema.SelectUserId | src/app/src/SqliteUserStorage.cpp:114-136 | an email finds a row if and only if some row has it, and it is the only one |
| Schema.UserRowFits | src/app/src/SqliteUserStorage.cpp:77-88 | inserting a user with a free email keeps emails unique |
| PluginStore.FindersReadRows | src/app/src/SqlitePluginOptionStorage.cpp:76-143 | by key exactly the option of the row with that user and plugin is found, by id exactly the option of the row with that id, flags and fields as stored; what is not found has no row |
| PluginStore.FindersAgree | src/app/src/SqlitePluginOptionStorage.cpp:76-123 | an option found by user and plugin carries them and is found whole by its id; one not found has no row at all |
| PluginStore.FoundByIdIsFoundByKey | src/app/src/SqlitePluginOptionStorage.cpp:76-106 | an option found by id carries that id and is found whole by its key; an id that finds nothing is in no row |
| PluginStore.InsertOne | src/app/src/SqlitePluginOptionStorage.cpp:221-230 | after the delete, no pass of the insert loop meets a duplicate key, in any order |
| PluginStore.UpsertLands | src/app/src/SqlitePluginOptionStorage.cpp:145-197 | both upsert branches leave the option's row under its assigned id and move no other row; a conflict happens exactly when another row has the key |
| PluginStore.UpdateSucceedsIff | src/app/src/SqlitePluginOptionStorage.cpp:199-234 | `update` goes through exactly when an explicit id takes no other row's key, or a new id is left for `int`; the first fails on a constraint, the second on the check of the id |
| PluginStore.AssignedIdFits | src/app/src/SqlitePluginOptionStorage.cpp:203-207 | a successful `update` uses an id in 1..2^31-1 |
| PluginStore.UpdateLands | src/app/src/SqlitePluginOptionStorage.cpp:199-234 | exactly one row and exactly its fields change |
| PluginStore.UpdateRefines | src/app/src/SqlitePluginOptionStorage.cpp:199-234 | the tables refine a map from user and plugin to option: the stored key finds exactly the stored option, every other key what it found before |
| PluginStore.UpdateKeepsRange | src/app/src/SqlitePluginOptionStorage.cpp:203-207 | ids stay in range: the first id past it reads back negative, is refused and rolled back |
| PluginStore.PostSucceedsIff | src/app/include/Service/Plugin/PostPluginOptionsHandler.h:70-93 | a POST fails only when its option is new and ids are used up, and never on a constraint |
| PluginStore.PostRefines | src/app/include/Service/Plugin/PostPluginOptionsHandler.h:72-89 | after POST its key finds what was posted under its old or the next id; every other key is untouched |
| PluginStore.PostWritesRow | src/app/include/Service/Plugin/PostPluginOptionsHandler.h:72-89 | POST writes one row and no other: user, plugin, and the two flags as 1 or 0 |
| UserStore.PasswordRoundTrip | src/app/src/SqliteUserStorage.cpp:52-63 | a password, the empty one included, comes back from its blob if and only if its length is an `int` |
| UserStore.VerificationRoundTrip | src/app/src/SqliteUserStorage.cpp:42-50 | every verification method survives its encoding |
| UserStore.AddSucceedsIff | src/app/src/SqliteUserStorage.cpp:153-189 | `add` goes through exactly when the email is free and the password's length, cut to an `int`, is not negative, so exactly when the email is free for passwords of up to 2^31-1 bytes; a constraint error exactly when such a password meets a taken email, any other error exactly when the length is negative |
| UserStore.AddRefines | src/app/src/SqliteUserStorage.cpp:153-189 | after `add` the email finds the user with the id that was set, every other email what it found before |
| UserStore.AddedRow | src/app/src/SqliteUserStorage.cpp:163-185 | `add` leaves exactly one new row, with the email, the password bytes and the method's byte, and sets its id |
| UserStore.FindersReadRows | src/app/src/SqliteUserStorage.cpp:90-136 | by email exactly the user of the row with that email is found, by id exactly the user of the row with that id; what is not found has no row |
| UserStore.UserFindersAgree | src/app/src/SqliteUserStorage.cpp:90-136 | on any tables whose user ids are in 1..2^31-1: a user found by email is found whole by its id, one found by id carries that id and is found whole by its email, and what finds nobody is in no row |
| UserStore.RegisterAnswersIff | src/app/inl/RegisterUserHandler.inl:34-62 | exactly when a registration is told that hashing failed, that the email is taken, an exception, or an id, and which id |
| UserStore.RegisterStores | src/app/inl/RegisterUserHandler.inl:36-57 | a registration stores one row with the hash and the password method 0, found as that user; unless it reports success it stores nothing |
| UserStore.SignInAnswersIff | src/app/include/Service/User/AuthUserViaGoogleHandler.h:78-123 | exactly when a sign-in alone is told that its key was rejected, whose the email is, or a new id, and which id |
| UserStore.SignInStores | src/app/include/Service/User/AuthUserViaGoogleHandler.h:100-122 | a sign-up stores one row with an empty password and the Google method 1, found as that user; otherwise a sign-in stores nothing |
| UserStore.LoginMeans | src/app/inl/LoginUserHandler.inl:34-52 | a login is told an id exactly when a row has its email and the hasher accepts the bytes stored there, and the id is that row's |
| UserStore.AddedIdFindsUserIff | src/app/src/SqliteUserStorage.cpp:185 | the id `add` sets finds the new user if and only if the row id fits `int` |
| Engine.SavepointGuard.Open | src/app/src/SqlitePluginOptionStorage.cpp:13-16 | a guard exists if and only if SAVEPOINT did not throw |
| Engine.SavepointGuard.Release | src/app/src/SqlitePluginOptionStorage.cpp:18-23 | RELEASE at most once; `released` only when it did not throw |
| Engine.SavepointGuard.Destroy | src/app/src/SqlitePluginOptionStorage.cpp:25-36 | an unreleased guard is undone, a released one left alone |
| Engine.GuardBrackets | src/app/src/SqlitePluginOptionStorage.cpp:7-37 | around any change of tables: destruction restores the connection, release keeps the change |
| UnitOfWork.StaysConsistent | src/app/src/SqliteStorageUoW.cpp:25-55 | in every state the transaction is open exactly while the unit is active, and then the lock is held |
| UnitOfWork.InactiveIsInert | src/app/src/SqliteStorageUoW.cpp:27-29 | after a successful commit or rollback no call does anything |
| UnitOfWork.EveryLifeEnds | src/app/include/Infra/SqliteStorageUoW.h:30-36 | any calls, any of them throwing, then destruction: no transaction is open, the mutex depth is as before, and the durable tables are read off the calls |
| UnitOfWork.UnitsAreAtomic | src/app/src/SqliteStorageUoW.cpp:5-55 | the same from the constructor on, for a unit that could be opened; it cannot only when BEGIN throws, and `SqliteStorageUoW.Open` says that the lock is then released |
| UnitOfWork.SqliteStorageUoW.Open | src/app/src/SqliteStorageUoW.cpp:5-12 | opens as the value model says, or leaves connection and mutex as they were |
| UnitOfWork.SqliteStorageUoW.Commit | src/app/src/SqliteStorageUoW.cpp:25-39 | commits, then ends the transaction object, then unlocks, as the value model says; a throw keeps everything |
| UnitOfWork.SqliteStorageUoW.Rollback | src/app/src/SqliteStorageUoW.cpp:41-55 | rolls back, ends the transaction object, unlocks, as the value model says |
| UnitOfWork.SqliteStorageUoW.Destroy | src/app/src/SqliteStorageUoW.cpp:14-23 | undoes an active unit, and unlocks only after its transaction has ended |
| PluginStorage.SqlitePluginOptionStorage.FindById | src/app/src/SqlitePluginOptionStorage.cpp:76-89 | the finder by id, or an exception exactly when a command threw; the mutex as before |
| PluginStorage.SqlitePluginOptionStorage.FindByUserIdAndName | src/app/src/SqlitePluginOptionStorage.cpp:91-106 | the finder by key, likewise |
| PluginStorage.SqlitePluginOptionStorage.LoadOneOption | src/app/src/SqlitePluginOptionStorage.cpp:108-123 | the whole option of a row, fields looked up under the id as read |
| PluginStorage.SqlitePluginOptionStorage.LoadFields | src/app/src/SqlitePluginOptionStorage.cpp:125-143 | exactly the option's field rows |
| PluginStorage.SqlitePluginOptionStorage.StepThrough | src/app/src/SqlitePluginOptionStorage.cpp:137-140 | the row loop collects all rows in whatever order they come |
| PluginStorage.SqlitePluginOptionStorage.UpsertAndGetId | src/app/src/SqlitePluginOptionStorage.cpp:145-197 | the two-branch upsert as specified by `PluginStore.UpsertAndGetId` |
| PluginStorage.SqlitePluginOptionStorage.Update | src/app/src/SqlitePluginOptionStorage.cpp:199-234 | all or nothing, open frames included; without faults it throws just what the specified update throws |
| PluginStorage.SqlitePluginOptionStorage.InsertFields | src/app/src/SqlitePluginOptionStorage.cpp:215-231 | the loop ends with exactly the new fields, or throws; a constraint error means the option row is missing |
| PluginHandlers.PostPluginOptionsHandler.Execute | src/app/include/Service/Plugin/PostPluginOptionsHandler.h:67-94 | failure-atomic: the whole POST durable, or the connection exactly as it was; mutex depth restored; every cause of an exception named |
| PluginHandlers.PostPluginOptionsHandler.FindAndUpdate | src/app/include/Service/Plugin/PostPluginOptionsHandler.h:72-89 | the read-modify-write has POST's effect or none |
| PluginHandlers.GetPluginOptionsHandler.Execute | src/app/include/Service/Plugin/GetPluginOptionsHandler.h:69-81 | answers the lookup or not-found and changes nothing |
| UserHandlers.SqliteUserStorage.FindById | src/app/src/SqliteUserStorage.cpp:90-112 | exactly the user of the row with that id, nobody exactly when there is no such row, or an exception exactly when a command threw; the mutex as before |
| UserHandlers.SqliteUserStorage.FindByEmail | src/app/src/SqliteUserStorage.cpp:114-136 | the user of the row with that email, nobody exactly when there is none, or an exception exactly when a command threw |
| UserHandlers.SqliteUserStorage.Add | src/app/src/SqliteUserStorage.cpp:153-189 | all or nothing; EmailAlreadyRegisteredError only when the specified `add` says so |
| UserHandlers.RegisterUserHandler.Execute | src/app/inl/RegisterUserHandler.inl:31-63 | a reported registration is durable, found as the user with that id, the hash and the password method; anything else changed nothing; mutex and frames as before |
| UserHandlers.AuthUserViaGoogleHandler.Execute | src/app/include/Service/User/AuthUserViaGoogleHandler.h:78-123 | the same for a sign-in, with its check before the unit of work |
| UserHandlers.LoginUserHandler.Execute | src/app/inl/LoginUserHandler.inl:34-52 | without an exception, an id is answered exactly when a row has that email and the hasher accepts its stored bytes, and it is the row's id |
| History.ReplayKeepsIds | src/app/src/SqlitePluginOptionStorage.cpp:145-207 | in every reachable state option ids are in 1..2^31-1 and user row ids positive |
| History.LookupFindsLatestPost | src/app/include/Service/Plugin/GetPluginOptionsHandler.h:69-81 | after any history GET finds flags and fields of the latest successful POST for its key, or nothing |
| History.OptionIdsAreStable | src/app/include/Service/Plugin/PostPluginOptionsHandler.h:72-89 | once a key has an id, it keeps it through every later history |
| History.UsersAreStable | src/app/src/SqliteUserStorage.cpp:114-189 | a user once found keeps id, password bytes and verification method through every later history |
| History.UsersAreStableById | src/app/src/SqliteUserStorage.cpp:90-112 | an id that finds a user finds the same one, whole, after every later history, posts included |
| History.UserFindersAgreeAlways | src/app/src/SqliteUserStorage.cpp:90-136 | while row ids fit `int`, both user finders agree on everybody after every history, posts included |
| History.FoundIffAdded | src/app/src/SqliteUserStorage.cpp:114-189 | an email finds somebody exactly when some effect of the history added it |
| History.LoginAfterRegistration | src/app/inl/LoginUserHandler.inl:34-52 | in every state after a registration, the email finds the user with the registered id, bytes and password method, and login succeeds exactly when the hasher accepts those bytes, with that id |
| History.LoginAfterSignUp | src/app/include/Service/User/AuthUserViaGoogleHandler.h:101-123 | a Google user's empty password survives; login asks the hasher about it and nothing else |
| Turns.TurnFollows | src/app/include/Service/Plugin/PostPluginOptionsHandler.h:70-91 | each single move under the mutex, faulty or not, keeps the picture of how far the connection is from the committed tables, and an answer it settles is explained by them |
| Turns.CommitTurn | src/app/src/SqliteStorageUoW.cpp:31-38 | only COMMIT makes anything durable, the command's whole effect, and only the unlock follows it |
| Turns.DurableMeanwhile | src/app/src/SqliteStorageUoW.cpp:5-39 | wherever the mutex's owner is, the durable tables are those it started from |
| Serialisability.StepKeepsInv | src/app/src/SqliteStorageUoW.cpp:5-55 | the invariant tying mutex depth, connection, log and every thread's answer survives every possible event |
| Serialisability.RunKeepsInv | src/app/src/SqliteStorageUoW.cpp:5-55 | it holds after every interleaving of any number of threads |
| Serialisability.CommittedIsSerial | src/app/include/Service/Plugin/PostPluginOptionsHandler.h:70-91 | the durable tables are always the commits applied one at a time in commit order; a transaction is open only while the mutex is held |
| Serialisability.LogIsAccountedFor | src/app/include/Service/Plugin/PostPluginOptionsHandler.h:89-93 | each commit succeeded where it stands, is reported by its thread, and no thread has two |
| Serialisability.EveryAnswerIsSerial | src/app/src/SqlitePluginOptionStorage.cpp:91-106 | every finished command answered from the committed store of one moment between its start and now; a reported change is the commit of that moment, an unreported one left none |
| Faults.RunSurfaces | src/app/src/SqlitePluginOptionStorage.cpp:25-36 | once a command has thrown in a thread, only destructors, unlocks and that exception are left of its command |
| Faults.AnswersAreSettled | src/app/include/Service/Plugin/PostPluginOptionsHandler.h:67-94 | a finished command that a fault struck answered with an exception of its own kind and committed nothing; any other gave its solo answer on the store of its moment, or lost Google's race |
| Outcomes.GetAnswersLatestPost | src/app/include/Service/Plugin/GetPluginOptionsHandler.h:69-81 | under any interleaving GET shows the latest POST committed at its moment and no uncommitted row |
| Outcomes.PostFailsOnlyWithoutIds | src/app/include/Service/Plugin/PostPluginOptionsHandler.h:67-94 | under any interleaving a POST without a fault answers by whether its key exists or an id is left |
| Outcomes.CommittedIdsInRange | src/app/src/SqlitePluginOptionStorage.cpp:203-207 | committed option ids are in range in every reachable state of the machine |
| Outcomes.OneUserPerEmail | src/app/src/SqliteUserStorage.cpp:173-183 | no two commits of any interleaving add the same email |
| Outcomes.AddedUserIsFound | src/app/src/SqliteUserStorage.cpp:153-189 | a committed user is found at every later commit under the id that was reported |
| Outcomes.SuccessesStayFound | src/app/include/Service/User/AuthUserViaGoogleHandler.h:94-123 | every successful registration or sign-in returned the id its email is found under in the committed tables ever after |
| Answers.LoginAnswers | src/app/inl/LoginUserHandler.inl:34-52 | under any interleaving an unfaulted login is told an id exactly when a row of its moment has its email and the hasher accepts the stored bytes; an email that no commit added is told nothing |
| Answers.RegisterAnswers | src/app/inl/RegisterUserHandler.inl:31-63 | under any interleaving every answer of an unfaulted registration, by its hash and the commits before its moment |
| Answers.SignInAnswers | src/app/include/Service/User/AuthUserViaGoogleHandler.h:78-123 | the same for a sign-in, which for a taken email is told whose it is or that it lost the race |
| Answers.ReportedUsersAreStored | src/app/inl/RegisterUserHandler.inl:48-57 | under any interleaving, a reported registration or sign-up is stored ever after as the whole user it spoke of, found by its email and, while row ids fit `int`, by its id |
| Race.RaceIsLostIff | src/app/include/Service/User/AuthUserViaGoogleHandler.h:94-123 | a sign-in that went past its check and finds its email taken at its point got an error, Refused unless a fault struck it, and changed nothing; without a fault, Refused is the answer exactly of those whose email was free at their check and taken at their later point |
| Race.RunKeepsFree | src/app/include/Service/User/AuthUserViaGoogleHandler.h:94-98 | every sign-in past its check had found the email free in the store of that moment |
| Race.RunIsTracked | src/app/include/Service/User/AuthUserViaGoogleHandler.h:100-123 | past the check a sign-in can only add its user or fail to, and only through the check does it get there |
| RealTime.MomentsRespectRealTime | src/app/src/SqliteStorageUoW.cpp:5-39 | a command that returned before another was issued has its moment no later, and what it committed is there at the other's moment |
| RealTime.LoginFollowsRegistration | src/app/inl/LoginUserHandler.inl:34-52 | under any interleaving, an unfaulted login issued after a registration of its email was reported is told the registered id exactly when the hasher accepts the registered bytes |
| RealTime.LoginFollowsSignUp | src/app/inl/LoginUserHandler.inl:34-52 | the same after a Google sign-up, with the empty password |
| Progress.TurnsCount | src/app/src/SqlitePluginOptionStorage.cpp:221-230 | every move, faulty or not, uses up work, with pending inserts counted |
| Progress.MovesUseUpWork | src/app/src/SqliteStorageUoW.cpp:5-55 | whoever brings which mutex, the work of all threads together shrinks with every possible move |
| Progress.MovesAreBounded | src/app/src/SqlitePluginOptionStorage.cpp:221-230 | any schedule without new commands moves threads no more often than there was work |
| Progress.SomebodyCanMove | src/app/src/SqliteStorageUoW.cpp:5-12 | whoever brings which mutex, while some thread is unfinished, some unfinished thread can move |
| Progress.DoneIsAtRest | src/app/src/SqliteStorageUoW.cpp:14-39 | when all are finished every hold on every mutex has been given back and nothing is open |
| Progress.RestIsSerial | src/app/src/SqliteStorageUoW.cpp:14-39 | with one mutex the tables are then the commits one at a time |
| Locks.HoldsMatchPlaces | src/app/include/Infra/SqliteStorageUoW.h:30-36 | whoever brings which mutex, in every reachable state a thread holds its own as often as its place says, no other, and none after it has returned; a held mutex has an unfinished owner; while anything is open on the connection an unfinished thread that holds its mutex is there to close it |
| Locks.RunKeepsDiscipline | src/app/src/SqliteStorageUoW.cpp:5-55 | the invariant behind it holds after every interleaving, two mutexes on one connection included |
| Progress.CanFinish | src/app/src/SqliteStorageUoW.cpp:5-55 | from every state of that invariant all threads can be brought to rest in at most their work, without new commands or faults |
| Progress.EveryRunCanFinish | src/app/src/SqliteStorageUoW.cpp:5-55 | every reachable state can be finished in that way, whoever brings which mutex, and no schedule without new commands makes more moves than its work |
| SharedConnection.TwoMutexesAreNotSerial | src/app/src/main.cpp:86-94 | over any two mutexes there is a run without faults, of a POST and a sign-in, whose answers no serial order explains |
| SharedConnection.SerialIffOneMutex | src/app/src/main.cpp:86-94 | all runs over a set of mutexes are serial if and only if there is at most one mutex in it |
| LateRollback.FailedPostStaysDurable | src/app/include/Service/User/AuthUserViaGoogleHandler.h:117-122 | over any two mutexes there is a run without faults, of a POST and two sign-ins, in which everybody returns, the POST throws and has committed nothing, and its option is durable |
| MemoryUnitOfWork.FlagsAgree | src/app/include/Infra/InMemoryUserStorageUoW.h:22-36 | after any calls, some of them throwing on the SQLite side, both units of work report the same flags |
| MemoryUnitOfWork.FirstCallDecides | src/app/src/InMemoryPluginOptionStorageUoW.cpp:14-29 | the first commit or rollback that takes effect decides the flags of both units for good |
| MemoryUnitOfWork.InMemoryStorageUoW.Commit | src/app/include/Infra/InMemoryUserStorageUoW.h:22-28 | ends an active unit as committed, and leaves an ended one alone |
| MemoryUnitOfWork.InMemoryStorageUoW.Rollback | src/app/include/Infra/InMemoryUserStorageUoW.h:30-36 | ends an active unit as not committed, and leaves an ended one alone |
| MemoryPlugins.UserNameKeyInjective | src/app/src/InMemoryPluginOptionStorage.cpp:37-46 | two pairs print alike if and only if they are equal, negative ids and colons in names included |
| MemoryPlugins.StoreRefines | src/app/src/InMemoryPluginOptionStorage.cpp:15-32 | the string-keyed map behaves as a map from pairs |
| MemoryPlugins.InMemoryPluginOptionStorage.MakeUserNameKey | src/app/src/InMemoryPluginOptionStorage.cpp:37-46 | the buffer ends as the number, a colon and the name |
| MemoryPlugins.InMemoryPluginOptionStorage.Update | src/app/src/InMemoryPluginOptionStorage.cpp:26-32 | both maps change as the specification `Store` says, and nothing else |
| MemoryPlugins.InMemoryPluginOptionStorage.ExecutePost | src/app/include/Service/Plugin/PostPluginOptionsHandler.h:67-94 | POST over this storage cannot fail and stores the merged option |
| PluginEquivalence.AnswersAgreeIff | src/app/src/InMemoryPluginOptionStorage.cpp:15-32 | every answer of a run is the same from both storages, up to the option's id, if and only if at most 2^31-1 different keys are posted |
| PluginEquivalence.RunsMirror | src/app/src/SqlitePluginOptionStorage.cpp:91-234 | while ids last, both storages find the same under every key, and ids are handed out without gaps |
| PluginEquivalence.AnswersPart | src/app/src/SqlitePluginOptionStorage.cpp:203-207 | a run with more keys has an answer that tells the storages apart |
| PluginEquivalence.IdIndexCollapses | src/app/src/InMemoryPluginOptionStorage.cpp:26-32 | after any run the index by id holds just the option posted last, under id 0, while lookups by key stay right |
| MemoryUsers.OperationKeepsAgreementIff | src/app/src/InMemoryUserStorage.cpp:36-58 | an `add` or `update` keeps the same users in both indexes, none with an id past _lastId, if and only if it is in order |
| MemoryUsers.AddKeepsAgreementIff | src/app/src/InMemoryUserStorage.cpp:36-50 | for `add`: if and only if the email is taken or an id is left |
| MemoryUsers.UpdateKeepsAgreementIff | src/app/src/InMemoryUserStorage.cpp:52-58 | for `update`: if and only if a known id keeps its email, a known email keeps its id, and the id is not past _lastId |
| MemoryUsers.UpdateIsFound | src/app/src/InMemoryUserStorage.cpp:52-58 | after an update in order both finders return the updated user, password and all, and everybody else as before |
| MemoryUsers.AddIsFound | src/app/src/InMemoryUserStorage.cpp:36-50 | an `add` of a free email is found by it and under the next id, everybody else as before; one of a taken email changes nothing |
| MemoryUsers.HandlersStore | src/app/inl/RegisterUserHandler.inl:36-57 | a registration or sign-up over this storage is found as the user it reported, with its own method, and otherwise changes nothing |
| MemoryUsers.RunsAgreeIff | src/app/src/InMemoryUserStorage.cpp:36-69 | the indexes agree all along a run if and only if every operation was in order |
| MemoryUsers.OperationLeavesNoGapsIff | src/app/src/InMemoryUserStorage.cpp:36-69 | beyond what the source promises: an operation in order leaves the ids 1.._lastId without gaps if and only if an `update` is for a user who exists |
| MemoryUsers.RunsLeaveNoGaps | src/app/src/InMemoryUserStorage.cpp:36-69 | the ids are 1.._lastId after every run in order whose updates are for users who exist |
| MemoryUsers.InMemoryUserStorage.AddUser | src/app/src/InMemoryUserStorage.cpp:36-50 | a taken email changes neither index nor counter; a free one stores the user in both under the next id |
| MemoryUsers.InMemoryUserStorage.Update | src/app/src/InMemoryUserStorage.cpp:52-58 | writes both indexes without looking at what they held |
| MemoryUsers.InMemoryUserStorage.GenerateId | src/app/src/InMemoryUserStorage.cpp:65-69 | only the counter moves, by one |
| MemoryUsers.InMemoryUserStorage.ExecuteRegister | src/app/inl/RegisterUserHandler.inl:31-63 | registration over this storage has the specified effect and answer; a reported user is found with the hash and the password method |
| MemoryUsers.InMemoryUserStorage.ExecuteSignIn | src/app/include/Service/User/AuthUserViaGoogleHandler.h:78-123 | so has a Google sign-in |
| UserEquivalence.StepKeepsMirrorIff | src/app/src/SqliteUserStorage.cpp:159-189 | one request is answered alike and leaves the same users in both storages if and only if its hash fits |
| UserEquivalence.StoragesAreAlikeIff | src/app/src/InMemoryUserStorage.cpp:36-50 | no run tells the storages apart, equal ids included, if and only if all its hashes fit; failed adds consume no id in either |
| UserEquivalence.LongPasswordsShow | src/app/src/SqliteUserStorage.cpp:159-172 | a password too long for `int` is refused by SQLite or comes back shorter, never by memory |
| UserEquivalence.SameUsersById | src/app/src/InMemoryUserStorage.cpp:8-16 | while row ids fit `int`, both storages find the same user under every id |
| Jwt.RetrieveAnswersIff | src/app/include/Service/JwtHandler.h:105-134 | exactly which verdict and which lookup lead to each answer: expired, no id, unknown user, other exception, or the id |
| Jwt.RetrieveYieldsOnly | src/app/include/Service/JwtHandler.h:105-124 | an id is read back exactly when the token verifies and the user exists, and it is the one the token carries |
| Jwt.RefreshAnswersIff | src/app/include/Service/JwtHandler.h:136-194 | for any signer, exactly what leads to each answer; a pair whose auth token still verifies comes back unchanged, and a new one is signed only when the old was refused and the refresh token is good |
| Jwt.RefreshGoesByFirstVerified | src/app/include/Service/JwtHandler.h:136-194 | for any pair, matching or mixed, and an honest signer: success exactly when the first verified token names a known user; the auth token handed out carries that id; the refresh token comes back unchanged |
| Jwt.ChainCarriesId | src/app/include/Service/JwtHandler.h:97-194 | after one create and any refreshes both tokens carry the original id, and the refresh token is the original |
| Jwt.ChainRetrievesId | src/app/include/Service/JwtHandler.h:105-124 | whatever is read back from such a chain is the original id |
| Jwt.ChainKeepsLifetimes | src/app/include/Service/JwtHandler.h:136-215 | at the end of a chain the auth token lives a quarter of an hour from the last attempt at which the one before it had been refused, or from the create if none had; the refresh token keeps its first seven days |
| Jwt.IdsComeFromCreates | src/app/include/Service/JwtHandler.h:97-194 | whatever pairs anyone presents, every token handed out carries an id some create was asked for |
| Bus.HandlersAreLatest | src/app/include/Service/MessageBus.h:52-130 | each entry of the map is the latest registration for its type, and was made for that type |
| Bus.CallsReachLatest | src/app/include/Service/MessageBus.h:132-155 | after any registrations, expiries and calls no cast fails, and a call answers as the latest registration for its type: none, expired, the handler's failure or its result |
| Bus.MessageBus.RegisterCallback | src/app/include/Service/MessageBus.h:52-64 | the registration joins the bus's history, and the map stays what that history prescribes |
| Bus.MessageBus.RegisterMethod | src/app/include/Service/MessageBus.h:66-86 | the same for a method of a weakly held object |
| Bus.MessageBus.Expire | src/app/include/Service/MessageBus.h:72-78 | the last shared pointer to an object going away joins the history too |
| Bus.MessageBus.CallHandler | src/app/include/Service/MessageBus.h:132-150 | no cast fails, and the answer is the one the bus's whole history prescribes |

## Left out

What the model assumes:

- SQLiteCpp is not part of this model. Its transaction object is taken to issue ROLLBACK when it is destroyed uncommitted, also
  after an explicit rollback, and to ignore an error of that command.
- The serialisability theorems and what follows from them are for threads that all bring one mutex, as the threads of one storage
  with a connection of its own do. This is the predicate `Serialisability.OneMutex`; result 4 shows that it is needed. Lock
  discipline and progress need no such hypothesis.
- A blob whose length comes out negative when cut to an `int` is taken to be refused by SQLite, which leaves that case undefined;
  the "only if" of `UserEquivalence.StoragesAreAlikeIff` rests on it.
- SAVEPOINT, RELEASE, COMMIT, SELECT and every other statement may throw at any time; commands issued by destructors are taken to
  succeed where the connection lets them. A destructor's two commands are one move of the machine, and so are a SELECT and the
  loop over its rows. The sequential classes take the loop row by row.

What it does not cover:

- The HTTP layer, the router, the networking behind the Google key handler (an answer that is an email or an error), libsodium
  (an answer that is a hash or an error, and a predicate on stored bytes) and HS256 (an abstract signer).
- SQLite's file format, WAL, pragmas, busy timeout, crash recovery, errors that roll back a whole transaction, its limits on the
  size of a value, and row ids near 2^63.
- `SqliteUserStorage::update` and `existsByEmail`: no handler calls them.
- The unit of work's own flag mutex and the shared mutexes of the in-memory storages and the bus: those objects are taken one
  thread at a time.
- That signing may throw inside a refresh; and whether the signer looks at a token's expiration.
- MemoryUsers.NextId: past 2^31-1 users the counter wraps around here; in C++ that overflow is undefined.
- Bus.MessageBus.CallHandler: the values of commands and results are plain numbers, and a handler that calls the bus again is not
  followed.
