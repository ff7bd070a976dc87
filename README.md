# Bills payable: a Dafny model of the ledger, user and preference services

This project models the core of an Ionic/Angular app that tracks the bills ("contas") a user has to pay. Three services sit over one shared key-value store:

- **The bill ledger** (`ContasService`) holds ONE list of bills for all users, under the key `contas`. It creates bills as `pendente` for the logged-in user. It merges partial updates into the first bill with a given id, and pays a bill by setting `paga` with a payment date. It deletes every bill with an id. It answers per-user views and filters (status, category, inclusive due-date range). It lists distinct categories. It sweeps stale `pendente` bills to `atrasada`, writing the list only if something changed, and it folds a user's bills into a summary `{total, pagas, pendentes, atrasadas}`.
- **The user registry** (`AuthService`) keeps a user list under `users`, the logged-in user in memory and under `currentUser`, and a session token under `authToken`. Register refuses a taken email. Login picks the first user matching email and password. Update replaces by id, and delete filters by id and logs out a deleted current user.
- **Preferences** (`PreferencesService`) lay a stored record over fixed defaults (`theme`, `notifications`, `language`, `fontSize`), with partial update, single-key set and reset.

The store is the class `Store.Storage`: a field `data: map<string, Value>` and a flag `writable`. When the flag is false, every `set` fails (throws, in the source); `get` and `remove` always succeed. Every service method touches the store only through `storage`data`, so the flag never changes during a call. A published `BehaviorSubject` value is a class field, and `next(...)` is an assignment to it. Instants (`new Date()`, `Date.now()`), new ids and generated tokens are method parameters. Dates are `int` milliseconds and amounts are `int` cents.

Files: `wrappers.dfy` (Option), `seqs.dfy` (`filter`, `findIndex` and `Array.from(new Set(..))` as the generic `Filter`, `FirstIndex` and `Distinct`, plus subsequence lemmas), `conta_model.dfy` (`src/app/models/conta.model.ts`: the three-valued `Status`; `Conta`, where `dataPagamento` and `observacoes` are the only optional fields; `ContaFiltros`, where every field is optional and the filter's status ranges over the same `Status`), `user_model.dfy`, `store.dfy`, `auth.dfy`, `contas.dfy`, `preferences.dfy`, and `scenario.dfy`. The last file holds two client methods that use only the contracts. In the first, a user registers, a second registration with the same email is refused, the user logs in and then logs out. In the second, a rent bill is created pending, found overdue after its due date, paid, and summarised as `{total: 120000, pagas: 120000, pendentes: 0, atrasadas: 0}`. Deleting an unknown id then leaves the ledger unchanged.

The model follows what the code does, also where that departs from the evident intent of the app:
- Failures are `null`/`false` answers, never typed errors: an unknown bill, a missing login and a failed write are told apart only by the state they leave.
- An update or a sweep whose write fails leaves the in-memory ledger CHANGED. Both mutate the live list before the awaited write. The store stays as it was.
- A created bill keeps any `dataPagamento` the caller passes in. So the intended invariant of a bill, "status `paga` exactly when a payment date is set", holds after creation only when none is passed (`Contas.ContaCriada`). Payment establishes it (`Contas.PagamentoQuita`) and the sweep preserves it (`Contas.MarcarAtrasadas`). An arbitrary update can break it.
- The category filter ignores an empty category, because an empty string is falsy. A date bound, like every `Date` object, is always applied.

## Model

| member | source | states |
|---|---|---|
| `Store.Storage.Set` | src/app/services/storage.service.ts:20-22 | a write either stores the value under the key and touches no other key, or fails and stores nothing |
| `Store.Storage.Remove` | src/app/services/storage.service.ts:30-32 | removes exactly that key |
| `Contas.ContasService.constructor` | src/app/services/contas.service.ts:15-22 | the ledger is empty until it is loaded |
| `Contas.ContasArmazenadas` | src/app/services/contas.service.ts:26 | the stored list, or the empty list when nothing is stored |
| `Contas.ContasService.LoadContas` | src/app/services/contas.service.ts:24-31 | the ledger becomes the stored list, or empty |
| `Contas.ContaCriada` | src/app/services/contas.service.ts:40-47 | a new bill is `pendente`, owned by the current user, carries the new id, has `createdAt = updatedAt = now` and the caller's other fields; it satisfies the payment invariant iff no payment date was passed |
| `Contas.ContasService.CriarConta` | src/app/services/contas.service.ts:33-58 | with no current user or a failing write: no bill and nothing changes; otherwise exactly that bill is appended, earlier bills untouched, and the store holds the new list |
| `Contas.Mesclar` | src/app/services/contas.service.ts:67-72 | every field the patch carries (`id`, `userId`, `descricao`, `valor`, `dataVencimento`, `dataPagamento`, `status`, `categoria`, `observacoes`, `createdAt`) takes the patch's value, and every field it does not carry keeps the bill's; `updatedAt` is always `now`, even when the patch carries one; an empty patch only refreshes `updatedAt` |
| `Contas.MesclarEmSequencia` | src/app/services/contas.service.ts:68-71 | two merges in a row equal one merge with the later patch laid over the earlier |
| `Contas.IndiceDe` | src/app/services/contas.service.ts:63 | the position of the FIRST bill with the id, with no earlier bill carrying it; none exactly when no bill has the id |
| `Contas.ContasService.AtualizarConta` | src/app/services/contas.service.ts:60-83 | an unknown id gives false and changes nothing; otherwise only the FIRST bill with the id is merged, the result is whether the write succeeded, and the store changes only on success |
| `Contas.PagamentoQuita` | src/app/services/contas.service.ts:85-90 | paying sets `paga`, the payment date and `updatedAt` to `now`, keeps every other field, and leaves the bill consistent |
| `Contas.PatchPagamento` | src/app/services/contas.service.ts:86-89 | the payment patch carries `status = paga` and `dataPagamento = now` and no other field |
| `Contas.PagarDuasVezes` | src/app/services/contas.service.ts:85-90 | paying twice has the outcome of paying once at the later instant |
| `Contas.ContasService.PagarConta` | src/app/services/contas.service.ts:85-90 | an unknown id changes nothing; otherwise the first bill with the id becomes `paga` with payment date `now`, and all other bills and fields are unchanged |
| `Contas.SemId` | src/app/services/contas.service.ts:94 | no bill with the id remains; all others remain with their multiplicity and in order; an absent id leaves the list unchanged |
| `Contas.ContasService.DeletarConta` | src/app/services/contas.service.ts:92-102 | if the write succeeds, the ledger and store become the list without the id and the result is true, also for an absent id; if it fails, nothing changes and the result is false |
| `Contas.DoUsuario` | src/app/services/contas.service.ts:109 | exactly the user's bills, in ledger order |
| `Contas.AtendeFiltros` | src/app/services/contas.service.ts:156-165 | no criteria (or only an empty category) accepts every bill; a status, a non-empty category, a lower or an upper due-date bound each rejects a bill that misses it; a bill meeting status and both inclusive bounds is accepted |
| `Contas.AplicarFiltros` | src/app/services/contas.service.ts:155-166 | a subsequence of exactly the bills meeting every present criterion: status, non-empty category, due date within the inclusive bounds; no criteria returns the input unchanged |
| `Contas.ContasService.GetContasDoUsuario` | src/app/services/contas.service.ts:104-120 | empty with no current user; otherwise an in-order subsequence of the ledger holding exactly the current user's bills that pass the optional filters |
| `Contas.ContasService.GetContaPorId` | src/app/services/contas.service.ts:122-130 | none iff no bill has the id; otherwise the first bill with it, the one an update would change |
| `Contas.MarcarAtrasadas` | src/app/services/contas.service.ts:138-144 | every `pendente` bill due before `now` becomes `atrasada` with `updatedAt = now` and nothing else changed; all other bills are untouched; no stale bill remains; the list changes iff some bill was stale; the payment invariant is preserved |
| `Contas.ContasService.VerificarContasAtrasadas` | src/app/services/contas.service.ts:132-153 | the in-place loop yields exactly `MarcarAtrasadas` of the old ledger; the store is written only when some bill was stale |
| `Contas.VarreduraIdempotente` | src/app/services/contas.service.ts:134-149 | a second sweep at the same instant changes nothing, so it writes nothing |
| `Contas.VarreduraPorUsuario` | src/app/services/contas.service.ts:109 | the sweep commutes with the per-user view: it never moves a bill between users |
| `Contas.VarreduraPreservaTotais` | src/app/services/contas.service.ts:138-144 | the sweep leaves the summary's total and `pagas` unchanged, and `pendentes + atrasadas` unchanged |
| `Contas.CategoriasDe` | src/app/services/contas.service.ts:171 | the category of each bill, position by position |
| `Contas.Categorias` | src/app/services/contas.service.ts:171-172 | every category in the list appears exactly once and nothing else, ordered by first appearance: each category's every occurrence has all earlier-listed categories ahead of it |
| `Contas.ContasService.GetCategorias` | src/app/services/contas.service.ts:168-177 | the current user's categories, each once, in order of first use among that user's bills, and no category used only by another user |
| `Contas.Acumular` | src/app/services/contas.service.ts:189-203 | one reduce step adds the amount to the total and to exactly the bucket of the bill's status, leaving the other two buckets alone |
| `Contas.Reduzir` | src/app/services/contas.service.ts:188-209 | folding no bills returns the accumulator; any fold adds as much to the total as to the three buckets together |
| `Contas.ReduzirSoma` | src/app/services/contas.service.ts:188-209 | the left fold adds to its accumulator the sum of all amounts and the sums per status |
| `Contas.SomaParticiona` | src/app/models/conta.model.ts:8 | because the status has exactly three values, the total is the sum of the three status sums |
| `Contas.Resumir` | src/app/services/contas.service.ts:188-209 | `total = pagas + pendentes + atrasadas`; each bucket sums the amounts of its status; no bills gives all zeros |
| `Contas.ResumirConcat` | src/app/services/contas.service.ts:188-209 | the summary of two lists is the sum of their summaries, so the order of the bills does not matter |
| `Contas.ContasService.GetResumoFinanceiro` | src/app/services/contas.service.ts:179-219 | the current user's summary is balanced, each bucket sums its status, and with no current user it is all zeros |
| `Auth.AuthService.constructor` | src/app/services/auth.service.ts:16-20 | no user is logged in at start |
| `Auth.AuthService.InitializeCurrentUser` | src/app/services/auth.service.ts:22-25 | the published user becomes the stored current user, or none |
| `Auth.AuthService.CurrentId` | src/app/services/auth.service.ts:133 | `currentUserValue?.id`: none when nobody is logged in, otherwise exactly the logged-in user's id (itself possibly absent) |
| `Auth.AuthService.GetAllUsers` | src/app/services/auth.service.ts:163-166 | the stored user list, or the empty list |
| `Auth.AuthService.IsAuthenticated` | src/app/services/auth.service.ts:168-171 | true exactly when a truthy token is stored |
| `Auth.IndexOfCredentials` | src/app/services/auth.service.ts:78 | the position of the FIRST user whose email and password both match, with no earlier match; none exactly when no user matches both |
| `Auth.RejectedLogin` | src/app/services/auth.service.ts:84 | the user echoed by a refused login carries the given email and password, an empty name and nothing else |
| `Auth.Registered` | src/app/services/auth.service.ts:45-50 | the stored record keeps the caller's name, email and password and gets the new id, `createdAt` and `isActive = true` |
| `Auth.AuthService.Register` | src/app/services/auth.service.ts:31-73 | a taken email is refused with the list unchanged; a failing write is refused with nothing written; otherwise exactly one user is appended; distinct emails stay distinct |
| `Auth.RegisterKeepsEmailsDistinct` | src/app/services/auth.service.ts:34-53 | appending a user whose email is not taken keeps all emails pairwise distinct |
| `Auth.AuthService.Login` | src/app/services/auth.service.ts:75-115 | no match for both email and password means failure, with the current user and store unchanged; otherwise the FIRST match, stamped with `lastLogin`, is written back by id, stored as the current user with the token, and published; a successful login is authenticated iff the token is non-empty |
| `Auth.IndexOfId` | src/app/services/auth.service.ts:126 | the position of the FIRST user with that id, with no earlier one; none exactly when no user has it |
| `Auth.AuthService.Logout` | src/app/services/auth.service.ts:117-121 | no current user; exactly the user and token keys are removed; not authenticated |
| `Auth.ReplaceById` | src/app/services/auth.service.ts:126-129 | only the first user with the same id is replaced; no match leaves the list unchanged |
| `Auth.AuthService.UpdateUser` | src/app/services/auth.service.ts:123-144 | true iff some user has the id and the write succeeds; false writes nothing; the stored and published current user change only when its id is the updated one |
| `Auth.WithoutId` | src/app/services/auth.service.ts:149 | no user with the id remains; the others remain in order |
| `Auth.DeleteKeepsEmailsDistinct` | src/app/services/auth.service.ts:149 | deleting users keeps emails pairwise distinct |
| `Auth.AuthService.DeleteUser` | src/app/services/auth.service.ts:146-161 | true iff the write succeeds, also when no user has the id; the current user is cleared, and its keys removed, exactly when its id is the deleted one |
| `Preferences.PreferencesService.constructor` | src/app/services/preferences.service.ts:21-32 | before any load the preferences are the defaults |
| `Preferences.StoredPrefs` | src/app/services/preferences.service.ts:36 | a stored preferences record, or none |
| `Preferences.PreferencesService.LoadPreferences` | src/app/services/preferences.service.ts:34-46 | a stored record is laid over the defaults (stored keys win, other default keys keep their defaults) without writing; with none stored the defaults are written and published, or nothing changes if the write fails |
| `Preferences.PreferencesService.UpdatePreferences` | src/app/services/preferences.service.ts:48-59 | on a successful write, patch keys take the patch's values and every other key is unchanged, in the store and in memory; on failure nothing is published and the result is false |
| `Preferences.PreferencesService.ResetPreferences` | src/app/services/preferences.service.ts:61-70 | on success both the published and the stored record are the defaults, whatever they were before (so a second reset is idempotent); on failure nothing changes |
| `Preferences.PreferencesService.GetCurrentPreferences` | src/app/services/preferences.service.ts:72-74 | exactly the published record, which always has every default key |
| `Preferences.PreferencesService.GetPreference` | src/app/services/preferences.service.ts:76-79 | with a record stored, that record's entry for the key, absent if the key is missing there; with none stored, the default |
| `Preferences.PreferencesService.SetPreference` | src/app/services/preferences.service.ts:81-92 | on success only the given key changes; on failure nothing changes |
| `Preferences.SetIsSingleKeyUpdate` | src/app/services/preferences.service.ts:84 | setting one key is the update with a one-key patch |

## Left out

- Subscriptions and asynchrony: `BehaviorSubject`/`Observable` mechanics, subscriber callbacks and interleaved `async` calls are not modelled; each method is one atomic step, and publishing is assigning the field.
- Storage: only `set` can fail. `get` and `remove` never fail, so the catch blocks for failed reads (in `loadContas`, `getAllUsers` inside register and login, `loadPreferences`) are not modelled. Neither is the window before `StorageService.init` finishes, in which `set` silently does nothing. `clear` and `keys` are not used by the core.
- A stored value of an unexpected shape under a key is read as absent. JavaScript would use any truthy value as it is.
- Time and randomness: `new Date()`, `Date.now()` and `generateToken()` are parameters. The several `new Date()` calls of one operation are taken to be the same instant: `updatedAt` and `dataPagamento` in `pagarConta`, `createdAt` and `updatedAt` in `criarConta`, and in `verificarContasAtrasadas` the instant `hoje` compared against the due dates and the `updatedAt` stamped on each overdue bill. Ids are not assumed unique.
- Contas.ContasService.CriarConta: a logged-in user WITHOUT an id counts as no user. The source would create a bill with an undefined `userId`; `register` always assigns an id.
- Aliasing: the sweep mutates bill objects that an earlier `getContasDoUsuario` result still references. The model works on values, so such earlier results do not change.
- `Partial<Conta>` may carry `undefined` for optional fields (`Some(None)`), but not for required ones.
- Auth.AuthService.Login: availability is the same for the whole call, so a write failing partway is not modelled. In the source, `login` writes up to four times: the user list and possibly the current user inside `updateUser`, then the current user, then the token. If a later write fails after earlier ones succeeded, the store keeps the earlier writes and the call returns `ErroAoLogar`. The model promises an unchanged store for every failed login.
- Preference values: the source's `[key: string]: any` is narrowed to strings, booleans and integers (`Store.PrefValue`); nested objects, arrays and floating-point values are not modelled.
- Auth.AuthService.UpdateUser: a failure of the second write (the current user), after the user list was written, is not modelled. Availability is the same for the whole call.
- The `valor` field is a JavaScript float in the source and `int` cents here, so the summary equality is exact.
- UI pages and modules (forms, alerts, navigation, `passwordMatchValidator`) are not part of this model. Neither are logging and `console.error`.
