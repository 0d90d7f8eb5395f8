# Baseball stats tracker: verified model of its logic

This project models in Dafny the three parts of a browser-based baseball statistics tracker that hold real logic:

- **Dashboard aggregation and rates** (`stats.dfy`, `rates.dfy`, `mockdata.dfy`).
  - The dashboard folds the player list into batting totals and pitching totals for the selected player id.
  - It then derives eight rates from the totals: AVG, OBP, SLG, OPS, ERA, WHIP, K/BB and BAA.
  - Each rate returns a literal zero string when its denominator is zero. Otherwise it renders the ratio with `toFixed`.
  - A rate is modelled as `ZeroText | Ratio(value) | NotANumber`. The rendered number is the exact ratio rounded to 2 or 3 places, ties going up.
  - OPS adds the two numbers read back from the rounded OBP and SLG strings. The model proves that this sum needs no further rounding. It also proves the sum is within 0.001 of the exact OBP + SLG, and gives an input where it differs from rounding the exact sum.
  - BAA is applied to the pitching totals, which have no at-bats field. The guard `AB === 0` therefore never fires there, and hits divided by a missing value is `NaN`. The model keeps `AB` as an optional field and proves that BAA of the folded pitching totals is always `NotANumber`.
  - Innings pitched are added as plain decimals, as the code does. For example, 6.1 + 0.2 gives 6.3, not the seven innings the thirds notation stands for.
- **User registry** (`auth.dfy`, `text.dfy`).
  - The registry holds a list of users and an optional session.
  - Registration refuses an address that is already stored, ignoring case. Otherwise it appends the user with the address lowercased.
  - Login needs an address equal ignoring case and an exactly equal password. On success the session holds the first matching user's name and stored address.
  - Logout clears the session.
  - Lowercasing is modelled on ASCII letters.
  - Proved: any sequence of registrations, logins and logouts keeps the stored addresses lowercase and pairwise distinct ignoring case. A fresh registration is followed by a successful login.
- **Registration form** (`registerform.dfy`).
  - The submit handler checks, in order: password confirmation, then empty fields, then password length below 6.
  - It calls the registry only when all three checks pass.
  - Only on success does it schedule `onRegister`, which navigates to the dashboard. Registering stores no session, so the new user is not logged in.

## Model

| member | source | states |
|---|---|---|
| Stats.AggregateBatting | src/pages/Dashboard.tsx:162-181 | every batting total equals the sum of that field over exactly the entries whose id equals the selected id |
| Stats.AggregatePitching | src/pages/Dashboard.tsx:183-204 | every pitching total equals the sum of that field over the selected entries, and the totals carry no at-bats field |
| Stats.TotalPermutation | src/pages/Dashboard.tsx:162-204 | a field sum over the selected entries depends only on which entries the list holds, not on their order |
| Stats.BattingOrderIndependent | src/pages/Dashboard.tsx:162-181 | two orderings of the same player list give identical batting totals |
| Stats.PitchingOrderIndependent | src/pages/Dashboard.tsx:183-204 | two orderings of the same player list give identical pitching totals |
| Stats.NoMatchGivesZero | src/pages/Dashboard.tsx:162-204 | with no entry for the selected id, or no selection, both totals are the all-zero seed records |
| Stats.UnselectedEntryIgnored | src/pages/Dashboard.tsx:164-178 | inserting another player's entry anywhere in the list changes neither total |
| Stats.SharedFieldsAgree | src/pages/Dashboard.tsx:162-204 | pitching H, R, BB and K equal batting H, R, BB and K, since both folds read the same stat-line fields |
| Rates.Rounded | src/pages/Dashboard.tsx:209 | the number `toFixed` renders has the requested places and lies within half a unit of the input, strictly above the lower bound for non-negative input |
| Rates.RoundedOnGrid | src/pages/Dashboard.tsx:229 | re-rendering a number that already has the requested places changes nothing |
| Rates.Shown | src/pages/Dashboard.tsx:229 | reading a rendered rate back gives no number exactly for `NaN`; the zero string reads as 0 and a ratio as its `toFixed` rounding; any number read has the rate's places and is within half a unit of the exact rate |
| Rates.CalcAVG | src/pages/Dashboard.tsx:207-210 | the zero string exactly when AB = 0; otherwise a ratio that times AB gives H, and lies in [0,1] when H ≤ AB |
| Rates.CalcOBP | src/pages/Dashboard.tsx:213-216 | the zero string exactly when AB + BB = 0; otherwise a ratio that times (AB + BB) gives H + BB, and lies in [0,1] when H ≤ AB |
| Rates.CalcSLG | src/pages/Dashboard.tsx:219-225 | the zero string exactly when AB = 0; otherwise a non-negative ratio that times AB gives the total bases H + 2B + 2·3B + 3·HR, at most 4 for consistent totals |
| Rates.SluggingAtLeastAverage | src/pages/Dashboard.tsx:207-225 | SLG is a ratio exactly when AVG is, and is never below it |
| Rates.AddShown | src/pages/Dashboard.tsx:229 | for two numeric rates the result is the sum of the two numbers read back from their renderings, which has their places and is within one unit of the sum of the exact rates; `NaN` if either is `NaN` |
| Rates.CalcOPS | src/pages/Dashboard.tsx:228-230 | OPS is always a number, equal to the number read back from the rendered OBP plus the one read back from the rendered SLG (not the rounding of their exact sum); it has three places so the final `toFixed(3)` leaves it unchanged, is within 0.001 of exact OBP + SLG, and is 0 when AB + BB = 0 |
| Rates.OPSRoundsPartsNotSum | src/pages/Dashboard.tsx:228-230 | one single in 2500 at-bats gives OPS 0.000 while the exact OBP + SLG would render as 0.001 |
| Rates.CalcERA | src/pages/Dashboard.tsx:233-236 | "0.00" exactly when IP = 0; otherwise a non-negative ratio that times IP gives 9·ER |
| Rates.CalcWHIP | src/pages/Dashboard.tsx:239-242 | "0.00" exactly when IP = 0; otherwise a non-negative ratio that times IP gives BB + H |
| Rates.CalcKBB | src/pages/Dashboard.tsx:245-248 | "0.00" exactly when BB = 0; otherwise a non-negative ratio that times BB gives K |
| Rates.CalcBAA | src/pages/Dashboard.tsx:251-254 | `NaN` exactly when the totals have no AB, the zero string exactly when AB = 0, otherwise a ratio that times AB gives H |
| Rates.BAAIsAVG | src/pages/Dashboard.tsx:251-254 | with an at-bats value present, BAA equals AVG on the same hits and at-bats |
| Rates.BAAOfAggregateIsNaN | src/pages/Dashboard.tsx:551 | BAA of the folded pitching totals is `NaN` for every player list and selection |
| Rates.UnselectedRatesAreZero | src/pages/Dashboard.tsx:206-248 | a player with no entries shows the zero string for AVG, OBP, SLG, ERA, WHIP and K/BB, and OPS 0 |
| MockData.InitialSelection | src/pages/Dashboard.tsx:157 | the initial selection is null exactly when the list is empty or the first id is the empty (falsy) string, and otherwise selects the first entry's id |
| MockData.SotoBatting | src/pages/Dashboard.tsx:73-100 | the first mock player is selected initially and their batting totals are 500 AB, 150 H, 30 2B, 5 3B, 30 HR, 90 RBI, 80 R, 70 BB, 100 K, 10 SB |
| MockData.SotoRates | src/pages/Dashboard.tsx:79-99 | for those totals AVG = 0.3, OBP = 220/570, SLG = 0.56 and OPS = 0.386 + 0.560 = 0.946 |
| MockData.ColePitching | src/pages/Dashboard.tsx:101-127 | the second mock player's pitching totals: 200 IP, 50 ER, 15–5, 5 HBP, 10 WP, 1 BK |
| MockData.ColeRates | src/pages/Dashboard.tsx:101-127 | for those totals ERA = 2.25, WHIP = 0, K/BB is the zero string, BAA is `NaN` |
| MockData.OhtaniPitching | src/pages/Dashboard.tsx:128-154 | the third mock player's pitching totals: 150 IP, 160 H, 40 ER, 80 BB, 90 K |
| MockData.OhtaniRates | src/pages/Dashboard.tsx:128-154 | for those totals ERA = 2.4, WHIP = 1.6, K/BB = 1.125, shown as 1.13 |
| MockData.UnknownPlayer | src/pages/Dashboard.tsx:160-204 | an id absent from the mock list, or no selection, gives the zero records |
| MockData.SingleGameBatting | src/pages/Dashboard.tsx:207-230 | 4 AB, 2 H, one double, one home run, one walk: AVG 0.5, OBP 0.6, SLG 1.5, OPS 2.1 |
| MockData.CompleteGamePitching | src/pages/Dashboard.tsx:233-248 | 9 IP, 3 ER, 9 H, 3 BB, 6 K: ERA 3, WHIP shown as 1.33, K/BB 2 |
| MockData.InningsAddAsDecimals | src/pages/Dashboard.tsx:187 | innings 6.1 and 0.2 of the same player add up to 6.3 |
| Text.LowerChar | src/components/AuthService.tsx:38 | an ASCII capital moves to its small letter, any other character is kept, and the result is never an ASCII capital |
| Text.Lower | src/components/AuthService.tsx:38 | lowering keeps the length and lowers every character in place |
| Text.LowerIdempotent | src/components/AuthService.tsx:57 | lowering an already lowered address changes nothing |
| Auth.IsEmailRegistered | src/components/AuthService.tsx:36-39 | true exactly when some stored user's address equals the given one after lowering both |
| Auth.FindUser | src/components/AuthService.tsx:83 | finds the first user whose address matches ignoring case and whose password matches exactly, or reports that none does |
| Auth.RegisterUser | src/components/AuthService.tsx:42-78 | a registered address (ignoring case) is refused with the store unchanged; a storage failure is the generic error with the store unchanged; otherwise exactly one user with the lowercased address is appended and the address is then registered |
| Auth.LoginUser | src/components/AuthService.tsx:81-92 | succeeds exactly when some user matches; the session then holds the first match's name and stored address; a failed login leaves the store unchanged |
| Auth.LogoutUser | src/components/AuthService.tsx:124-132 | after logout there is no current user and the users are unchanged |
| Auth.CurrentUserIsStored | src/components/AuthService.tsx:129-132 | after any sequence of registrations, logins and logouts from the empty store, the current user is absent or is the name and address of a stored user |
| Auth.RegisterKeepsValid | src/components/AuthService.tsx:49-65 | registration keeps the stored addresses lowercase and pairwise distinct ignoring case |
| Auth.RegisteredIgnoresCase | src/components/AuthService.tsx:36-39 | two addresses equal ignoring case are registered or not together |
| Auth.SecondRegistrationRefused | src/components/AuthService.tsx:49-51 | after a successful registration, the same address in any case is refused and the store is unchanged |
| Auth.RegistrationIgnoresMail | src/components/AuthService.tsx:95-121 | the registration outcome is the same whether the welcome mail is delivered or not |
| Auth.RegisterThenLogin | src/components/AuthService.tsx:42-92 | after registering a new address, logging in with it in any case and the same password succeeds and the session shows the new name and lowercased address |
| Auth.RunOnlyAppends | src/components/AuthService.tsx:63-65 | over any sequence of operations, users are only ever appended and earlier users stay as they were |
| Auth.RunKeepsValid | src/components/AuthService.tsx:49-65 | any sequence of registrations, logins and logouts preserves lowercase, pairwise distinct addresses |
| Auth.ReachableStoresValid | src/components/AuthService.tsx:25-28 | every store reachable from the empty store has pairwise distinct addresses ignoring case |
| RegisterForm.Validate | src/components/Register.tsx:31-59 | a mismatch is reported whenever the passwords differ; an empty-field error only with matching passwords and an empty field; a too-short error only for a non-empty password under 6 characters; no error exactly when all checks pass |
| RegisterForm.ValidateReportsFirstViolation | src/components/Register.tsx:31-59 | no error exactly when no check fails, and otherwise the earliest failing check in handler order |
| RegisterForm.HandleSubmit | src/components/Register.tsx:26-90 | an input error shows its message and leaves the store unchanged without calling the registry; valid input takes the registry's store and message, and schedules `onRegister` exactly on success |
| RegisterForm.ScheduledMeansRegistered | src/components/Register.tsx:62-73 | when `onRegister` is scheduled, the address was new, the password passed every check, one user was appended, the session is unchanged (no automatic login), and that user can log in |
| RegisterForm.RefusedLeavesStore | src/components/Register.tsx:31-80 | when `onRegister` is not scheduled, the store is unchanged and an error notice is shown |
| RegisterForm.MismatchWinsOverEmptyFields | src/components/Register.tsx:31-59 | on concrete forms: a mismatch is reported even when every field is empty, an empty name and address are reported before a short password, and a three-character password is refused |

## Left out

- Text rendering of rates: `toFixed` is modelled by the number it denotes, on exact reals. Binary floating-point artefacts are not modelled, such as a decimal tie that a double stores just below the tie. Neither is exponential notation for values of 10^21 and above.
- The `!stats` part of each rate guard: every call site passes an object, so that branch cannot be taken.
- Innings in thirds notation: the code sums innings as plain decimals and the model does the same. Correct thirds arithmetic is not modelled.
- PDF layout and CSV export (`exportToPDF`, `csvData`): rendering and export plumbing. Only the BAA call site is used, to show what the exports read.
- The `players.find` lookup for the header card, the date formatting, and the translations: display only.
- Local storage: JSON (de)serialisation and the storage key are replaced by the explicit store. A failure of the storage calls inside `registerUser` is one parameter, applied after the duplicate check. A read failure before that check is not modelled separately.
- EmailJS and `initEmailJS`: sending the welcome mail is a no-op with a delivered/not-delivered parameter.
- `Date.now()` ids and `createdAt`: the id is a parameter, and the timestamp is not stored.
- Case folding: only ASCII letters are lowered. Full Unicode `toLowerCase` is not modelled.
- RegisterForm.Validate: the password length counts Unicode characters, whereas the code's `length` counts UTF-16 code units, so passwords with characters outside the Basic Multilingual Plane are measured differently.
- HTML constraint validation on the form inputs (`required`, `minLength`, `type="email"`): it is done by the browser before the handler runs.
- The handler's outer `catch` branch: `registerUser` catches its own errors and never rejects, so that branch cannot be reached.
- The loading flag and the two-second delay before `onRegister`: UI timing. Only whether `onRegister` is scheduled is modelled.
- The stat entry forms, the player card, the login screen and routing: UI with no logic beyond what is modelled here. The login screen only checks for empty fields before calling the modelled login.
