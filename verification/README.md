# Streaming memberships: tier state machine and client ledger

A Dafny model of the business core of a console application that manages
streaming-service memberships. It covers two parts:

- `membresia.py`. There are five membership classes: Gratis (Free), Basica (Basic),
  Familiar (Family), SinConexión (Offline) and Pro. Pro inherits from both
  Familiar and SinConexión. The model covers their price constants, their
  initialisers and the per-class transition table of `cambiar_membresia`. It
  also covers `cancelar_membresia` and `incrementar_contenido_sin_conexion`.
- `main_interfaz.py`, business part only. This is the field checks of
  `registrar_cliente` and the list manipulations that register, change,
  cancel and reactivate clients in the active and inactive lists.

Files:

- `options.dfy`: the `Option` datatype.
- `text.dfy`: the string primitives behind the checks. These are Python's
  `isspace`/`isalpha`/`isdigit` (`IsSpace`, `IsAlpha`, `IsDigit`, exact below code point 256), `strip()` and
  `str.index`.
- `memberships.dfy`: `Tier`, `Membership` and the transitions.
- `validation.dfy`: name, e-mail, card and tier-number checks. Each returns
  `Accept`, `Reject(reason)` or `Crash`.
- `ledger.dfy`: the two client lists, the four operations and the
  conservation lemmas.

## How the model reads the code

- **Cancellation is a no-op.** Every paid class cancels by calling
  `_crear_nueva_membresia(0)`, and that method has no branch for 0.
  It falls through to `return self`. So `Cancel(m) == m` for every
  membership, and a cancelled Pro client sits in the inactive list still as
  Pro. The docstrings of the paid classes say something else: they promise
  "a new free membership" (membresia.py:139-140 and its siblings). The model follows the code.
  `Memberships.Cancel`, `Memberships.CancelIdempotent` and
  `ClientLedger.EndToEnd` state the code's behaviour.
- **Construction follows the method resolution order.** Pro's initialiser
  runs Familiar's, which through `super()` runs SinConexión's, which runs
  the root's. `Memberships.InitChain` and `Memberships.RunInits` replay that
  chain. A fresh Pro therefore ends with 15 gift days and an offline
  counter of 0.
- **The e-mail check can crash.** The third check calls `correo.index(".")`.
  That call raises an uncaught `ValueError` when the address has no '.', so
  the model returns `Crash` rather than a rejection. The same check looks at
  the first '.' anywhere in the address, so a '.' before the '@'
  ("ana.b@mail.com") is rejected.
- **Change of tier always "succeeds".** `cambiar_membresia` returns an
  object even when it refuses the change. The interface then stores that
  object back, so its "invalid change" message is unreachable. A refused
  change leaves the entry unchanged.
- **Reactivation ignores the transition table.** It builds a fresh
  membership of any tier 1..4 from the stored e-mail and card.

## Model

| member | source | states |
|---|---|---|
| Text.TrimLeft | main_interfaz.py:176 | drops exactly the leading whitespace: everything removed is whitespace and what remains is a suffix starting with a non-whitespace character |
| Text.TrimRight | main_interfaz.py:176 | drops exactly the trailing whitespace: everything removed is whitespace and what remains is a prefix ending with a non-whitespace character |
| Text.StripIsTrim | main_interfaz.py:176 | `str.strip()` yields a slice of the input that neither starts nor ends with whitespace, with only whitespace removed around it |
| Text.CharClasses | main_interfaz.py:178 | whitespace, letters and digits are disjoint; é and ª are letters, ² is a digit, the no-break space is whitespace, × is none of the three (the classes are exact below code point 256 by the definitions of IsSpace, IsAlpha and IsDigit) |
| Text.StripEmptyIffBlank | main_interfaz.py:176 | `s.strip() == ""` holds exactly when every character of `s` is whitespace |
| Text.IndexOf | main_interfaz.py:210 | `str.index` finds the first occurrence of the character; it has no result exactly when the character is absent, which is where Python raises |
| Text.IndexOfUnique | main_interfaz.py:210 | an occurrence with no earlier occurrence is the position `str.index` returns |
| Memberships.TierForId | membresia.py:67-76 | only the numbers 1..4 name a tier, and none of them names Free |
| Memberships.TierIds | membresia.py:67-74 | the tier numbers: 1 Basic, 2 Family, 3 Offline, 4 Pro |
| Memberships.IdRoundTrip | membresia.py:67-74 | tier numbers and paid tiers are in one-to-one correspondence (both round trips) |
| Memberships.InitChainExtras | membresia.py:152-261 | running the initialisers along each class's resolution order leaves Family 7 gift days, Offline 7 and counter 0, Pro 15 and counter 0, Free and Basic neither |
| Memberships.Fresh | membresia.py:8-261 | a new instance stores the given e-mail and card and has exactly the attributes its class hierarchy defines |
| Memberships.FreshExtras | membresia.py:161-261 | the gift days and offline counters of new Familiar, SinConexión and Pro instances, Pro's coming out of the diamond |
| Memberships.Make | main_interfaz.py:243-250 | the constructor chosen by tier number 1..4 gives a fresh membership of the named tier with the given e-mail and card |
| Memberships.Recreate | membresia.py:57-76 | numbers 1..4 give a fresh membership of that tier with the same e-mail and card; every other number, 0 included, gives the receiver back |
| Memberships.MakeIsRecreate | main_interfaz.py:419-426 | registration and reactivation build the same membership as `_crear_nueva_membresia` for the same number |
| Memberships.AllowedIff | membresia.py:86-276 | a tier may change to exactly the paid tiers other than itself; 0, 5 and the tier's own number are refused |
| Memberships.AllowedTargets | pruebas_unitarias.py:35-39 | allowed target sets: Free {1,2,3,4}, Basic {2,3,4}, Family {1,3,4}, Offline {1,2,4}, Pro {1,2,3} |
| Memberships.ChangeTier | membresia.py:86-276 | an allowed number yields a fresh membership of that tier, different from the current one, with the same e-mail and card; anything else yields the receiver unchanged; Free is never produced by a change |
| Memberships.ChangeTierReachesTarget | membresia.py:86-276 | the result has the requested tier exactly when the table allows the change or the membership is already of that tier |
| Memberships.Cancel | membresia.py:101-285 | cancelling returns the membership unchanged for every tier, because `_crear_nueva_membresia(0)` returns `self` |
| Memberships.CancelIdempotent | membresia.py:75-76 | cancelling twice is cancelling once, and a cancelled membership is Free only if it already was |
| Memberships.IncrementOffline | membresia.py:237-242 | on SinConexión and Pro the offline counter rises by exactly one and tier, e-mail, card and gift days stay as they were |
| Memberships.IncrementTwiceFromFresh | pruebas_unitarias.py:21-24 | two increments on a fresh SinConexión or Pro leave the counter at 2 |
| Memberships.TransitionsPreserveWellFormed | membresia.py:57-76 | changing or cancelling keeps a membership's attributes consistent with its tier |
| Memberships.PriceList | membresia.py:83-250 | cost and devices: Free 0/1, Basic 3000/2, Family 5000/5, Offline 3500/2, Pro 7000/6 |
| Validation.NameVerdict | main_interfaz.py:174-181 | a required name is accepted exactly when it holds only letters and whitespace and at least one letter; it is rejected as empty exactly when blank, and for its characters when non-blank with another character; it never crashes |
| Validation.OptionalName | main_interfaz.py:183-186 | an optional name survives exactly when it holds only letters and whitespace, and is otherwise replaced by ""; the result always passes the character test |
| Validation.FullNameShape | main_interfaz.py:202 | the displayed name in all four cases of present or blank optional parts: a double space after the first name, a trailing space when the maternal surname is blank, and each present optional part set off by two spaces |
| Validation.EmailVerdict | main_interfaz.py:204-215 | an address is rejected as empty exactly when blank, for length or a missing '@' exactly when non-blank and shorter than 6 or without '@', and crashes exactly when it is non-blank, at least 6 long, has an '@' and has no '.' |
| Validation.EmailVerdictPastCrash | main_interfaz.py:210-215 | once the first two checks pass and a '.' exists, the first '.' at or before first '@' + 1 rejects, then a space rejects, otherwise the address is accepted |
| Validation.EmailAcceptIff | main_interfaz.py:204-215 | accepted exactly when at least 6 long, no space, a '.' present, and no '.' before two places past the first '@' |
| Validation.EmailAcceptedHasShape | main_interfaz.py:204-215 | every accepted address has that shape |
| Validation.EmailShapeAccepted | main_interfaz.py:204-215 | every address of that shape is accepted |
| Validation.DotBeforeAtRejected | main_interfaz.py:210-211 | an address of at least 6 characters, not blank, with a '.' before its first '@' is rejected by the third check, whether or not it contains a space |
| Validation.SampleInputs | main_interfaz.py:204-215 | "a@b.co", the sample address, is accepted |
| Validation.SampleCard | main_interfaz.py:217-224 | "1111222233334444", the sample card number, is accepted |
| Validation.NoDotCrashes | main_interfaz.py:210 | "abcdef@gh" crashes the e-mail check |
| Validation.CardVerdict | main_interfaz.py:217-224 | a card number is accepted exactly when it is 16 characters, all digits; it is rejected as empty exactly when blank and for its format exactly when non-blank and not 16 digits; it never crashes |
| Validation.TierChoice | main_interfaz.py:226-241 | the tier menu accepts exactly the numbers that name a paid tier |
| ClientLedger.RemoveAt | main_interfaz.py:376 | `del s[i]` keeps the elements before `i` in place and shifts the rest down by one |
| ClientLedger.Register | main_interfaz.py:243-258 | the inactive list is untouched, the active list keeps its entries and gains one at the end: the given name with a fresh membership of the chosen tier |
| ClientLedger.ChangeClientTier | main_interfaz.py:327-350 | only entry `i` of the active list changes, to the same name with the membership's tier change; lengths and the inactive list stay |
| ClientLedger.CancelClient | main_interfaz.py:370-376 | entry `i` leaves the active list, the others keep their order, and it is appended unchanged to the inactive list |
| ClientLedger.Reactivate | main_interfaz.py:400-431 | entry `i` leaves the inactive list and the active list gains the same name with a fresh membership of the chosen tier from the stored e-mail and card |
| ClientLedger.RegisterAddsOne | main_interfaz.py:258 | registering adds exactly the new (name, e-mail, card) to the ledger's clients |
| ClientLedger.ChangeKeepsClients | main_interfaz.py:345-347 | a tier change keeps the multiset of (name, e-mail, card) of all clients and their count |
| ClientLedger.CancelKeepsClients | main_interfaz.py:370-376 | cancelling keeps the multiset of clients and their count, and shrinks the active list by one |
| ClientLedger.ReactivateKeepsClients | main_interfaz.py:419-431 | reactivating keeps the multiset of clients and their count, and shrinks the inactive list by one |
| ClientLedger.OperationsPreserveWellFormed | main_interfaz.py:243-431 | register, change, cancel and reactivate keep every membership in both lists well formed |
| ClientLedger.ReactivateIgnoresTable | main_interfaz.py:419-426 | an inactive Pro may come back as Pro although a tier change from Pro to Pro is refused |
| ClientLedger.EndToEnd | main_interfaz.py:243-431 | for any e-mail and card: register as Pro (6 devices, 15 gift days), cancel (still Pro, now inactive), reactivate as SinConexión (counter 0, same e-mail and card) |

## Left out

- The cryptographic functions of `main_interfaz.py` (RSA key generation, PEM save and load, AES-CBC with PKCS#7, OAEP, the hybrid envelope). They wrap an external library and use OS randomness and files. The hybrid envelope is referenced only from commented-out code.
- Saving and loading the lists with `pickle`: file I/O and serialisation of Python objects.
- Menus, the `input()` re-prompt loops, `int()` parse errors, listing clients and every `print`. A loop's exit condition is modelled as a check verdict. The operations take the position and tier number the loops end with, as preconditions.
- `modificar_control_parental` of Familiar and Pro: it only prints.
- Characters at code point 256 and above: Python's Unicode letter, digit and whitespace classes are not modelled. Such characters count as none of the three.
- Object identity: the model has value semantics. The interface never mutates a membership after creating it, so identity is not observable there.
- Memberships.IncrementOffline: requires a SinConexión or Pro membership. It does not model the `AttributeError` that calling it on another class would raise.
- Unused imports (key derivation, bcrypt).
