# Client-document synthesizer, modelled in Dafny

This project models the onboarding-document synthesizer of the automation API.
`generateClientJson` (packages/api/src/services/newClientJsonGenerator.ts) takes a
wizard request and builds a client document. The request lists people, and accounts
that name those people by string id. The document gives:

- every participant its roles;
- every account its holders and beneficiary as 0-based positions;
- every distinct (primary, secondary) holder pair one client group.

The project also models the older generator of packages/api/src/scripts/createClientWizard.js.
That generator builds the earlier document shape from the same kind of request.

Modules, one file each:

- `Wrappers` (wrappers.dfy): `Option` for optional fields and `undefined`, `Result` for the one failure.
- `Bytes` (bytes.dfy): the `byte` type.
- `OrderedSet` (ordered_set.dfy): the JavaScript `Set` as a duplicate-free sequence in first-insertion order. `Insert` is `add`; `FromSeq` adds a whole sequence of elements.
- `Decimal` (decimal.dfy): `String(n)`, `padStart(width, '0')` and `Number(s)` on digit strings.
- `Utf8` (utf8.dfy): UTF-8 as in RFC 3629, which `Buffer.from(string)` applies.
- `Base64` (base64.dfy): base 64 as in section 4 of RFC 4648, which `toString('base64')` produces. It also has a strict decoder, used only to state that the encoding can be reversed.
- `ClientJson` (client_json.dfy): `generateClientJson`.
- `LegacyWizard` (legacy_wizard.dfy): the legacy `generateClientJson`.

How `ClientJson` follows the source:

- The two `forEach` loops that update state are methods with loop invariants. `AccumulateRoles` updates an array of role sets. `CollectHolderCombinations` updates an ordered set.
- The conditional field assignments of an account object are a method, `BuildAccount`.
- The `map`s and object literals are functions.
- `GenerateClientJson` is a method. Its postcondition ties the result to the ghost predicate `Synthesizes`. That predicate describes the whole document in terms of the request.
- The lemmas state the document's properties in terms of `Synthesizes`: index validity, distinct groups, role correctness and determinism. Most are proved first about one part of the document (its accounts, its groups, one participant's roles) and then lifted to the whole document.

Resolving a reference follows `findIndex`: the leftmost participant with that id wins. `Resolves` states this, and exactly one result meets it (`ResolvesUnique`).

A role list is the ordered set of the role additions that the account scan makes for a participant (`RoleEvents`). A participant's additions come in account order. Within one account they come as primary, secondary, beneficiary.

The source keys holder combinations as the strings `"p-s"` and `"p"`. The model keys them with the datatype `Combo`. `ComboKey`, `Split` and `ParseComboKey` model the string form and the source's `split('-').map(Number)`. `StringKeyedSetAgrees` proves that the two forms give the same groups.

The password encoding is Base64 over UTF-8. It is a reversible transfer encoding, not a protection: `PasswordRecoverable` proves that anyone can get the password back.

Two behaviours of the code are worth noting:

- With no participants, `generateClientJson` throws where it reads `participants[0].firstName` (newClientJsonGenerator.ts:87). The model returns `Failure(NoFirstParticipant)` there. The route rejects such requests before the call (packages/api/src/routes/automationRoutes.ts:136).
- Participant ids are never checked for uniqueness. A duplicated id resolves to its first position, as `findIndex` does.

## Model

| member | source | states |
|---|---|---|
| ClientJson.FindIndex | packages/api/src/services/newClientJsonGenerator.ts:32-34 | the result is the leftmost participant whose id equals the reference; it is none when no id matches or the reference is absent |
| ClientJson.ResolvesUnique | packages/api/src/services/newClientJsonGenerator.ts:104-116 | at most one position meets the leftmost-match description, so resolution is fully determined |
| ClientJson.ResolvedIsFindIndex | packages/api/src/services/newClientJsonGenerator.ts:104-116 | every resolution meeting the description equals what `findIndex` returns |
| ClientJson.RoleLabel | packages/api/src/services/newClientJsonGenerator.ts:37-43 | the label is "Account Holder" exactly for the holder role and "Beneficiary" exactly for the beneficiary role |
| ClientJson.Credits | packages/api/src/services/newClientJsonGenerator.ts:36-44 | one account gives a participant "Account Holder" iff it names that participant as primary or secondary, and "Beneficiary" iff it names it as beneficiary |
| ClientJson.RoleEvents | packages/api/src/services/newClientJsonGenerator.ts:31-45 | the role additions for one participant, account by account and within an account as primary, secondary, beneficiary; its properties are stated by RoleEventsMembership, RoleListed and RolesCorrect |
| ClientJson.RoleEventsMembership | packages/api/src/services/newClientJsonGenerator.ts:31-45 | a role occurs in the scan's additions for a participant iff some account credits it |
| ClientJson.RoleListed | packages/api/src/services/newClientJsonGenerator.ts:28-45 | a role is in a participant's role list iff some account credits that role to the participant |
| ClientJson.RolesCorrect | packages/api/src/services/newClientJsonGenerator.ts:28-45 | a role list has no duplicates and is in first-discovery order; it contains "Account Holder" iff some account names the participant as holder, "Beneficiary" iff some account names it as beneficiary; it is empty iff no account names the participant |
| ClientJson.Credit | packages/api/src/services/newClientJsonGenerator.ts:36-44 | `add` on the target's role set when the index resolved; every other participant's set stays unchanged |
| ClientJson.AccumulateRoles | packages/api/src/services/newClientJsonGenerator.ts:28-45 | one role list per participant; each equals the ordered set of that participant's role additions over all accounts |
| ClientJson.ComboOf | packages/api/src/services/newClientJsonGenerator.ts:50-58 | an account gives a combination iff its primary resolves; the secondary part is the secondary's resolution, absent when it does not resolve |
| ClientJson.ComboEvents | packages/api/src/services/newClientJsonGenerator.ts:49-59 | the scan adds at most one combination per account |
| ClientJson.ComboEventsMembership | packages/api/src/services/newClientJsonGenerator.ts:49-59 | a combination is added iff some account gives it |
| ClientJson.CollectHolderCombinations | packages/api/src/services/newClientJsonGenerator.ts:48-59 | the result is the insertion-ordered set of the accounts' combinations |
| ClientJson.HolderCombinationsCorrect | packages/api/src/services/newClientJsonGenerator.ts:48-59 | the combinations are distinct and in first-seen order; there are no more of them than accounts; they are exactly those of accounts whose primary resolves; all their positions are valid |
| ClientJson.ComboKey | packages/api/src/services/newClientJsonGenerator.ts:54-56 | the string key of a combination is never empty |
| ClientJson.Split | packages/api/src/services/newClientJsonGenerator.ts:63 | splitting yields at least one part |
| ClientJson.SplitAtSeparator | packages/api/src/services/newClientJsonGenerator.ts:63 | splitting a text with one separator after a separator-free head gives the head, then the parts of the rest |
| ClientJson.ParseComboKey | packages/api/src/services/newClientJsonGenerator.ts:63 | `split('-').map(Number)` on a key; ParseComboKeyRoundTrip states that it gives back the combination the key was made from |
| ClientJson.ParseComboKeyRoundTrip | packages/api/src/services/newClientJsonGenerator.ts:54-63 | decoding a key with `split('-').map(Number)` gives back the combination it was made from |
| ClientJson.ComboKeyInjective | packages/api/src/services/newClientJsonGenerator.ts:54-57 | distinct combinations have distinct string keys |
| ClientJson.KeysFromSeq | packages/api/src/services/newClientJsonGenerator.ts:48-59 | the string-keyed set holds, in order, the keys of the pair-keyed set |
| ClientJson.StringKeyedSetAgrees | packages/api/src/services/newClientJsonGenerator.ts:48-76 | the source's string-keyed set, decoded key by key, gives exactly the model's combinations in the same order |
| ClientJson.MaterializeGroups | packages/api/src/services/newClientJsonGenerator.ts:62-76 | one group per combination |
| ClientJson.ParticipantId | packages/api/src/services/newClientJsonGenerator.ts:91 | a generated id starts with `P`, has at least four characters, and has exactly four below the 999th participant |
| ClientJson.FirstParticipantId | packages/api/src/services/newClientJsonGenerator.ts:91 | the first participant's id is `P001` |
| ClientJson.ParticipantIdInjective | packages/api/src/services/newClientJsonGenerator.ts:91 | generated participant ids never collide, even past 999 participants |
| ClientJson.MaterializeParticipants | packages/api/src/services/newClientJsonGenerator.ts:90-98 | one output participant per input participant |
| ClientJson.BuildAccount | packages/api/src/services/newClientJsonGenerator.ts:99-120 | the type is copied; each of primary, secondary and beneficiary is present iff its id resolves, and then it is the leftmost match |
| ClientJson.Username | packages/api/src/services/newClientJsonGenerator.ts:81 | the username is copied; it is empty when absent |
| ClientJson.EncodePassword | packages/api/src/services/newClientJsonGenerator.ts:82-83 | the Base64 text of the UTF-8 bytes, or empty; its properties are stated by PasswordEmpty, PasswordLength and PasswordRecoverable |
| ClientJson.PasswordEmpty | packages/api/src/services/newClientJsonGenerator.ts:82-83 | the encoded password is empty iff the password is absent or empty |
| ClientJson.PasswordLength | packages/api/src/services/newClientJsonGenerator.ts:82-83 | the encoded password's length is a multiple of 4 |
| ClientJson.PasswordRecoverable | packages/api/src/services/newClientJsonGenerator.ts:82-83 | for a non-empty password, Base64 decoding gives back its UTF-8 bytes and UTF-8 decoding gives back the password |
| ClientJson.HouseholdName | packages/api/src/services/newClientJsonGenerator.ts:87 | the first name, a space, the last name and " Household"; GenerateClientJson states that the household is named after the first participant |
| ClientJson.GenerateClientJson | packages/api/src/services/newClientJsonGenerator.ts:24-125 | fails iff there are no participants; otherwise builds the document `Synthesizes` describes: envelope, household name from the first participant, participants in order with ids `P001`… and their role sets, accounts in order with their resolutions, and groups from the collected combinations |
| ClientJson.DocumentIndicesValid | packages/api/src/services/newClientJsonGenerator.ts:62-120 | every position in the document's accounts and groups is a valid position in its participant list; a beneficiary id that matches no participant is left off its account |
| ClientJson.ClientGroups | packages/api/src/services/newClientJsonGenerator.ts:48-76 | there are no more groups than accounts |
| ClientJson.GroupIndicesValid | packages/api/src/services/newClientJsonGenerator.ts:62-76 | every position in a group is a valid participant position |
| ClientJson.AccountCombo | packages/api/src/services/newClientJsonGenerator.ts:50-58 | the combination an account gives can be read off that account's output |
| ClientJson.GroupsDistinct | packages/api/src/services/newClientJsonGenerator.ts:48-76 | groups are pairwise different and no more numerous than accounts |
| ClientJson.GroupHasAccount | packages/api/src/services/newClientJsonGenerator.ts:48-76 | every group is the holder pair of some output account that has a primary holder |
| ClientJson.AccountHasGroup | packages/api/src/services/newClientJsonGenerator.ts:48-76 | every output account with a primary holder has its holder pair among the groups |
| ClientJson.GroupsExact | packages/api/src/services/newClientJsonGenerator.ts:48-76 | the groups are exactly the holder pairs of the output accounts that have a primary holder |
| ClientJson.DocumentGroupsCorrect | packages/api/src/services/newClientJsonGenerator.ts:48-76 | groups are pairwise different and no more numerous than accounts; they are exactly the holder pairs of the output accounts that have a primary holder |
| ClientJson.ParticipantRolesCorrect | packages/api/src/services/newClientJsonGenerator.ts:28-45 | stated against the output accounts: a participant's role list holds "Account Holder" iff some output account names it as primary or secondary, "Beneficiary" iff some names it as beneficiary; no role twice; no role iff no account names it |
| ClientJson.DocumentRolesCorrect | packages/api/src/services/newClientJsonGenerator.ts:28-45 | a participant holds "Account Holder" iff some output account names it as primary or secondary; "Beneficiary" iff some output account names it as beneficiary; no role twice; no role iff no account names it |
| ClientJson.SynthesisDeterministic | packages/api/src/services/newClientJsonGenerator.ts:24-125 | the request determines the document |
| ClientJson.ScenarioSingleHolder | packages/api/src/services/newClientJsonGenerator.ts:24-125 | one person with one cash account gives id `P001`, role "Account Holder", one account with primary 0, and an empty login |
| ClientJson.ScenarioSingleHolderGroup | packages/api/src/services/newClientJsonGenerator.ts:48-76 | one person with one cash account gives one group holding 0 alone |
| ClientJson.ScenarioSharedPair | packages/api/src/services/newClientJsonGenerator.ts:24-125 | an unknown beneficiary id is dropped from its account; both people are account holders only |
| ClientJson.ScenarioSharedPairGroup | packages/api/src/services/newClientJsonGenerator.ts:48-76 | two accounts of the same pair give one group |
| OrderedSet.FirstIndex | packages/api/src/services/newClientJsonGenerator.ts:48 | the position of the first occurrence |
| OrderedSet.Insert | packages/api/src/services/newClientJsonGenerator.ts:57 | `add` appends an element that is absent and leaves the set alone otherwise; it keeps the set duplicate-free |
| OrderedSet.FromSeq | packages/api/src/services/newClientJsonGenerator.ts:48-59 | repeated `Set.add` over a sequence of elements; its properties are stated by FromSeqCharacterization |
| OrderedSet.FromSeqCharacterization | packages/api/src/services/newClientJsonGenerator.ts:48-59 | adding a sequence of elements gives each distinct element exactly once, in first-occurrence order, with no more elements than were added |
| Decimal.Digits | packages/api/src/services/newClientJsonGenerator.ts:91 | `String(n)` is a non-empty digit string without a leading zero unless n is 0 |
| Decimal.Number | packages/api/src/services/newClientJsonGenerator.ts:63 | `Number` yields a value exactly on non-empty digit strings |
| Decimal.PadStart | packages/api/src/services/newClientJsonGenerator.ts:91 | the result has length max(width, length), ends with the input, and is filled in front |
| Decimal.DigitsLength | packages/api/src/services/newClientJsonGenerator.ts:91 | numbers below 1000 have at most three digits |
| Decimal.ValueOfDigits | packages/api/src/services/newClientJsonGenerator.ts:63 | `Number(String(n))` is n |
| Decimal.ValueOfZeroPadded | packages/api/src/services/newClientJsonGenerator.ts:91 | leading zeros do not change a numeral's value |
| Decimal.PaddedDigitsValue | packages/api/src/services/newClientJsonGenerator.ts:91 | a zero-padded numeral reads back as its number |
| Decimal.PaddedDigitsInjective | packages/api/src/services/newClientJsonGenerator.ts:91 | different numbers have different zero-padded numerals |
| Decimal.Numbered | packages/api/src/scripts/createClientWizard.js:22 | a prefix and a three-digit zero-padded number: at least three characters after the prefix, exactly three below 1000, and the prefix kept |
| Decimal.NumberedInjective | packages/api/src/scripts/createClientWizard.js:32 | numbers written with one prefix never collide |
| Utf8.EncodeChar | packages/api/src/services/newClientJsonGenerator.ts:83 | a code point takes 1 to 4 bytes, one byte iff ASCII, and the bytes after the first are continuation bytes |
| Utf8.Encode | packages/api/src/services/newClientJsonGenerator.ts:83 | the encoding has between one and four bytes per character and is empty iff the text is |
| Utf8.DecodeEncode | packages/api/src/services/newClientJsonGenerator.ts:83 | decoding the UTF-8 bytes gives the text back |
| Base64.Encode | packages/api/src/services/newClientJsonGenerator.ts:83 | the text has 4 characters per started group of 3 bytes |
| Base64.EncodeAlphabet | packages/api/src/services/newClientJsonGenerator.ts:83 | every character of the text is from the alphabet or is `=` |
| Base64.DecodeEncode | packages/api/src/services/newClientJsonGenerator.ts:83 | decoding the Base64 text gives the bytes back |
| Base64.EncodeInjective | packages/api/src/services/newClientJsonGenerator.ts:83 | different byte sequences have different Base64 texts |
| LegacyWizard.ParticipantRole | packages/api/src/scripts/createClientWizard.js:29 | the role is "PRIMARY" iff the index is 0 and "SECONDARY" otherwise |
| LegacyWizard.Balance | packages/api/src/scripts/createClientWizard.js:34 | the balance is 100000.00 iff the type is "MARGIN", and 10000.00 otherwise |
| LegacyWizard.Holders | packages/api/src/scripts/createClientWizard.js:36-45 | the holder list starts with the primary as "PRIMARY"; it has a second, "SECONDARY" entry iff a non-empty secondary id is given, so its length is 1 or 2 |
| LegacyWizard.MaterializeParticipant | packages/api/src/scripts/createClientWizard.js:21-30 | the `map` callback for one participant; ParticipantsCopied states its fields |
| LegacyWizard.MaterializeAccount | packages/api/src/scripts/createClientWizard.js:31-46 | the `map` callback for one account; AccountsCopied states its fields |
| LegacyWizard.MaterializeParticipants | packages/api/src/scripts/createClientWizard.js:21-30 | one output participant per input participant |
| LegacyWizard.MaterializeAccounts | packages/api/src/scripts/createClientWizard.js:31-46 | one output account per input account |
| LegacyWizard.GenerateClientJson | packages/api/src/scripts/createClientWizard.js:1-57 | fails iff there are no participants; otherwise the username is `user` and the first clock reading, the password is "Password123", the e-mail is `user`, the second clock reading and "@example.com"; the household is named after the first participant with the default address and phone; participants and accounts are mapped; the group is the fixed standard group |
| LegacyWizard.UsernameStamp | packages/api/src/scripts/createClientWizard.js:7 | the digits after `user` in the username read back as the clock reading they were made from |
| LegacyWizard.ParticipantsCopied | packages/api/src/scripts/createClientWizard.js:21-30 | participants keep their order and their title, name and gender; ids are `P001`, `P002`, …; a participant is "PRIMARY" iff it is the first |
| LegacyWizard.ParticipantIdsDistinct | packages/api/src/scripts/createClientWizard.js:22 | no two participants share an id |
| LegacyWizard.OnePrimary | packages/api/src/scripts/createClientWizard.js:29 | exactly one participant is "PRIMARY" when there is any participant |
| LegacyWizard.AccountsCopied | packages/api/src/scripts/createClientWizard.js:31-46 | accounts keep their order and type; numbers are `ACC001`, …; status is "ACTIVE"; the margin balance goes exactly to margin accounts; the primary holder comes first and a second holder is listed iff a non-empty one is given |
| LegacyWizard.AccountNumbersDistinct | packages/api/src/scripts/createClientWizard.js:32 | no two accounts share an account number |

## Left out

- HTTP routing and JSON serialization are not modelled. The route's check for non-empty participants, accounts and `rrCode` (packages/api/src/routes/automationRoutes.ts:136) is not a precondition here: the synthesizer's own empty-participants failure is modelled instead.
- A JavaScript string may hold lone UTF-16 surrogates. `Buffer.from` turns these into U+FFFD. A Dafny `char` is a Unicode scalar value, so such passwords cannot be expressed.
- Decimal.Number: reads only non-empty digit strings. JavaScript's `Number` also accepts whitespace, signs, exponents and the empty string. Keys made by `ComboKey` are always digit strings, so this difference is never reached.
- Node's Base64 decoder is lenient. The model's decoder is strict. The source never decodes; the decoder only states that the encoding is reversible.
- The participant `address` field is carried in the input but unused, as in the source.
- Output role lists hold the `Role` datatype, not text. `RoleLabel` gives the text.
- Legacy `Date.now()`: the two readings (username and e-mail) are two parameters. JavaScript may return different values for them.
- Legacy balances are integer cents, not floating-point numbers.
- Legacy holder ids are modelled as strings. A request without `primaryAccountHolder` (an `undefined` id) is not modelled.
- ClientJson.ScenarioSingleHolder: does not restate the household name "John Doe Household" for the example request. `GenerateClientJson` states the household name for every request.
- Playwright automation, the report store and its HTML rendering, template loading, the servers and the front-end configuration are outside the synthesizer and are not part of this model.
