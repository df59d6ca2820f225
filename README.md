# Admin panel configuration and display logic, modelled in Dafny

This project models the pure data logic of the administration page's script
(`public/app.js`). That page manages a pool of OAuth credentials ("tokens")
and the server's configuration. The model covers four pieces:

- **Saving the configuration form** (module `ConfigPartition`).
  - The form's entries are copied into one key/value object; a later entry
    overrides an earlier one.
  - Every checkbox is then overwritten with the text `"true"` or `"false"`.
  - Each key is then routed to one of two places. Seven sensitive keys, and
    any key the handler does not recognise, go to the environment map. Nine
    known keys fill fields of a structured record with the sections
    `server`, `api`, `defaults` and `other`.
  - `PORT`, `DEFAULT_TOP_K`, `DEFAULT_MAX_TOKENS` and `TIMEOUT` are stored
    as the result of `parseInt`. `DEFAULT_TEMPERATURE` and `DEFAULT_TOP_P`
    are stored as the result of `parseFloat`. `HOST` and `MAX_REQUEST_SIZE`
    are stored raw. `SKIP_PROJECT_ID_FETCH` is stored as whether its value
    is `"true"`.
  - The three steps are loops (`FlattenEntries`, `NormalizeCheckboxes`,
    `Partition`). Each is proved against a declarative definition
    (`Overlay`, `EnvPartition`, `StructuredPartition`).
  - `Partition` visits the keys in an arbitrary order. Its postcondition
    therefore holds whatever order the object's entries come in.
- **Loading the configuration form** (module `ConfigLoader`): the structured
  record is written back into the form's fields. Strings, numbers and the
  checkbox each get the `||`/`??` and `=== true` treatment of the source.
  The round-trip lemmas tie loading to saving.
- **Grouping quota entries by model family** (module `QuotaGroups`): each
  model id goes to `claude`, `gemini` or `other`, by a case-insensitive
  substring match with `claude` checked first. Entries are pushed in input
  order.
- **Token statistics** (module `TokenStats`): the total, enabled and
  disabled counts.

Conversions the page takes from the browser are parameters of the model and
are not interpreted:

- `parseInt` is a `string -> Option<int>`; `None` stands for NaN.
- `parseFloat` is a `string -> Option<real>`; `None` stands for NaN.
- Number-to-text conversion on loading is `showInt` and `showFloat`.

A record property that may be unset is an `Option`. So a structured integer
field is `Option<Option<int>>`: the outer `None` means "not set", and
`Some(None)` means "set to NaN".

A failed number parse is stored as NaN: the field is kept and no warning is
raised. The saved record always carries all four sections: `api` is an empty
object and the other sections are objects that may be empty. No check
rejects a bad field.

## Model

| member | source | states |
|---|---|---|
| ConfigPartition.FlattenEntries | public/app.js:774-780 | the object built from the form entries is `Overlay(map[], entries)`: entries assigned in order, later ones overriding |
| ConfigPartition.NormalizeCheckboxes | public/app.js:782-786 | the object after the checkbox loop is the old object overlaid with each checkbox's name set to "true" or "false" |
| ConfigPartition.OverlayUntouched | public/app.js:778-786 | a key that no assignment names keeps its old presence and value |
| ConfigPartition.OverlayLastWrite | public/app.js:778-786 | a key ends up holding the value of the last assignment that names it |
| ConfigPartition.OverlayWritten | public/app.js:778-786 | a key that some assignment names is present and holds a value that one of those assignments wrote |
| ConfigPartition.CheckboxIsBoolText | public/app.js:783-786 | after normalisation, every checkbox name is present and holds exactly "true" or "false", whatever the entries held |
| ConfigPartition.CheckboxLastWins | public/app.js:783-786 | the last checkbox of a given name decides the value: "true" if ticked, else "false" |
| ConfigPartition.NonCheckboxKeepsEntry | public/app.js:778-786 | a key that is no checkbox's name keeps what the form entries gave it |
| ConfigPartition.EnvStep | public/app.js:798-813 | handling one more key extends the env map by that key exactly when the key is routed to env, and leaves it unchanged otherwise |
| ConfigPartition.StructuredStep | public/app.js:798-813 | handling one more key writes only the field that key names, converted as that field requires, and leaves the record unchanged for an env key |
| ConfigPartition.Partition | public/app.js:788-814 | for any visiting order, the env map is exactly the keys routed to env with unchanged values, and the record is exactly `StructuredPartition` of the object |
| ConfigPartition.SaveConfig | public/app.js:772-814 | the env map and record sent on save are the partition of the flattened, checkbox-normalised form |
| ConfigPartition.DispatchTable | public/app.js:789-811 | each of the nine field keys dispatches to its own field and is not sensitive, and no other key dispatches to that field |
| ConfigPartition.SensitiveKeyStaysInEnv | public/app.js:789-800 | a sensitive key is copied unchanged into env, and the record is the same whether that key is absent or has any value |
| ConfigPartition.UnknownKeyFallsBackToEnv | public/app.js:812 | a key that is neither sensitive nor a known field goes into env unchanged and has no effect on the record |
| ConfigPartition.ExactlyOneDestination | public/app.js:798-813 | every input key lands either in env or in the single field it names, never both; env holds only input keys with their values; a field is set iff its key was present |
| ConfigPartition.SectionsAlwaysPresent | public/app.js:791-796 | the record always has the server, defaults and other sections, and api is the empty object |
| ConfigPartition.FailedParseIsStored | public/app.js:803-810 | an integer field whose text fails to parse is still set, to NaN; it is not omitted |
| ConfigPartition.ExampleSave | public/app.js:798-813 | saving PORT=8080, API_KEY=secret1 and DEFAULT_TEMPERATURE=0.7 gives env {API_KEY: secret1} and a record with only port and temperature set |
| ConfigLoader.LoadStructured | public/app.js:748-765 | the loader writes only elements the form has, and only the nine structured field names |
| ConfigLoader.LoadFillsEveryField | public/app.js:748-765 | on a saved record, every structured field element the form has is written |
| ConfigLoader.RawTextRoundTrip | public/app.js:750-805 | HOST and MAX_REQUEST_SIZE load back as the saved text, or '' if the form did not send them |
| ConfigLoader.SkipFlagRoundTrip | public/app.js:761-811 | the skip-project-id checkbox loads ticked iff the saved value was exactly "true" |
| ConfigLoader.SkipCheckboxRoundTrip | public/app.js:761-811 | saving and loading leaves the skip-project-id checkbox ticked exactly as it was when saved |
| ConfigLoader.IntRoundTrip | public/app.js:749-810 | an integer field saved as the text of n loads back as that text when parsing returns n; for PORT, n must also be non-zero |
| ConfigLoader.FailedParseLoadsEmpty | public/app.js:749-810 | a number field whose text failed to parse (NaN, sent as JSON null) loads back as '' |
| ConfigLoader.ZeroPortIsCleared | public/app.js:749-760 | a 0 loads back as '' for PORT, which is read with logical or, but as the text of 0 for the fields read with nullish coalescing |
| QuotaGroups.Lower | public/app.js:647-648 | the lower-cased id has the same length, contains no upper-case ASCII letter, and keeps every other character in place |
| QuotaGroups.GroupByFamily | public/app.js:644-650 | each group is exactly the input entries of its family, in input order |
| QuotaGroups.InFamilyMembers | public/app.js:645-650 | an entry is in a group iff it is an input entry of that group's family, so it lands in exactly one group |
| QuotaGroups.InFamilyAppend | public/app.js:645-650 | grouping distributes over concatenation, so relative order within a group is preserved |
| QuotaGroups.InFamilySnoc | public/app.js:647-649 | the next entry is pushed onto its own family's group and onto no other |
| QuotaGroups.GroupsPartitionEntries | public/app.js:644-650 | together the three groups hold exactly the input entries (as multisets), and their sizes sum to the number of entries |
| QuotaGroups.ClaudeCheckedFirst | public/app.js:647-648 | an id whose lower-cased form contains "claude" is a Claude model, even if it also contains "gemini" |
| QuotaGroups.FamilyIgnoresCase | public/app.js:647-648 | lower-casing is idempotent, so an id and its lower-cased form fall in the same family |
| QuotaGroups.MixedCaseExample | public/app.js:647-648 | "Gemini-CLAUDE-proxy" is classified as a Claude model |
| TokenStats.CountWithState | public/app.js:268-269 | the number of tokens with a given enable flag is at most the number of tokens |
| TokenStats.EnabledPlusDisabled | public/app.js:267-269 | the enabled count plus the disabled count equals the total |
| TokenStats.NoneEnabled | public/app.js:268 | the enabled count is 0 iff no token has its flag set |
| TokenStats.Stats | public/app.js:267-269 | the cards show the total as the list length, with enabled + disabled = total |

## Left out

- The environment part of the loader (public/app.js:736-745) is not modelled. It copies each env value into the form element of the same name.
- Number parsing and number formatting (`parseInt`, `parseFloat`, `String(number)`) are uninterpreted parameters. A float is a `real`, without IEEE rounding, infinities or -0.
- `ConfigLoader.LoadStructured` receives the record after it has passed through the server. The model assumes the server returns the record it was given, with NaN turned into null by JSON serialisation.
- TokenStats.CountWithState: the enable flag is assumed to be a real boolean; JavaScript's filter would also treat other truthy or falsy values as enabled or disabled.
- Lower-casing is ASCII-only. JavaScript's `toLowerCase` also folds non-ASCII letters.
- The form's DOM is out of scope. FormData's entries and the checkbox list are inputs. Form elements are a set of names.
- The JavaScript object's own key order and its special keys (such as `__proto__`) are not modelled. `Partition` is proved for every visiting order instead.
- DOM rendering, toasts, modals, page switching and dark mode are not modelled. They are presentation only.
- Every `fetch` call, `localStorage`, login and logout, and the add, toggle and delete flows are not modelled. They are network and storage plumbing whose effect happens on the server.
- The credential store, the quota cache with its forced refresh, and the OAuth code exchange are not modelled. They run on the server behind the `/admin` endpoints, and that code is not part of this model.
- Building the OAuth authorisation URL and parsing the callback URL are not modelled. They depend on randomness, the clock and the browser's URL API.
- The quota percentage and bar colour are not modelled. They come from floating-point `toFixed` and text/number coercion.
