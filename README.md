# Finder search resolver

A model of the search box of the XSN block explorer's web UI (`FinderComponent`).
The user types one token. The form accepts it only if it is an address (34 ASCII
letters and digits) or a block/transaction hash (64 hex digits). On submit the
component looks the token up. An address-shaped token is sent to the address
service alone. Any other token is sent to the transaction service, and if that
fails, to the block service. The result is navigation to a detail view, the
server's errors, or a "nothing found" error on the search field.

The model has three modules:

- `Patterns` (`patterns.dfy`): the two regular expressions `BLOCK_REGEX` and
  `ADDRESS_REGEX` as data. Each is a character class, given as a list of ranges,
  repeated a fixed number of times and anchored at both ends. A matcher reads
  such a pattern one character at a time. Lemmas prove that it accepts exactly
  the strings of the right length whose every character is in the class.
- `SearchForm` (`search_form.dfy`): the `required` and `pattern` validators on
  the `searchField` control. The control's value is null or a string.
- `Finder` (`finder.dfy`): `onSubmit`, `lookForBlock` and `onNothingFound` as
  pure functions. They take the token and the three services' answers, and return
  the outcome together with the ordered list of lookups made. A second definition,
  `Probe`, runs an ordered list of services and stops at the first hit. A lemma
  proves that `OnSubmit` is that probe over the token's plan.

Three points where the code may surprise a reader:

- `onSubmit` never tests `BLOCK_REGEX`. Every token that is not address-shaped
  goes to the transaction lookup, malformed or not. The form validator is the
  only place `BLOCK_REGEX` is tested, and `onSubmit` does not consult the form's
  validity. `Finder.MalformedTokenIsStillProbed` shows this for the empty
  string. The cascade properties that need a well-formed hash assume
  `FormAccepts`.
- A failed address lookup hands the form and the error response to
  `renderServerErrors` (finder.component.ts:54). The model keeps that as the tag
  `ServerErrors`, distinct from the `searchField` "nothing found" error.
- The address class is `[a-zA-Z0-9]`, every ASCII letter and digit. It is not
  the base58 alphabet.

The two shapes cannot overlap because their lengths differ
(`Patterns.ShapesDisjoint`). The address test still comes first, as in the code.

## Model

| member | source | states |
|---|---|---|
| `Patterns.InClassIff` | web-ui/src/app/components/finder/finder.component.ts:13-14 | a character is in a bracket expression iff one of its ranges contains it |
| `Patterns.RepeatIff` | web-ui/src/app/components/finder/finder.component.ts:13-14 | the anchored `{n}` matcher accepts a string iff its length is n and every character is in the class |
| `Patterns.AddressClassIsAlnum` | web-ui/src/app/components/finder/finder.component.ts:14 | the class `[a-zA-Z0-9]` is exactly the ASCII letters and digits |
| `Patterns.BlockClassIsHex` | web-ui/src/app/components/finder/finder.component.ts:13 | the class `[A-Fa-f0-9]` is exactly the hex digits of either case |
| `Patterns.AddressShapedIff` | web-ui/src/app/components/finder/finder.component.ts:14 | a token matches ADDRESS_REGEX iff it has 34 characters, all ASCII letters or digits |
| `Patterns.BlockShapedIff` | web-ui/src/app/components/finder/finder.component.ts:13 | a token matches BLOCK_REGEX iff it has 64 characters, all hex digits |
| `Patterns.ShapesDisjoint` | web-ui/src/app/components/finder/finder.component.ts:13-14 | no token matches both patterns |
| `Patterns.EmptyHasNoShape` | web-ui/src/app/components/finder/finder.component.ts:13-14 | the empty string matches neither pattern |
| `SearchForm.FormAcceptsIff` | web-ui/src/app/components/finder/finder.component.ts:42 | the form accepts a value iff it is non-null and matches ADDRESS_REGEX or BLOCK_REGEX |
| `SearchForm.FormAcceptsChars` | web-ui/src/app/components/finder/finder.component.ts:42 | the form accepts a token iff it is 34 ASCII letters/digits or 64 hex digits |
| `SearchForm.EmptyRefused` | web-ui/src/app/components/finder/finder.component.ts:42 | the initial null value and the empty string are refused |
| `SearchForm.AcceptedNonAddressIsHash` | web-ui/src/app/components/finder/finder.component.ts:42-56 | an accepted token that fails the address test is 64 hex digits |
| `Finder.OnNothingFound` | web-ui/src/app/components/finder/finder.component.ts:74-76 | the outcome is a field error on `searchField` with the message key `error.nothingFound` |
| `Finder.LookForBlock` | web-ui/src/app/components/finder/finder.component.ts:66-72 | exactly one block lookup with the given hash; it navigates (to that block's details) iff the block is found, otherwise "nothing found" |
| `Finder.OnSubmit` | web-ui/src/app/components/finder/finder.component.ts:46-64 | one or two lookups, all with the submitted token; a navigation is always to the token, to the view of the last service asked, and only when that service found it |
| `Finder.Probe` | web-ui/src/app/components/finder/finder.component.ts:46-72 | an ordered probe asks a prefix of the plan; a hit is the last service asked, which found the key, after every earlier one failed; no hit means every service was asked and none found it |
| `Finder.OnSubmitIsProbe` | web-ui/src/app/components/finder/finder.component.ts:46-72 | onSubmit makes the calls of the probe over "address" or "transaction, block"; it navigates to the first hit's view, otherwise shows server errors (address) or "nothing found" |
| `Finder.AddressTokenUsesAddressLookupOnly` | web-ui/src/app/components/finder/finder.component.ts:49-55 | an address-shaped token gets one address lookup and no other; found gives the address details, not found the server errors |
| `Finder.OtherTokenTriesTransactionFirst` | web-ui/src/app/components/finder/finder.component.ts:56-62 | any other token is first sent to the transaction lookup, never to the address lookup; if found, that is the only call and the outcome is the transaction details |
| `Finder.BlockIsTheFallback` | web-ui/src/app/components/finder/finder.component.ts:58-76 | after a failed transaction lookup the block lookup runs once with the same token; found gives the block details, not found the `searchField` "nothing found" error |
| `Finder.BlockOnlyAfterFailedTransaction` | web-ui/src/app/components/finder/finder.component.ts:58-71 | a block lookup happens only as the second call, after a failed transaction lookup of the same token |
| `Finder.CallOrder` | web-ui/src/app/components/finder/finder.component.ts:46-72 | the calls are "address", "transaction" or "transaction, block", each with the token; no service is asked twice |
| `Finder.OnlyConsultedAnswersMatter` | web-ui/src/app/components/finder/finder.component.ts:46-72 | the whole resolution is determined by the token and the answers of the services actually asked |
| `Finder.AcceptedTokenHashLookups` | web-ui/src/app/components/finder/finder.component.ts:42-62 | for a token the form accepts, transaction and block lookups are only made with 64-digit hex strings |
| `Finder.MalformedTokenIsStillProbed` | web-ui/src/app/components/finder/finder.component.ts:49-58 | the empty string is refused by the form, yet onSubmit would still send it to the transaction lookup |
| `Finder.AddressExample` | web-ui/src/app/components/finder/finder.component.ts:42-55 | `1A2b3C4d5E6f7G8h9I0jK1L2M3N4O5P6Q7` is accepted and gets only the address lookup |
| `Finder.HashExample` | web-ui/src/app/components/finder/finder.component.ts:42-76 | sixty-four `a`s are accepted and resolve to the transaction, else the block, else "nothing found" |

## Left out

- Angular dependency injection, `FormBuilder`/`FormGroup` construction, `ngOnInit` and the template. These are framework plumbing. The form is modelled only as the validity of its one control.
- RxJS subscriptions and asynchrony. The cascade is strictly sequential, so each service call becomes a found/not-found answer given as input. The code's error callbacks do not tell "not found" from a transport failure, and the model does not either.
- The HTTP requests behind `AddressesService`, `TransactionsService` and `BlocksService`. These services are not part of this model.
- What `ErrorService.renderServerErrors` does with the error response. It is kept as the tag `ServerErrors`.
- `TranslateService` message lookup and `setFieldError`. These are kept as the field name and the message key.
- `NavigatorService` routing. It is kept as the detail view selected and the token passed to it.
- A null value reaching `onSubmit`. `Finder.OnSubmit` takes a string. With null, `RegExp.test(null)` tests the string "null", which is not address-shaped, so null takes the ordinary non-address path: the transaction lookup, and if that fails the block lookup, run with the key null. The model does not represent a null key.
- Repeated calls with the same token and answers giving the same result. This holds because every member is a function; no lemma states it.
