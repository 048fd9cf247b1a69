/** The lookup cascade of the finder: `onSubmit`, `lookForBlock` and
    `onNothingFound`.

    Each remote lookup (`AddressesService.get`, `TransactionsService.get`,
    `BlocksService.get`) is reduced to whether its observable emits a value
    (found) or an error (not found, or any transport failure). The callbacks
    that navigate or set form errors become an `Outcome`, and the lookups made
    on the way are recorded, in order, as the `calls` of a `Resolution`.
 */
module Finder {
  import opened Patterns
  import opened SearchForm

  datatype Option<T> = None | Some(value: T)

  datatype Service = AddressLookup | TransactionLookup | BlockLookup

  /** One call `service.get(key)`. */
  datatype Call = Call(service: Service, key: string)

  /** What each lookup would answer for the token being resolved. */
  datatype Responses = Responses(address: bool, transaction: bool, block: bool)

  /** The detail views of `NavigatorService`. */
  datatype View = AddressDetails | TransactionDetails | BlockDetails

  datatype Outcome =
    | Navigate(view: View, key: string)             // navigatorService.<view>(key)
    | ServerErrors                                  // errorService.renderServerErrors(form, response)
    | FieldError(field: string, messageKey: string) // errorService.setFieldError(form, field, translate(messageKey))

  datatype Resolution = Resolution(outcome: Outcome, calls: seq<Call>)

  const SEARCH_FIELD := "searchField"
  const NOTHING_FOUND := "error.nothingFound"

  function Answer(r: Responses, s: Service): bool
  {
    match s
    case AddressLookup => r.address
    case TransactionLookup => r.transaction
    case BlockLookup => r.block
  }

  /** The detail view a successful lookup leads to. */
  function ViewOf(s: Service): View
  {
    match s
    case AddressLookup => AddressDetails
    case TransactionLookup => TransactionDetails
    case BlockLookup => BlockDetails
  }

  /** `onNothingFound`: the translated "nothing found" message on `searchField`. */
  function OnNothingFound(): (o: Outcome)
    ensures o.FieldError? && o.field == "searchField" && o.messageKey == "error.nothingFound"
  {
    FieldError(SEARCH_FIELD, NOTHING_FOUND)
  }

  /** `lookForBlock(blockhash)`: one block lookup; its answer decides between
      the block's details and the "nothing found" error. */
  function LookForBlock(blockhash: string, r: Responses): (res: Resolution)
    ensures res.calls == [Call(BlockLookup, blockhash)]
    ensures res.outcome.Navigate? <==> r.block
    ensures res.outcome.Navigate? ==> res.outcome == Navigate(BlockDetails, blockhash)
    ensures !r.block ==> res.outcome == OnNothingFound()
  {
    if r.block then Resolution(Navigate(BlockDetails, blockhash), [Call(BlockLookup, blockhash)])
    else Resolution(OnNothingFound(), [Call(BlockLookup, blockhash)])
  }

  /** `onSubmit` for the submitted value `searchField`. Only ADDRESS_REGEX is
      tested here; every other token, whatever its shape, goes to the
      transaction lookup and then to the block lookup. */
  function OnSubmit(searchField: string, r: Responses): (res: Resolution)
    ensures 1 <= |res.calls| <= 2
    ensures forall i :: 0 <= i < |res.calls| ==> res.calls[i].key == searchField
    ensures res.outcome.Navigate? ==>
      res.outcome.key == searchField &&
      ViewOf(res.calls[|res.calls| - 1].service) == res.outcome.view &&
      Answer(r, res.calls[|res.calls| - 1].service)
  {
    if AddressShaped(searchField) then
      if r.address then Resolution(Navigate(AddressDetails, searchField), [Call(AddressLookup, searchField)])
      else Resolution(ServerErrors, [Call(AddressLookup, searchField)])
    else
      if r.transaction then Resolution(Navigate(TransactionDetails, searchField), [Call(TransactionLookup, searchField)])
      else
        var block := LookForBlock(searchField, r);
        Resolution(block.outcome, [Call(TransactionLookup, searchField)] + block.calls)
  }

  /** Which services a resolution consulted. */
  function Consulted(res: Resolution): set<Service>
  {
    set i | 0 <= i < |res.calls| :: res.calls[i].service
  }

  // ---------------------------------------------------------------------------
  // The cascade as an ordered list of probes

  /** The outcome of running a list of probes: the first service that answered
      "found", if any, and the calls made. */
  datatype ProbeResult = ProbeResult(hit: Option<Service>, calls: seq<Call>)

  /** Ask each service of `plan` about `key` in turn, stopping at the first
      that finds it. */
  function Probe(plan: seq<Service>, key: string, r: Responses): (p: ProbeResult)
    ensures |p.calls| <= |plan|
    ensures forall i :: 0 <= i < |p.calls| ==> p.calls[i] == Call(plan[i], key)
    ensures p.hit.Some? ==>
      |p.calls| >= 1 && p.hit.value == plan[|p.calls| - 1] && Answer(r, p.hit.value) &&
      forall i :: 0 <= i < |p.calls| - 1 ==> !Answer(r, plan[i])
    ensures p.hit.None? ==> |p.calls| == |plan| && forall i :: 0 <= i < |plan| ==> !Answer(r, plan[i])
  {
    if plan == [] then ProbeResult(None, [])
    else if Answer(r, plan[0]) then ProbeResult(Some(plan[0]), [Call(plan[0], key)])
    else
      var rest := Probe(plan[1..], key, r);
      ProbeResult(rest.hit, [Call(plan[0], key)] + rest.calls)
  }

  /** The probe order for a token: the address lookup alone for an
      address-shaped token, otherwise the transaction and then the block lookup. */
  function Plan(token: string): seq<Service>
  {
    if AddressShaped(token) then [AddressLookup] else [TransactionLookup, BlockLookup]
  }

  /** What is shown when no probe of the plan finds the token. */
  function Exhausted(token: string): Outcome
  {
    if AddressShaped(token) then ServerErrors else OnNothingFound()
  }

  /** `onSubmit` is the ordered probe over `Plan(token)`: it makes the same
      calls, navigates to the view of the first service that finds the token,
      and otherwise reports the plan's failure. */
  lemma OnSubmitIsProbe(token: string, r: Responses)
    ensures OnSubmit(token, r).calls == Probe(Plan(token), token, r).calls
    ensures OnSubmit(token, r).outcome ==
      match Probe(Plan(token), token, r).hit
      case Some(s) => Navigate(ViewOf(s), token)
      case None => Exhausted(token)
  {
  }

  // ---------------------------------------------------------------------------
  // Properties of the cascade

  /** An address-shaped token is looked up by the address service only, once;
      found leads to the address details, not found to the server errors. */
  lemma AddressTokenUsesAddressLookupOnly(token: string, r: Responses)
    requires AddressShaped(token)
    ensures OnSubmit(token, r).calls == [Call(AddressLookup, token)]
    ensures OnSubmit(token, r).outcome == if r.address then Navigate(AddressDetails, token) else ServerErrors
    ensures TransactionLookup !in Consulted(OnSubmit(token, r)) && BlockLookup !in Consulted(OnSubmit(token, r))
  {
  }

  /** Any other token goes to the transaction lookup first; when that finds it,
      the block lookup is never made. */
  lemma OtherTokenTriesTransactionFirst(token: string, r: Responses)
    requires !AddressShaped(token)
    ensures OnSubmit(token, r).calls[0] == Call(TransactionLookup, token)
    ensures AddressLookup !in Consulted(OnSubmit(token, r))
    ensures r.transaction ==>
      OnSubmit(token, r).calls == [Call(TransactionLookup, token)] &&
      OnSubmit(token, r).outcome == Navigate(TransactionDetails, token)
  {
  }

  /** When the transaction lookup fails, the block lookup is made exactly once,
      with the same token; found leads to the block details, not found to the
      "nothing found" error on `searchField`. */
  lemma BlockIsTheFallback(token: string, r: Responses)
    requires !AddressShaped(token)
    requires !r.transaction
    ensures OnSubmit(token, r).calls == [Call(TransactionLookup, token), Call(BlockLookup, token)]
    ensures OnSubmit(token, r).outcome ==
      if r.block then Navigate(BlockDetails, token) else FieldError("searchField", "error.nothingFound")
  {
  }

  /** The block lookup is made only after a transaction lookup of the same
      token that failed. */
  lemma BlockOnlyAfterFailedTransaction(token: string, r: Responses, i: nat)
    requires i < |OnSubmit(token, r).calls|
    requires OnSubmit(token, r).calls[i].service == BlockLookup
    ensures i == 1 && OnSubmit(token, r).calls[0] == Call(TransactionLookup, token) && !r.transaction
  {
  }

  /** Each resolution makes at most two lookups, no service twice, in the order
      "address" or "transaction, then block". */
  lemma CallOrder(token: string, r: Responses)
    ensures var calls := OnSubmit(token, r).calls;
      calls == [Call(AddressLookup, token)] ||
      calls == [Call(TransactionLookup, token)] ||
      calls == [Call(TransactionLookup, token), Call(BlockLookup, token)]
    ensures var calls := OnSubmit(token, r).calls;
      forall i, j :: 0 <= i < j < |calls| ==> calls[i].service != calls[j].service
  {
  }

  /** The outcome depends only on the token and the answers of the lookups
      actually made: changing the answer of a service that was not consulted
      changes nothing. */
  lemma OnlyConsultedAnswersMatter(token: string, r1: Responses, r2: Responses)
    requires forall s :: s in Consulted(OnSubmit(token, r1)) ==> Answer(r1, s) == Answer(r2, s)
    ensures OnSubmit(token, r2) == OnSubmit(token, r1)
  {
    var res := OnSubmit(token, r1);
    if AddressShaped(token) {
      assert res.calls[0].service == AddressLookup;
    } else {
      assert res.calls[0].service == TransactionLookup;
      if !r1.transaction {
        assert res.calls[1].service == BlockLookup;
      }
    }
  }

  /** For a token the form accepts, the transaction and block lookups are only
      ever asked about 64-digit hex strings. */
  lemma AcceptedTokenHashLookups(token: string, r: Responses, i: nat)
    requires FormAccepts(Text(token))
    requires i < |OnSubmit(token, r).calls|
    requires OnSubmit(token, r).calls[i].service != AddressLookup
    ensures var key := OnSubmit(token, r).calls[i].key;
      |key| == 64 && forall k :: 0 <= k < |key| ==> IsHexDigit(key[k])
  {
    AcceptedNonAddressIsHash(token);
  }

  /** `onSubmit` itself does not test BLOCK_REGEX: a token that is neither
      shape, such as the empty string, still reaches the transaction lookup.
      The form validator is the only place BLOCK_REGEX is tested; onSubmit
      does not consult the form's validity. */
  lemma MalformedTokenIsStillProbed(r: Responses)
    ensures !FormAccepts(Text(""))
    ensures OnSubmit("", r).calls[0] == Call(TransactionLookup, "")
  {
  }

  // ---------------------------------------------------------------------------
  // Concrete cases

  /** A 34-character mixed-case alphanumeric token is an address: found leads
      to its details, not found to the server errors, and nothing else is asked. */
  lemma AddressExample(r: Responses)
    ensures var token := "1A2b3C4d5E6f7G8h9I0jK1L2M3N4O5P6Q7";
      FormAccepts(Text(token)) &&
      OnSubmit(token, r) == Resolution(
        if r.address then Navigate(AddressDetails, token) else ServerErrors,
        [Call(AddressLookup, token)])
  {
    var token := "1A2b3C4d5E6f7G8h9I0jK1L2M3N4O5P6Q7";
    assert |token| == 34 && forall i :: 0 <= i < |token| ==> IsAsciiAlnum(token[i]);
    AddressShapedIff(token);
    FormAcceptsIff(Text(token));
  }

  /** Sixty-four `a`s: a transaction if the transaction lookup finds it, else a
      block if the block lookup does, else "nothing found". */
  lemma HashExample(r: Responses)
    ensures var token := seq(64, _ => 'a');
      FormAccepts(Text(token)) &&
      OnSubmit(token, r).outcome ==
        if r.transaction then Navigate(TransactionDetails, token)
        else if r.block then Navigate(BlockDetails, token)
        else FieldError("searchField", "error.nothingFound")
  {
    var token := seq(64, _ => 'a');
    AddressShapedIff(token);
    BlockShapedIff(token);
    assert BlockShaped(token);
    FormAcceptsIff(Text(token));
  }
}
