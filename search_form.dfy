/** The validator of the `searchField` control built in `createForm`.

    The control starts out null and is guarded by Angular's `required`
    validator and by a `pattern` validator for the alternation
    `(ADDRESS_REGEX)|(BLOCK_REGEX)`. Angular's `required` treats null and the
    empty string as missing; its `pattern` validator lets those same empty
    values through (leaving them to `required`) and otherwise tests the
    pattern. Angular prepends `^` and appends `$` to the pattern string,
    giving `^(A)|(B)$`: the new `^` binds to the first alternative only and
    the new `$` to the last only. Both alternatives are anchored already, so
    this changes nothing.
 */
module SearchForm {
  import opened Patterns

  /** The value of a form control holding text: null until the user types. */
  datatype FieldValue = Null | Text(text: string)

  /** Angular's notion of an empty input value: null or of length zero. */
  predicate IsEmptyInputValue(v: FieldValue)
  {
    v.Null? || |v.text| == 0
  }

  /** `Validators.required` */
  predicate RequiredOk(v: FieldValue)
  {
    !IsEmptyInputValue(v)
  }

  /** `Validators.pattern(`(${ADDRESS_REGEX})|(${BLOCK_REGEX})`)` */
  predicate PatternOk(v: FieldValue)
  {
    IsEmptyInputValue(v) || Matches(ADDRESS_PATTERN, v.text) || Matches(BLOCK_PATTERN, v.text)
  }

  /** The control is valid when every validator on it passes. */
  predicate FormAccepts(v: FieldValue)
  {
    RequiredOk(v) && PatternOk(v)
  }

  /** The form accepts a value iff it is non-null and address-shaped or
      block/transaction-shaped. */
  lemma FormAcceptsIff(v: FieldValue)
    ensures FormAccepts(v) <==> v.Text? && (AddressShaped(v.text) || BlockShaped(v.text))
  {
  }

  /** The form accepts exactly the 34-character alphanumeric tokens and the
      64-character hex tokens. */
  lemma FormAcceptsChars(token: string)
    ensures FormAccepts(Text(token)) <==>
      (|token| == 34 && forall i :: 0 <= i < |token| ==> IsAsciiAlnum(token[i])) ||
      (|token| == 64 && forall i :: 0 <= i < |token| ==> IsHexDigit(token[i]))
  {
    FormAcceptsIff(Text(token));
    AddressShapedIff(token);
    BlockShapedIff(token);
  }

  /** The initial null value and the empty string are both refused. */
  lemma EmptyRefused()
    ensures !FormAccepts(Null) && !FormAccepts(Text(""))
  {
  }

  /** A token the form accepts and that is not address-shaped is a 64-digit
      hex string. The validator is the only place BLOCK_REGEX is tested;
      onSubmit does not consult the form's validity. */
  lemma AcceptedNonAddressIsHash(token: string)
    requires FormAccepts(Text(token))
    requires !AddressShaped(token)
    ensures |token| == 64 && forall i :: 0 <= i < |token| ==> IsHexDigit(token[i])
  {
    FormAcceptsIff(Text(token));
    BlockShapedIff(token);
  }
}
