/**
 * `EditContactModal`: the names a contact may not take, the name validator,
 * the name sent on submit, and when the Save button is disabled.
 */
module EditContact {
  import opened Wrappers

  /**
   * The characters `trim`, `trimStart` and `trimEnd` remove: ECMAScript's
   * WhiteSpace (tab, vertical tab, form feed, space, no-break space, BOM and the
   * other space separators) and LineTerminator (LF, CR, LS, PS).
   */
  predicate IsWhitespace(c: char) {
    var n := c as int;
    n == 0x09 || n == 0x0A || n == 0x0B || n == 0x0C || n == 0x0D || n == 0x20 ||
    n == 0xA0 || n == 0x1680 || (0x2000 <= n <= 0x200A) || n == 0x2028 || n == 0x2029 ||
    n == 0x202F || n == 0x205F || n == 0x3000 || n == 0xFEFF
  }

  predicate AllWhitespace(s: string) {
    forall i :: 0 <= i < |s| ==> IsWhitespace(s[i])
  }

  /** The number of whitespace characters `s` starts with. */
  function LeadCount(s: string): (n: nat)
    ensures n <= |s|
    ensures forall i :: 0 <= i < n ==> IsWhitespace(s[i])
    ensures n < |s| ==> !IsWhitespace(s[n])
  {
    if s != [] && IsWhitespace(s[0]) then
      var n := 1 + LeadCount(s[1..]);
      assert forall i :: 1 <= i < n ==> s[i] == s[1..][i - 1];
      n
    else
      0
  }

  /** The number of whitespace characters `s` ends with. */
  function TrailCount(s: string): (n: nat)
    ensures n <= |s|
    ensures forall i :: |s| - n <= i < |s| ==> IsWhitespace(s[i])
    ensures n < |s| ==> !IsWhitespace(s[|s| - n - 1])
  {
    if s != [] && IsWhitespace(s[|s| - 1]) then
      var n := 1 + TrailCount(s[..|s| - 1]);
      assert forall i :: |s| - n <= i < |s| - 1 ==> s[i] == s[..|s| - 1][i];
      n
    else
      0
  }

  /** `trimStart`: drops the leading whitespace and nothing else. */
  function TrimStart(s: string): (r: string)
    ensures |r| <= |s|
    ensures forall i :: 0 <= i < |r| ==> r[i] == s[|s| - |r| + i]
    ensures forall i :: 0 <= i < |s| - |r| ==> IsWhitespace(s[i])
    ensures r == [] || !IsWhitespace(r[0])
  {
    s[LeadCount(s)..]
  }

  /** `trimEnd`: drops the trailing whitespace and nothing else. */
  function TrimEnd(s: string): (r: string)
    ensures |r| <= |s|
    ensures forall i :: 0 <= i < |r| ==> r[i] == s[i]
    ensures forall i :: |r| <= i < |s| ==> IsWhitespace(s[i])
    ensures r == [] || !IsWhitespace(r[|r| - 1])
  {
    s[..|s| - TrailCount(s)]
  }

  /**
   * `trimStart().trimEnd()`, which removes the same characters as `trim()`:
   * the result starts and ends with a non-whitespace character, or is empty
   * exactly when the input is all whitespace.
   */
  function Trim(s: string): (r: string)
    ensures |r| <= |s|
    ensures r == [] || (!IsWhitespace(r[0]) && !IsWhitespace(r[|r| - 1]))
    ensures r == [] <==> AllWhitespace(s)
  {
    var t := TrimStart(s);
    var r := TrimEnd(t);
    assert r == [] ==> AllWhitespace(s) by {
      if r == [] {
        assert |s| - |t| == |s|;
      }
    }
    assert r != [] ==> !IsWhitespace(r[0]) && !AllWhitespace(s) by {
      if r != [] {
        assert r[0] == t[0] == s[|s| - |t|];
      }
    }
    r
  }

  /** Trimming keeps a slice of the input: only whitespace is cut on each side. */
  lemma TrimIsSlice(s: string)
    ensures var i := |s| - |TrimStart(s)|;
      && i + |Trim(s)| <= |s|
      && Trim(s) == s[i..i + |Trim(s)|]
      && (forall k :: 0 <= k < i ==> IsWhitespace(s[k]))
      && (forall k :: i + |Trim(s)| <= k < |s| ==> IsWhitespace(s[k]))
  {
    var t := TrimStart(s);
    var i := |s| - |t|;
    var r := TrimEnd(t);
    assert Trim(s) == r;
    assert r == s[i..i + |r|];
    forall k | i + |r| <= k < |s| ensures IsWhitespace(s[k]) {
      assert s[k] == t[k - i];
    }
  }

  /** Trimming twice is trimming once. */
  lemma TrimIdempotent(s: string)
    ensures Trim(Trim(s)) == Trim(s)
  {
    var r := Trim(s);
    if r != [] {
      assert TrimStart(r) == r;
      assert TrimEnd(r) == r;
    }
  }

  /** An address-book entry: `name` is optional. */
  datatype Contact = Contact(address: string, name: Option<string>)

  /** `(contact.name || '').trimStart().trimEnd()`. */
  function ContactName(c: Contact): string {
    Trim(c.name.GetOr(""))
  }

  /**
   * `existNames`: the trimmed names of all contacts other than the one being
   * edited (matched by address), a missing name counting as ''.
   */
  function ExistNames(contacts: seq<Contact>, address: string): (r: seq<string>)
    ensures |r| <= |contacts|
    ensures forall n :: n in r <==> exists c :: c in contacts && c.address != address && n == ContactName(c)
  {
    if contacts == [] then []
    else
      var c := contacts[0];
      var rest := ExistNames(contacts[1..], address);
      assert contacts == [c] + contacts[1..];
      (if c.address != address then [ContactName(c)] else []) + rest
  }

  datatype NameError = ContactNameIsRequired | ContactNameMustBeUnique

  /**
   * `nameValidator.validate` as written: `None` is the `true` the validator
   * returns for an accepted name. The emptiness check comes first, and the
   * uniqueness check compares the name as typed, untrimmed.
   */
  function ValidateAsWritten(name: string, existNames: seq<string>): (r: Option<NameError>)
    ensures r == Some(ContactNameIsRequired) <==> name == ""
    ensures r == Some(ContactNameMustBeUnique) <==> name != "" && name in existNames
    ensures r == None <==> name != "" && name !in existNames
  {
    if name == "" then Some(ContactNameIsRequired)
    else if name in existNames then Some(ContactNameMustBeUnique)
    else None
  }

  /** `onSubmit`: the name sent to `editContactAddress`. */
  function SubmittedName(name: string): string {
    Trim(name)
  }

  /**
   * The validator as evidently intended: it judges the name that will be
   * submitted, so a whitespace-only name is missing and a name equal to
   * another contact's after trimming is taken.
   */
  function ValidateName(name: string, existNames: seq<string>): (r: Option<NameError>)
    ensures r == Some(ContactNameIsRequired) <==> AllWhitespace(name)
    ensures r == None <==> SubmittedName(name) != "" && SubmittedName(name) !in existNames
  {
    var t := Trim(name);
    if t == "" then Some(ContactNameIsRequired)
    else if t in existNames then Some(ContactNameMustBeUnique)
    else None
  }

  /**
   * `isSaveDisabled`: disabled unless the name field is dirty, nothing is
   * loading, the trimmed name is non-empty and the form has no errors.
   */
  function SaveDisabled(nameDirty: bool, loading: bool, nameValue: string, hasErrors: bool): (r: bool)
    ensures !r <==> nameDirty && !loading && !AllWhitespace(nameValue) && !hasErrors
  {
    if !nameDirty then true
    else if loading || Trim(nameValue) == "" then true
    else if hasErrors then true
    else false
  }

  /** The Save button's `disabled={isSaveDisabled || loading}`. */
  function SaveButtonDisabled(nameDirty: bool, loading: bool, nameValue: string, hasErrors: bool): (r: bool)
    ensures r == SaveDisabled(nameDirty, loading, nameValue, hasErrors)
  {
    SaveDisabled(nameDirty, loading, nameValue, hasErrors) || loading
  }

  /**
   * With the intended validator, an enabled Save button submits a non-empty
   * name that no other contact has.
   */
  lemma SaveEnabledSubmitsFreshName(nameDirty: bool, loading: bool, name: string, existNames: seq<string>)
    requires !SaveButtonDisabled(nameDirty, loading, name, ValidateName(name, existNames).Some?)
    ensures SubmittedName(name) != "" && SubmittedName(name) !in existNames
  {
  }

  /**
   * The validator as written accepts " Alice" next to a contact named "Alice",
   * the Save button is enabled, and "Alice" is submitted: a duplicate name.
   */
  lemma UntrimmedDuplicateAccepted()
    ensures var existNames, name := ["Alice"], " Alice";
      && ValidateAsWritten(name, existNames) == None
      && !SaveButtonDisabled(true, false, name, ValidateAsWritten(name, existNames).Some?)
      && SubmittedName(name) in existNames
  {
    TrimLeadingSpace();
    assert " Alice" != "Alice" by {
      assert " Alice"[0] != "Alice"[0];
    }
  }

  lemma TrimLeadingSpace()
    ensures Trim(" Alice") == "Alice"
  {
    var alice := "Alice";
    assert !IsWhitespace(alice[0]) && !IsWhitespace(alice[|alice| - 1]);
    assert TrimStart(alice) == alice;
    assert TrimEnd(alice) == alice;
    assert " Alice"[1..] == alice;
    assert TrimStart(" Alice") == alice;
  }

  /**
   * The validator as written accepts a name of spaces; submitting it from the
   * keyboard (`onSubmitEditing`, which the disabled Save button does not
   * guard) sends the empty name.
   */
  lemma WhitespaceNameAccepted()
    ensures ValidateAsWritten("  ", []) == None && SubmittedName("  ") == ""
  {
    assert AllWhitespace("  ");
  }
}
