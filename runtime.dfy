/** internal/data/runtime.go: the movie runtime, an int32 written in JSON as
    the string "<runtime> mins". */
module Runtime {
  import opened Wrappers
  import opened GoStrings
  import opened StrConv
  import opened Json

  newtype Runtime = x: int | -0x8000_0000 <= x < 0x8000_0000

  const ErrInvalidRuntimeFormat: string :=
    "runtime should be in the format: \"<runtime> mins\", where runtime is a valid int"

  const Suffix: string := " mins"

  lemma {:induction false} FormatIntPlain(i: int)
    ensures forall k :: 0 <= k < |FormatInt(i) + Suffix| ==> !NeedsEscape((FormatInt(i) + Suffix)[k])
  {
    var s := FormatInt(i);
    assert forall k :: 0 <= k < |s| ==> IsDigit(s[k]) || s[k] == '-' by {
      if i < 0 {
        assert forall k :: 1 <= k < |s| ==> s[k] == FormatNat(-i)[k - 1];
      }
    }
  }

  /** MarshalJSON: the decimal form of r followed by " mins", as a JSON
      string; none of its characters needs an escape. */
  function MarshalJSON(r: Runtime): (j: string)
    ensures j == "\"" + FormatInt(r as int) + " mins\""
  {
    FormatIntPlain(r as int);
    EncodeString(FormatInt(r as int) + Suffix)
  }

  /** The runtime UnmarshalJSON stores, or None for ErrInvalidRuntimeFormat. */
  function ParseRuntime(j: string): (r: Option<Runtime>)
    ensures UnmarshalString(j, "").None? ==> r.None?
    ensures UnmarshalString(j, "").Some? && !HasSuffix(UnmarshalString(j, "").value, Suffix) ==> r.None?
    ensures UnmarshalString(j, "").Some? && HasSuffix(UnmarshalString(j, "").value, Suffix) ==>
      (r.None? <==> ParseInt(TrimSuffix(UnmarshalString(j, "").value, Suffix), Bits32).None?)
    ensures r.Some? ==> exists digits ::
              UnmarshalString(j, "").value == digits + Suffix && IsDecimal(digits) && DecimalValue(digits) == r.value as int
  {
    match UnmarshalString(j, "")
    case None => None
    case Some(s) =>
      if !HasSuffix(s, Suffix) then None
      else
        var digits := TrimSuffix(s, Suffix);
        match ParseInt(digits, Bits32)
        case None => None
        case Some(i) => Some(i as Runtime)
  }

  /** UnmarshalJSON(MarshalJSON(r)) restores r, for every int32 r. */
  lemma RoundTrip(r: Runtime)
    ensures ParseRuntime(MarshalJSON(r)) == Some(r)
  {
    var s := FormatInt(r as int) + Suffix;
    FormatIntPlain(r as int);
    UnmarshalMarshal(s, "");
    assert HasSuffix(s, Suffix);
    assert TrimSuffix(s, Suffix) == FormatInt(r as int);
    ParseFormatInt(r as int, Bits32);
  }

  /** A JSON null leaves the string empty, which has no " mins" suffix. */
  lemma NullIsInvalid()
    ensures ParseRuntime("null") == None
  {
    assert TrimJsonSpace("null") == "null";
  }

  /** A decoded string holding a character outside ASCII is not the text
      of a runtime: the character is neither part of the suffix nor a digit
      or sign. */
  lemma NonAsciiText(s: string, k: nat)
    requires k < |s| && s[k] > '\U{7F}'
    ensures !HasSuffix(s, Suffix) || !IsDecimal(TrimSuffix(s, Suffix))
  {
    if HasSuffix(s, Suffix) {
      var digits := TrimSuffix(s, Suffix);
      if k < |digits| {
        assert digits[k] == s[k];
      }
    }
  }

  /** Any character outside ASCII in the decoded string makes it invalid. */
  lemma NonAsciiIsInvalid(j: string, k: nat)
    requires UnmarshalString(j, "").Some? && k < |UnmarshalString(j, "").value|
    requires UnmarshalString(j, "").value[k] > '\U{7F}'
    ensures ParseRuntime(j) == None
  {
    NonAsciiText(UnmarshalString(j, "").value, k);
  }

  /** A Runtime field that UnmarshalJSON writes through its pointer receiver. */
  class RuntimeField {
    var value: Runtime

    constructor (v: Runtime)
      ensures value == v
    {
      value := v;
    }

    /** The field is written only once every step has succeeded. */
    method UnmarshalJSON(jsonForm: string) returns (err: Option<string>)
      modifies this
      ensures err.None? <==> ParseRuntime(jsonForm).Some?
      ensures err.Some? ==> err.value == ErrInvalidRuntimeFormat && value == old(value)
      ensures err.None? ==> value == ParseRuntime(jsonForm).value
    {
      var stringForm := "";
      var decoded := UnmarshalString(jsonForm, stringForm);
      if decoded.None? {
        return Some(ErrInvalidRuntimeFormat);
      }
      stringForm := decoded.value;
      if !HasSuffix(stringForm, Suffix) {
        return Some(ErrInvalidRuntimeFormat);
      }
      stringForm := TrimSuffix(stringForm, Suffix);
      var intForm := ParseInt(stringForm, Bits32);
      if intForm.None? {
        return Some(ErrInvalidRuntimeFormat);
      }
      value := intForm.value as Runtime;
      return None;
    }
  }
}
