/** The request validators that the engine relies on. */
module Validation {

  import opened Workflow

  predicate IsHexDigit(ch: char) {
    '0' <= ch <= '9' || 'a' <= ch <= 'f' || 'A' <= ch <= 'F'
  }

  const NIL_UUID := "00000000-0000-0000-0000-000000000000"

  /** Does this character fit position `i` of a UUID? */
  predicate FitsUuidAt(ch: char, i: nat) {
    if i == 8 || i == 13 || i == 18 || i == 23 then ch == '-'
    else if i == 14 then '1' <= ch <= '5'
    else if i == 19 then ch == '8' || ch == '9' || ch == 'a' || ch == 'b' || ch == 'A' || ch == 'B'
    else IsHexDigit(ch)
  }

  predicate IsValidUuid(value: string) {
    value == NIL_UUID || (|value| == 36 && forall i :: 0 <= i < |value| ==> FitsUuidAt(value[i], i))
  }

  /** Ids have equal lengths and hold no newline, as the comment markers need it. */
  lemma UuidsAreFlat(value: string)
    requires IsValidUuid(value)
    ensures |value| == 36 && '\n' !in value
  {
  }

  lemma HexDigits(ch: char)
    ensures IsHexDigit(ch) <==> ch in "0123456789abcdefABCDEF"
  {
  }

  ghost predicate Hexadecimal(s: string) {
    forall i :: 0 <= i < |s| ==> s[i] in "0123456789abcdefABCDEF"
  }

  lemma GroupFits(value: string, from: nat, to: nat)
    requires from <= to <= |value|
    ensures Hexadecimal(value[from..to]) <==> forall i :: from <= i < to ==> IsHexDigit(value[i])
  {
    hide IsHexDigit;
    forall i | from <= i < to
      ensures value[from..to][i - from] == value[i]
      ensures IsHexDigit(value[i]) <==> value[i] in "0123456789abcdefABCDEF"
    {
      HexDigits(value[i]);
    }
  }

  /** The exact shape of a valid id: the nil id, or five groups of 8, 4, 4, 4 and 12 hexadecimal digits
      in either case, of version 1 to 5 and of the variant that RFC 4122 defines. */
  lemma UuidShape(value: string)
    ensures IsValidUuid(value) <==>
      || value == "00000000-0000-0000-0000-000000000000"
      || (&& |value| == 36
          && value[8] == value[13] == value[18] == value[23] == '-'
          && Hexadecimal(value[..8]) && Hexadecimal(value[9..13]) && Hexadecimal(value[14..18])
          && Hexadecimal(value[19..23]) && Hexadecimal(value[24..])
          && value[14] in "12345" && value[19] in "89abAB")
  {
    hide Hexadecimal;
    if |value| == 36 {
      GroupFits(value, 0, 8);
      GroupFits(value, 9, 13);
      GroupFits(value, 14, 18);
      GroupFits(value, 19, 23);
      GroupFits(value, 24, 36);
      assert value[0..8] == value[..8] && value[24..36] == value[24..];
    }
  }

  /** The optional input of an execution. */
  datatype Input = NoInput | ObjectInput | OtherInput

  /** An optional numeric argument: nothing, a number, a text that reads as one, or anything else. */
  datatype Given = Absent | Integer(n: int) | NumericText(n: int) | Malformed
  {
    predicate OptionalPositiveInteger(max: Option<int>) {
      match this
      case Absent => true
      case Integer(n) => 0 < n && (max.Some? ==> n <= max.value)
      case _ => false
    }

    /** The number that the argument is converted to, if that is a positive integer. */
    function PositiveInteger(): (x: Option<int>)
      ensures x.Some? ==> x.value > 0
    {
      if (Integer? || NumericText?) && n > 0 then Some(n) else None
    }
  }
}
