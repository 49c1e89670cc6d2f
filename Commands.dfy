/** The command vocabulary of the wire protocol and its total tokenizer. */
module Commands {
  import opened Wrappers
  import opened Decimal

  datatype Command = CONNECT | PING | PONG | REQUEST | SEQUENCE_NUMBER | OK | ERROR | UNKNOWN

  /** The enum constant's name, as Enum.toString and Enum.valueOf use it. */
  function Name(c: Command): string {
    match c
    case CONNECT => "CONNECT"
    case PING => "PING"
    case PONG => "PONG"
    case REQUEST => "REQUEST"
    case SEQUENCE_NUMBER => "SEQUENCE_NUMBER"
    case OK => "OK"
    case ERROR => "ERROR"
    case UNKNOWN => "UNKNOWN"
  }

  /** Enum.valueOf, with the exception for a non-name turned into UNKNOWN. */
  function TryParse(s: string): (c: Command)
    ensures c != UNKNOWN ==> Name(c) == s
    ensures (exists d :: Name(d) == s) ==> Name(c) == s
  {
    if s == "CONNECT" then CONNECT
    else if s == "PING" then PING
    else if s == "PONG" then PONG
    else if s == "REQUEST" then REQUEST
    else if s == "SEQUENCE_NUMBER" then SEQUENCE_NUMBER
    else if s == "OK" then OK
    else if s == "ERROR" then ERROR
    else UNKNOWN
  }

  /** Command.parse: an absent (null) or empty token is UNKNOWN, an all-digit token is
      SEQUENCE_NUMBER, an exact variant name is that variant, anything else UNKNOWN. */
  function Parse(token: Option<string>): (c: Command)
    ensures token.None? || token.value == "" ==> c == UNKNOWN
    ensures token.Some? && IsNumeric(token.value) ==> c == SEQUENCE_NUMBER
    ensures token.Some? && !IsNumeric(token.value) && c != UNKNOWN ==> Name(c) == token.value
    ensures c == SEQUENCE_NUMBER ==> token.Some? && (IsNumeric(token.value) || token.value == "SEQUENCE_NUMBER")
  {
    if token.None? || token.value == "" then UNKNOWN
    else if IsNumeric(token.value) then SEQUENCE_NUMBER
    else TryParse(token.value)
  }

  /** No variant name is numeric, so the digit test never shadows a name. */
  lemma NamesAreNotNumeric(c: Command)
    ensures !IsNumeric(Name(c))
  {
    assert !IsDigit(Name(c)[0]);
  }

  /** Parsing a variant's own name gives that variant back. */
  lemma ParseName(c: Command)
    ensures Parse(Some(Name(c))) == c
  {
    NamesAreNotNumeric(c);
  }

  /** A token that is neither numeric nor an exact (case-sensitive) variant name is UNKNOWN. */
  lemma ParseOther(s: string)
    requires !IsNumeric(s)
    requires forall c :: Name(c) != s
    ensures Parse(Some(s)) == UNKNOWN
  {
  }

  /** A numeric token only ever parses to SEQUENCE_NUMBER, and every decimal
      sequence number is such a token. */
  lemma ParseSequenceNumber(n: nat)
    ensures Parse(Some(NatToString(n))) == SEQUENCE_NUMBER
  {
    NatToStringIsNumeric(n);
  }
}
