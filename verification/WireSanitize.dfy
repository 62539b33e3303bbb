/** The wire-format string rule: printable ASCII only, length-capped. */
module WireSanitize {

  /** Length cap for every wire field that does not ask for another one. */
  const DEFAULT_MAX_LEN := 256

  const TRUNCATION_MARKER := "..."

  predicate Printable(ch: char) {
    0x20 <= ch as int <= 0x7E
  }

  ghost predicate AllPrintable(s: string) {
    forall i | 0 <= i < |s| :: ' ' <= s[i] <= '~'
  }

  /** What the wire promises of one field. */
  ghost predicate Wire(s: string, maxLen: nat) {
    AllPrintable(s) && |s| <= maxLen
  }

  function CleanChar(ch: char): char {
    if Printable(ch) then ch else ' '
  }

  function Cleaned(value: string): string {
    seq(|value|, i requires 0 <= i < |value| => CleanChar(value[i]))
  }

  /** Python's `s[:n]`: a negative `n` counts from the end. */
  function SliceTo(s: string, n: int): string {
    if n >= |s| then s
    else if n >= 0 then s[..n]
    else if |s| + n >= 0 then s[..|s| + n]
    else ""
  }

  function Sanitize(value: string, maxLen: int := DEFAULT_MAX_LEN): string {
    if value == "" then ""
    else
      var cleaned := Cleaned(value);
      if |cleaned| <= maxLen then cleaned
      else if maxLen <= |TRUNCATION_MARKER| then SliceTo(TRUNCATION_MARKER, maxLen)
      else SliceTo(cleaned, maxLen - |TRUNCATION_MARKER|) + TRUNCATION_MARKER
  }

  function SanitizeMapping(mapping: map<string, string>, maxLen: int := DEFAULT_MAX_LEN): map<string, string> {
    map k | k in mapping :: Sanitize(mapping[k], maxLen)
  }

  /** Whatever the input and the cap, only the characters from space to tilde come out. */
  lemma SanitizePrintable(value: string, maxLen: int)
    ensures forall i | 0 <= i < |Sanitize(value, maxLen)| :: ' ' <= Sanitize(value, maxLen)[i] <= '~'
  {
  }

  /** The documented post-condition `len(result) <= max_len` holds exactly for a non-negative cap. */
  lemma LengthCap(value: string, maxLen: int)
    ensures |Sanitize(value, maxLen)| <= maxLen <==> 0 <= maxLen
  {
  }

  /** A negative cap slices the marker from its end, so the result is longer than the cap. */
  lemma NegativeCapOverflows()
    ensures Sanitize("x", -1) == ".."
  {
  }

  /** The rule changes a string exactly when the string breaks it; the cap is 256 unless another is asked for. */
  lemma IdentityOnWire(value: string, maxLen: nat)
    ensures Sanitize(value, maxLen) == value <==> Wire(value, maxLen)
    ensures Sanitize(value) == value <==> |value| <= 256 && forall i | 0 <= i < |value| :: ' ' <= value[i] <= '~'
  {
  }

  /** Sanitising twice is sanitising once, for every cap, negative ones included. */
  lemma Idempotent(value: string, maxLen: int)
    ensures Sanitize(Sanitize(value, maxLen), maxLen) == Sanitize(value, maxLen)
  {
  }

  /** What a character that is kept in place becomes. */
  ghost predicate Survives(before: char, after: char) {
    if ' ' <= before <= '~' then after == before else after == ' '
  }

  /** Positions survive up to the truncation point, unprintable ones as a space, and nothing else does. */
  lemma PositionsPreserved(value: string, maxLen: nat)
    ensures var r := Sanitize(value, maxLen);
            && (|value| <= maxLen ==>
                  |r| == |value| && forall i | 0 <= i < |value| :: Survives(value[i], r[i]))
            && (3 < maxLen < |value| ==>
                  && |r| == maxLen && r[maxLen - 3..] == "..."
                  && forall i | 0 <= i < maxLen - 3 :: Survives(value[i], r[i]))
            && (maxLen <= 3 && maxLen < |value| ==> r == "..."[..maxLen])
  {
  }

  /** The one fact the hub relies on: a sanitised field is a wire field. */
  lemma SanitizedIsWire(value: string, maxLen: nat)
    ensures Wire(Sanitize(value, maxLen), maxLen)
  {
  }

  /** Keys flow through unchanged, every value is the sanitised one and obeys the wire rule. */
  lemma MappingIsWire(mapping: map<string, string>, maxLen: nat)
    ensures SanitizeMapping(mapping, maxLen).Keys == mapping.Keys
    ensures forall k | k in mapping :: SanitizeMapping(mapping, maxLen)[k] == Sanitize(mapping[k], maxLen)
    ensures forall k | k in mapping :: Wire(SanitizeMapping(mapping, maxLen)[k], maxLen)
  {
  }
}
