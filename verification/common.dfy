/** Identifiers and clock values shared by the entities. `Uuid::new_v4()` and `Utc::now()` are never
    called by the model: fresh identifiers and clock readings arrive as parameters. */
module Common {
  import opened Text

  const UUID_BOUND: int := 0x1_0000_0000_0000_0000_0000_0000_0000_0000

  /** A 128-bit UUID. */
  type Uuid = x: int | 0 <= x < UUID_BOUND

  /** `Uuid::nil()`, the all-zero UUID. */
  const NIL_UUID: Uuid := 0

  /** A `NaiveDateTime`; only its total order matters here. */
  type Timestamp = int

  /** 16^12, 16^16, 16^20 and 16^24: dividing by them drops the last 12, 16, 20 or 24 hex digits. */
  const HEX12: nat := 0x1_0000_0000_0000
  const HEX16: nat := 0x1_0000_0000_0000_0000
  const HEX20: nat := 0x1_0000_0000_0000_0000_0000
  const HEX24: nat := 0x1_0000_0000_0000_0000_0000_0000

  /** `{:?}` of a `Uuid`: 32 lower-case hexadecimal digits grouped 8-4-4-4-12. */
  function UuidDebug(id: Uuid): (s: string)
    ensures |s| == 36
    ensures s[8] == s[13] == s[18] == s[23] == '-'
  {
    var g1 := Hex(id / HEX24, 8) + "-";
    var g2 := g1 + Hex(id / HEX20, 4) + "-";
    var g3 := g2 + Hex(id / HEX16, 4) + "-";
    var g4 := g3 + Hex(id / HEX12, 4) + "-";
    assert |g1| == 9 && g1[8] == '-';
    assert |g2| == 14 && g2[8] == g1[8] && g2[13] == '-';
    assert |g3| == 19 && g3[8] == g2[8] && g3[13] == g2[13] && g3[18] == '-';
    assert |g4| == 24 && g4[8] == g3[8] && g4[13] == g3[13] && g4[18] == g3[18] && g4[23] == '-';
    g4 + Hex(id, 12)
  }
}

/** The text-field rule shared by items, users and the legacy entity: a required field is
    non-empty and at most 128 bytes long (`MAX_NAME_LENGTH`, `MAX_LOCATION_LENGTH`,
    `MAX_EXTERNAL_ID_LENGTH` are all 128 and compared with `String::len`). */
module Validation {
  import opened Text

  const MAX_LENGTH: nat := 128

  predicate TooLong(s: string) {
    Utf8Len(s) > MAX_LENGTH
  }

  predicate ValidText(s: string) {
    s != [] && !TooLong(s)
  }

  /** The bound is on bytes: a field of more than 128 characters is always too long, while
      one of at most 32 characters always fits. */
  lemma LengthBounds(s: string)
    ensures |s| > MAX_LENGTH ==> TooLong(s)
    ensures |s| <= MAX_LENGTH / 4 ==> !TooLong(s)
  {
  }

  /** An ASCII field is valid exactly when it has between 1 and 128 characters. */
  lemma AsciiValidText(s: string)
    requires IsAscii(s)
    ensures ValidText(s) <==> 1 <= |s| <= MAX_LENGTH
  {
    AsciiUtf8Len(s);
  }
}
